/** Migration numbers: the allocator, the checker, and why runs of the one satisfy the other. */
module AllocMigration {
  import opened Wrappers

  /** A four-digit prefix. */
  type Num = n: nat | n < 10_000

  type Branch = string
  type Rev = string

  datatype Reservation = Reservation(branch: Branch, revision: Rev, down: Rev)

  datatype Segment = Segment(branch: Branch, nums: set<Num>)

  /** The allocation file; the segments in file order. */
  datatype Alloc = Alloc(segments: seq<Segment>, legacy: set<Num>, reservations: map<Num, Reservation>)

  datatype Content = Broken | Parsed(declared: Option<Rev>)

  datatype File = File(name: string, prefix: Option<Num>, content: Content) {
    /** The revision, absent for a file that cannot be parsed. */
    function Revision(): Option<Rev> { if content.Broken? then None else content.declared }
  }

  // ---------------------------------------------------------------- counting files

  function Count(files: seq<File>, p: File -> bool): nat {
    if files == [] then 0 else Count(files[1..], p) + if p(files[0]) then 1 else 0
  }

  lemma {:induction false} CountAppend(a: seq<File>, b: seq<File>, p: File -> bool)
    ensures Count(a + b, p) == Count(a, p) + Count(b, p)
  {
    if a == [] {
      assert a + b == b;
    } else {
      CountAppend(a[1..], b, p);
      assert (a + b)[1..] == a[1..] + b;
    }
  }

  lemma {:induction false} CountNone(files: seq<File>, p: File -> bool)
    ensures Count(files, p) == 0 <==> forall f :: f in files ==> !p(f)
  {
    if files != [] {
      CountNone(files[1..], p);
      assert forall f :: f in files <==> f == files[0] || f in files[1..];
    }
  }

  function Inserted(files: seq<File>, at: nat, f: File): seq<File>
    requires at <= |files|
  {
    files[..at] + [f] + files[at..]
  }

  lemma CountOne(f: File, p: File -> bool)
    ensures Count([f], p) == if p(f) then 1 else 0
  {
    assert [f][1..] == [];
  }

  lemma CountInserted(files: seq<File>, at: nat, f: File, p: File -> bool)
    requires at <= |files|
    ensures Count(Inserted(files, at, f), p) == Count(files, p) + if p(f) then 1 else 0
  {
    hide Count;
    var front, back := files[..at], files[at..];
    CountAppend(front + [f], back, p);
    CountAppend(front, [f], p);
    CountAppend(front, back, p);
    CountOne(f, p);
    assert files == front + back;
  }

  lemma InsertedMembers(files: seq<File>, at: nat, f: File)
    requires at <= |files|
    ensures forall g :: g in Inserted(files, at, f) <==> g == f || g in files
  {
    assert files == files[..at] + files[at..];
  }

  lemma CountNext(files: seq<File>, i: nat, p: File -> bool)
    requires i < |files|
    ensures Count(files[..i + 1], p) == Count(files[..i], p) + if p(files[i]) then 1 else 0
  {
    hide Count;
    assert files[..i + 1] == files[..i] + [files[i]];
    CountAppend(files[..i], [files[i]], p);
    CountOne(files[i], p);
  }

  function HasRevision(rev: Rev): File -> bool { (f: File) => rev != "" && f.Revision() == Some(rev) }

  function HasPrefix(n: Num): File -> bool { (f: File) => f.prefix == Some(n) }

  // ---------------------------------------------------------------- segments

  /** The first segment that lists the number. */
  function Owner(segments: seq<Segment>, n: Num): (b: Option<Branch>) {
    if segments == [] then None
    else if n in segments[0].nums then Some(segments[0].branch)
    else Owner(segments[1..], n)
  }

  predicate Listed(segments: seq<Segment>, n: Num) { exists k :: 0 <= k < |segments| && n in segments[k].nums }

  lemma {:induction false} OwnedIffListed(segments: seq<Segment>, n: Num)
    ensures Owner(segments, n).Some? <==> Listed(segments, n)
  {
    if segments != [] {
      OwnedIffListed(segments[1..], n);
      if Listed(segments[1..], n) {
        var k :| 0 <= k < |segments| - 1 && n in segments[1..][k].nums;
        assert n in segments[k + 1].nums;
      }
      if Listed(segments, n) && n !in segments[0].nums {
        var k :| 0 <= k < |segments| && n in segments[k].nums;
        assert n in segments[1..][k - 1].nums;
      }
    }
  }

  /** Below every number of every segment. */
  ghost predicate PreRegime(segments: seq<Segment>, n: Num) {
    forall k, m :: 0 <= k < |segments| && m in segments[k].nums ==> n < m
  }

  const NO_SEGMENT: nat := 1_000_000_000

  method LeastOf(nums: set<Num>, start: nat) returns (least: nat)
    ensures least <= start && (forall m: Num :: m in nums ==> least <= m)
    ensures least == start || exists m: Num :: m in nums && m == least
  {
    least := start;
    var rest := nums;
    while rest != {}
      invariant rest <= nums
      invariant least <= start && forall m: Num :: m in nums && m !in rest ==> least <= m
      invariant least == start || exists m: Num :: m in nums && m == least
      decreases |rest|
    {
      var m: Num :| m in rest;
      least := if m < least then m else least;
      rest := rest - {m};
    }
  }

  method MinSegment(segments: seq<Segment>) returns (least: nat)
    ensures forall n: Num :: n < least <==> PreRegime(segments, n)
  {
    least := NO_SEGMENT;
    var i := 0;
    while i < |segments|
      invariant i <= |segments| && least <= NO_SEGMENT
      invariant forall k :: 0 <= k < i ==> forall m :: m in segments[k].nums ==> least <= m
      invariant least == NO_SEGMENT || exists k, m :: 0 <= k < i && m in segments[k].nums && m == least
    {
      least := LeastOf(segments[i].nums, least);
      i := i + 1;
    }
    forall n: Num | PreRegime(segments, n) ensures n < least {
      if least != NO_SEGMENT {
        var k, m :| 0 <= k < |segments| && m in segments[k].nums && m == least;
      }
    }
  }

  // ---------------------------------------------------------------- allocation

  datatype Verdict = Granted | Reserved | Legacy | NoSegment | WrongBranch(owner: Branch) | FileExists

  function Judge(a: Alloc, files: seq<File>, n: Num, branch: Branch): (v: Verdict)
    ensures v.Granted? <==>
      && n !in a.reservations && n !in a.legacy && Owner(a.segments, n) == Some(branch)
      && (forall f :: f in files ==> f.prefix != Some(n))
    ensures v.Reserved? <==> n in a.reservations
    ensures v.Legacy? <==> n in a.legacy && n !in a.reservations
    ensures v.NoSegment? <==> !Listed(a.segments, n) && n !in a.legacy && n !in a.reservations
    ensures v.WrongBranch? ==> v.owner != branch && Owner(a.segments, n) == Some(v.owner)
  {
    OwnedIffListed(a.segments, n);
    if n in a.reservations then Reserved
    else if n in a.legacy then Legacy
    else match Owner(a.segments, n)
      case None => NoSegment
      case Some(owner) =>
        if owner != branch then WrongBranch(owner)
        else if exists f :: f in files && f.prefix == Some(n) then FileExists
        else Granted
  }

  function WithReservation(a: Alloc, n: Num, branch: Branch, revision: Rev, down: Rev): Alloc {
    a.(reservations := a.reservations[n := Reservation(branch, revision, down)])
  }

  /** The allocation file, updated in place. */
  class Ledger {
    var data: Alloc

    constructor (data: Alloc)
      ensures this.data == data
    {
      this.data := data;
    }

    method Alloc(n: Num, branch: Branch, revision: Rev, down: Rev, files: seq<File>) returns (v: Verdict)
      modifies this
      ensures v == Judge(old(data), files, n, branch)
      ensures data == if v.Granted? then WithReservation(old(data), n, branch, revision, down) else old(data)
      ensures v.Granted? ==>
        && n in data.reservations && data.reservations[n].branch == branch
        && data.reservations[n].revision == revision && data.reservations[n].down == down
        && (forall m :: m != n ==> (m in data.reservations <==> m in old(data.reservations)))
        && (forall m :: m in old(data.reservations) ==> data.reservations[m] == old(data.reservations)[m])
        && data.segments == old(data.segments) && data.legacy == old(data.legacy)
    {
      if n in data.reservations {
        return Reserved;
      }
      if n in data.legacy {
        return Legacy;
      }
      var i := 0;
      while i < |data.segments| && n !in data.segments[i].nums
        invariant i <= |data.segments|
        invariant Owner(data.segments, n) == Owner(data.segments[i..], n)
      {
        assert data.segments[i..][1..] == data.segments[i + 1..];
        i := i + 1;
      }
      if i == |data.segments| {
        return NoSegment;
      }
      if data.segments[i].branch != branch {
        return WrongBranch(data.segments[i].branch);
      }
      var j := 0;
      while j < |files|
        invariant j <= |files|
        invariant forall k :: 0 <= k < j ==> files[k].prefix != Some(n)
      {
        if files[j].prefix == Some(n) {
          return FileExists;
        }
        j := j + 1;
      }
      data := data.(reservations := data.reservations[n := Reservation(branch, revision, down)]);
      v := Granted;
    }
  }

  // ---------------------------------------------------------------- checking

  datatype Failure =
    | ParseFailed(file: File)
    | NoRevision(file: File)
    | DuplicateRevision(rev: Rev)
    | Unregistered(file: File)
    | CrossSegment(num: Num)
    | DuplicatePrefix(num: Num)
    | Mismatch(num: Num)

  predicate Undeclared(f: File) { f.content.Parsed? && (f.content.declared == None || f.content.declared == Some("")) }

  /** The prefix is one the segments have to account for. */
  ghost predicate InRegime(a: Alloc, f: File) { f.prefix.Some? && !PreRegime(a.segments, f.prefix.value) }

  ghost predicate Charged(a: Alloc, n: Num) { !PreRegime(a.segments, n) && Owner(a.segments, n).Some? }

  function First(files: seq<File>, n: Num): (f: Option<File>)
    ensures f.Some? ==> f.value in files && f.value.prefix == Some(n)
    ensures f.None? <==> forall g :: g in files ==> g.prefix != Some(n)
  {
    if files == [] then None
    else if files[0].prefix == Some(n) then Some(files[0])
    else
      assert forall g :: g in files <==> g == files[0] || g in files[1..];
      First(files[1..], n)
  }

  /** What the checker reports, apart from the heads. No cross-segment duplicate is ever reported. */
  ghost predicate Reports(a: Alloc, files: seq<File>, e: Failure) {
    match e
    case ParseFailed(f) => f in files && f.content.Broken?
    case NoRevision(f) => f in files && Undeclared(f)
    case DuplicateRevision(rev) => Count(files, HasRevision(rev)) > 1
    case Unregistered(f) => f in files && InRegime(a, f) && Owner(a.segments, f.prefix.value).None?
        && f.prefix.value !in a.legacy
    case CrossSegment(n) => false
    case DuplicatePrefix(n) => Charged(a, n) && n !in a.legacy && Count(files, HasPrefix(n)) > 1
    case Mismatch(n) =>
      n in a.reservations && First(files, n).Some?
        && First(files, n).value.Revision() != Some(a.reservations[n].revision)
  }

  function CountOf(byRevision: map<Rev, nat>, rev: Rev): nat { if rev in byRevision then byRevision[rev] else 0 }

  lemma CountRevisionNext(files: seq<File>, i: nat)
    requires i < |files|
    ensures forall rev :: Count(files[..i + 1], HasRevision(rev))
                          == Count(files[..i], HasRevision(rev)) + if HasRevision(rev)(files[i]) then 1 else 0
  {
    forall rev ensures Count(files[..i + 1], HasRevision(rev))
                       == Count(files[..i], HasRevision(rev)) + if HasRevision(rev)(files[i]) then 1 else 0
    {
      CountNext(files, i, HasRevision(rev));
    }
  }

  ghost predicate Unusable(files: seq<File>, e: Failure) {
    || (e.ParseFailed? && e.file in files && e.file.content.Broken?)
    || (e.NoRevision? && e.file in files && Undeclared(e.file))
  }

  /** The loop that reads the declared revisions and groups the files by revision. */
  method GroupRevisions(files: seq<File>) returns (failures: seq<Failure>, byRevision: map<Rev, nat>)
    ensures forall e :: e in failures <==> Unusable(files, e)
    ensures forall rev :: CountOf(byRevision, rev) == Count(files, HasRevision(rev))
  {
    hide Count;
    failures := [];
    byRevision := map[];
    var i := 0;
    forall rev ensures Count(files[..0], HasRevision(rev)) == 0 { CountNone(files[..0], HasRevision(rev)); }
    while i < |files|
      invariant i <= |files|
      invariant forall e :: e in failures <==> Unusable(files[..i], e)
      invariant forall rev :: CountOf(byRevision, rev) == Count(files[..i], HasRevision(rev))
    {
      var f := files[i];
      CountRevisionNext(files, i);
      assert forall g :: g in files[..i + 1] <==> g in files[..i] || g == f;
      if f.content.Broken? {
        failures := failures + [ParseFailed(f)];
      } else if Undeclared(f) {
        failures := failures + [NoRevision(f)];
      } else {
        var rev := f.content.declared.value;
        byRevision := byRevision[rev := CountOf(byRevision, rev) + 1];
      }
      i := i + 1;
    }
    assert files[..i] == files;
  }

  method Duplicates(byRevision: map<Rev, nat>) returns (failures: seq<Failure>)
    ensures forall e :: e in failures <==> e.DuplicateRevision? && CountOf(byRevision, e.rev) > 1
  {
    failures := [];
    var rest := byRevision.Keys;
    while rest != {}
      invariant rest <= byRevision.Keys
      invariant forall e :: e in failures <==>
        e.DuplicateRevision? && e.rev in byRevision.Keys - rest && CountOf(byRevision, e.rev) > 1
      decreases |rest|
    {
      var rev :| rev in rest;
      if byRevision[rev] > 1 {
        failures := failures + [DuplicateRevision(rev)];
      }
      rest := rest - {rev};
    }
  }

  /** The loop that charges each prefix in the regime to its segment. Every list has one branch, repeated. */
  method ChargePrefixes(a: Alloc, files: seq<File>)
    returns (failures: seq<Failure>, numToBranches: map<Num, seq<Branch>>)
    ensures forall e :: e in failures <==> e.Unregistered? && Reports(a, files, e)
    ensures forall n :: n in numToBranches <==> Charged(a, n) && exists f :: f in files && f.prefix == Some(n)
    ensures forall n :: n in numToBranches ==>
      numToBranches[n] != [] && forall b :: b in numToBranches[n] ==> Owner(a.segments, n) == Some(b)
  {
    hide Owner, PreRegime;
    var least := MinSegment(a.segments);
    failures := [];
    numToBranches := map[];
    var i := 0;
    while i < |files|
      invariant i <= |files|
      invariant forall e :: e in failures <==> e.Unregistered? && Reports(a, files[..i], e)
      invariant forall n :: n in numToBranches <==> Charged(a, n) && exists f :: f in files[..i] && f.prefix == Some(n)
      invariant forall n :: n in numToBranches ==>
        numToBranches[n] != [] && forall b :: b in numToBranches[n] ==> Owner(a.segments, n) == Some(b)
    {
      var f := files[i];
      assert forall g :: g in files[..i + 1] <==> g in files[..i] || g == f;
      if f.prefix.Some? && f.prefix.value >= least {
        var num := f.prefix.value;
        var owner := Owner(a.segments, num);
        if owner.Some? {
          var charged := if num in numToBranches then numToBranches[num] else [];
          numToBranches := numToBranches[num := charged + [owner.value]];
        } else if num !in a.legacy {
          failures := failures + [Unregistered(f)];
        }
      }
      i := i + 1;
    }
    assert files[..i] == files;
  }

  method CountPrefix(files: seq<File>, n: Num) returns (c: nat)
    ensures c == Count(files, HasPrefix(n))
  {
    c := 0;
    var i := 0;
    while i < |files|
      invariant i <= |files|
      invariant c == Count(files[..i], HasPrefix(n))
    {
      CountNext(files, i, HasPrefix(n));
      if files[i].prefix == Some(n) {
        c := c + 1;
      }
      i := i + 1;
    }
    assert files[..i] == files;
  }

  function AsSet(branches: seq<Branch>): (s: set<Branch>) { set b | b in branches }

  lemma OneOwner(branches: seq<Branch>, owner: Option<Branch>)
    requires branches != [] && forall b :: b in branches ==> owner == Some(b)
    ensures |AsSet(branches)| == 1
  {
    forall b | b in AsSet(branches) ensures b == branches[0] {
      assert b in branches && branches[0] in branches;
    }
    assert AsSet(branches) == {branches[0]};
  }

  /** The checks on each charged prefix. The cross-segment branch is never taken. */
  method CheckCharges(a: Alloc, files: seq<File>, numToBranches: map<Num, seq<Branch>>) returns (failures: seq<Failure>)
    requires forall n :: n in numToBranches <==> Charged(a, n) && exists f :: f in files && f.prefix == Some(n)
    requires forall n :: n in numToBranches ==>
      numToBranches[n] != [] && forall b :: b in numToBranches[n] ==> Owner(a.segments, n) == Some(b)
    ensures forall e :: e in failures <==> e.DuplicatePrefix? && Reports(a, files, e)
    ensures forall e :: e in failures ==> !e.CrossSegment?
  {
    hide Owner, PreRegime, Count;
    failures := [];
    var rest := numToBranches.Keys;
    while rest != {}
      invariant rest <= numToBranches.Keys
      invariant forall e :: e in failures <==>
        e.DuplicatePrefix? && e.num in numToBranches.Keys - rest && Reports(a, files, e)
      decreases |rest|
    {
      var num :| num in rest;
      OneOwner(numToBranches[num], Owner(a.segments, num));
      if |AsSet(numToBranches[num])| > 1 {
        failures := failures + [CrossSegment(num)];
      }
      var same := CountPrefix(files, num);
      if same > 1 && num !in a.legacy {
        failures := failures + [DuplicatePrefix(num)];
      }
      rest := rest - {num};
    }
    forall e: Failure | e.DuplicatePrefix? && Reports(a, files, e) ensures e.num in numToBranches {
      CountNone(files, HasPrefix(e.num));
      var f :| f in files && HasPrefix(e.num)(f);
    }
  }

  /** Reservations against the files that carry their numbers. */
  method CheckReservations(a: Alloc, files: seq<File>) returns (failures: seq<Failure>)
    ensures forall e :: e in failures <==> e.Mismatch? && Reports(a, files, e)
  {
    failures := [];
    var rest := a.reservations.Keys;
    while rest != {}
      invariant rest <= a.reservations.Keys
      invariant forall e :: e in failures <==>
        e.Mismatch? && e.num in a.reservations.Keys - rest && Reports(a, files, e)
      decreases |rest|
    {
      var num :| num in rest;
      var matching := First(files, num);
      if matching.Some? && matching.value.Revision() != Some(a.reservations[num].revision) {
        failures := failures + [Mismatch(num)];
      }
      rest := rest - {num};
    }
  }

  /** `check` without the head query: exactly the reported failures. */
  method Check(a: Alloc, files: seq<File>) returns (failures: seq<Failure>)
    ensures forall e :: e in failures <==> Reports(a, files, e)
  {
    hide Owner, PreRegime, Count;
    var unusable, byRevision := GroupRevisions(files);
    var duplicates := Duplicates(byRevision);
    var unregistered, numToBranches := ChargePrefixes(a, files);
    var charges := CheckCharges(a, files, numToBranches);
    var mismatches := CheckReservations(a, files);
    failures := unusable + duplicates + unregistered + charges + mismatches;
  }

  // ---------------------------------------------------------------- runs

  datatype Tree = Tree(alloc: Alloc, files: seq<File>)

  /** Claim a number, land the file of a claimed number, or land a merge file without a number. */
  datatype Event =
    | Claim(n: Num, branch: Branch, revision: Rev, down: Rev)
    | Land(n: Num, name: string, at: nat)
    | Merge(name: string, revision: Rev, at: nat)

  ghost predicate Fresh(t: Tree, rev: Rev) {
    && rev != ""
    && (forall f :: f in t.files ==> f.Revision() != Some(rev))
    && (forall n :: n in t.alloc.reservations ==> t.alloc.reservations[n].revision != rev)
  }

  ghost predicate Pending(t: Tree, n: Num) {
    n in t.alloc.reservations && forall f :: f in t.files ==> f.prefix != Some(n)
  }

  ghost predicate Legal(t: Tree, e: Event) {
    match e
    case Claim(n, branch, revision, down) => Fresh(t, revision)
    case Land(n, name, at) => Pending(t, n) && at <= |t.files|
    case Merge(name, revision, at) => Fresh(t, revision) && at <= |t.files|
  }

  function LandedFile(t: Tree, n: Num, name: string): File
    requires n in t.alloc.reservations
  {
    File(name, Some(n), Parsed(Some(t.alloc.reservations[n].revision)))
  }

  function Apply(t: Tree, e: Event): Tree
    requires Legal(t, e)
  {
    match e
    case Claim(n, branch, revision, down) =>
      if Judge(t.alloc, t.files, n, branch).Granted?
      then t.(alloc := WithReservation(t.alloc, n, branch, revision, down))
      else t
    case Land(n, name, at) => t.(files := Inserted(t.files, at, LandedFile(t, n, name)))
    case Merge(name, revision, at) => t.(files := Inserted(t.files, at, File(name, None, Parsed(Some(revision)))))
  }

  /** A claim reserves a number that nobody has reserved and no file carries, for the branch of the first segment that
      lists it; a landing adds the file of a reserved number, a merge a file without one; nothing else changes. */
  lemma StepDoes(t: Tree, e: Event)
    requires Legal(t, e)
    ensures var t' := Apply(t, e);
      match e
      case Claim(n, branch, revision, down) =>
        && t'.files == t.files && t'.alloc.segments == t.alloc.segments && t'.alloc.legacy == t.alloc.legacy
        && t'.alloc.reservations
           == if n !in t.alloc.reservations && n !in t.alloc.legacy && Owner(t.alloc.segments, n) == Some(branch)
                 && forall f :: f in t.files ==> f.prefix != Some(n)
              then t.alloc.reservations[n := Reservation(branch, revision, down)] else t.alloc.reservations
      case Land(n, name, at) =>
        && t'.alloc == t.alloc && n in t.alloc.reservations
        && var file := File(name, Some(n), Parsed(Some(t.alloc.reservations[n].revision)));
           t'.files == t.files[..at] + [file] + t.files[at..]
      case Merge(name, revision, at) =>
        t'.alloc == t.alloc && t'.files == t.files[..at] + [File(name, None, Parsed(Some(revision)))] + t.files[at..]
  {
    hide Owner;
  }

  ghost predicate Run(t: Tree, es: seq<Event>)
    decreases |es|
  {
    es == [] || (Legal(t, es[0]) && Run(Apply(t, es[0]), es[1..]))
  }

  function After(t: Tree, es: seq<Event>): Tree
    requires Run(t, es)
    decreases |es|
  {
    if es == [] then t else After(Apply(t, es[0]), es[1..])
  }

  ghost predicate Green(t: Tree) { forall e :: !Reports(t.alloc, t.files, e) }

  lemma {:induction false} CountTwo(files: seq<File>, p: File -> bool)
    ensures Count(files, p) > 1 <==> exists i, j :: 0 <= i < j < |files| && p(files[i]) && p(files[j])
  {
    if files != [] {
      var rest := files[1..];
      CountTwo(rest, p);
      CountNone(rest, p);
      assert forall i :: 0 <= i < |rest| ==> rest[i] == files[i + 1];
      if Count(rest, p) > 1 {
        var i, j :| 0 <= i < j < |rest| && p(rest[i]) && p(rest[j]);
        assert p(files[i + 1]) && p(files[j + 1]);
      } else if Count(files, p) > 1 {
        var f :| f in rest && p(f);
        var j :| 0 <= j < |rest| && rest[j] == f;
        assert p(files[0]) && p(files[j + 1]);
      }
      forall i, j | 0 <= i < j < |files| && p(files[i]) && p(files[j]) ensures Count(files, p) > 1 {
        assert files[j] in rest;
        if i > 0 { assert p(rest[i - 1]) && p(rest[j - 1]); }
      }
    }
  }

  /** Some file has the number and is the first to have it. */
  predicate FirstAt(files: seq<File>, n: Num, i: nat)
    requires i < |files|
  {
    files[i].prefix == Some(n) && forall j :: 0 <= j < i ==> files[j].prefix != Some(n)
  }

  lemma {:induction false} FirstIsAt(files: seq<File>, n: Num, i: nat)
    requires i < |files| && FirstAt(files, n, i)
    ensures First(files, n) == Some(files[i])
  {
    if i > 0 {
      assert files[0].prefix != Some(n);
      assert forall j :: 0 <= j < i ==> files[1..][j] == files[j + 1];
      FirstIsAt(files[1..], n, i - 1);
    }
  }

  lemma {:induction false} FirstExists(files: seq<File>, n: Num)
    requires First(files, n).Some?
    ensures exists i: nat :: i < |files| && FirstAt(files, n, i)
  {
    if files[0].prefix == Some(n) {
      assert FirstAt(files, n, 0);
    } else {
      FirstExists(files[1..], n);
      var i: nat :| i < |files[1..]| && FirstAt(files[1..], n, i);
      assert forall j :: 1 <= j <= i ==> files[j] == files[1..][j - 1];
      assert FirstAt(files, n, i + 1);
    }
  }

  /** What the checker stands for: every file declares a revision of its own; a number from the first segment's least
      on is listed by a segment or legacy; no two files share a listed number that is not legacy; and a reserved number
      is carried first by a file with the reserved revision. */
  ghost predicate InOrder(a: Alloc, files: seq<File>) {
    && (forall i :: 0 <= i < |files| ==> files[i].Revision().Some? && files[i].Revision() != Some(""))
    && (forall i, j :: 0 <= i < j < |files| ==> files[i].Revision() != files[j].Revision())
    && (forall i :: 0 <= i < |files| && files[i].prefix.Some? ==>
          var n := files[i].prefix.value;
          PreRegime(a.segments, n) || Listed(a.segments, n) || n in a.legacy)
    && (forall i, j :: 0 <= i < j < |files| && files[i].prefix.Some? && files[i].prefix == files[j].prefix ==>
          var n := files[i].prefix.value;
          !Listed(a.segments, n) || n in a.legacy)
    && (forall n, i :: n in a.reservations && 0 <= i < |files| && FirstAt(files, n, i) ==>
          files[i].Revision() == Some(a.reservations[n].revision))
  }

  /** The check is green exactly if the files are in order. */
  lemma GreenIff(t: Tree)
    ensures Green(t) <==> InOrder(t.alloc, t.files)
  {
    hide Owner, Count, First, PreRegime;
    if Green(t) { GreenIsInOrder(t); }
    if InOrder(t.alloc, t.files) {
      forall e ensures !Reports(t.alloc, t.files, e) { InOrderIsSilent(t.alloc, t.files, e); }
    }
  }

  lemma ListedIsCharged(a: Alloc, n: Num)
    ensures Charged(a, n) <==> Listed(a.segments, n)
  {
    OwnedIffListed(a.segments, n);
    if Listed(a.segments, n) {
      var k :| 0 <= k < |a.segments| && n in a.segments[k].nums;
    }
  }

  lemma GreenIsInOrder(t: Tree)
    requires Green(t)
    ensures InOrder(t.alloc, t.files)
  {
    var a, files := t.alloc, t.files;
    hide Owner, Count, First, PreRegime, Listed, HasRevision, HasPrefix;
    forall i | 0 <= i < |files| ensures files[i].Revision().Some? && files[i].Revision() != Some("") {
      assert files[i] in files;
      assert !Reports(a, files, ParseFailed(files[i])) && !Reports(a, files, NoRevision(files[i]));
    }
    forall i, j | 0 <= i < j < |files| ensures files[i].Revision() != files[j].Revision() {
      var rev := files[i].Revision().value;
      CountTwo(files, HasRevision(rev));
      assert !Reports(a, files, DuplicateRevision(rev));
      RevisionHas(files[i], rev);
      RevisionHas(files[j], rev);
    }
    forall i | 0 <= i < |files| && files[i].prefix.Some?
      ensures var n := files[i].prefix.value; PreRegime(a.segments, n) || Listed(a.segments, n) || n in a.legacy
    {
      assert files[i] in files;
      OwnedIffListed(a.segments, files[i].prefix.value);
      assert !Reports(a, files, Unregistered(files[i]));
    }
    forall i, j | 0 <= i < j < |files| && files[i].prefix.Some? && files[i].prefix == files[j].prefix
      ensures var n := files[i].prefix.value; !Listed(a.segments, n) || n in a.legacy
    {
      var n := files[i].prefix.value;
      ListedIsCharged(a, n);
      CountTwo(files, HasPrefix(n));
      assert !Reports(a, files, DuplicatePrefix(n));
      PrefixHas(files[i], n);
      PrefixHas(files[j], n);
    }
    forall n, i | n in a.reservations && 0 <= i < |files| && FirstAt(files, n, i)
      ensures files[i].Revision() == Some(a.reservations[n].revision)
    {
      FirstIsAt(files, n, i);
      assert !Reports(a, files, Mismatch(n));
    }
  }

  lemma RevisionHas(f: File, rev: Rev)
    requires rev != ""
    ensures HasRevision(rev)(f) <==> f.Revision() == Some(rev)
  {
  }

  lemma PrefixHas(f: File, n: Num)
    ensures HasPrefix(n)(f) <==> f.prefix == Some(n)
  {
  }

  lemma InOrderIsSilent(a: Alloc, files: seq<File>, e: Failure)
    requires InOrder(a, files)
    ensures !Reports(a, files, e)
  {
    hide Owner, Count, First, PreRegime, Listed;
    match e
    case ParseFailed(f) =>
    case NoRevision(f) =>
    case DuplicateRevision(rev) => CountTwo(files, HasRevision(rev));
    case Unregistered(f) => if f.prefix.Some? { OwnedIffListed(a.segments, f.prefix.value); }
    case CrossSegment(_) =>
    case DuplicatePrefix(n) =>
      CountTwo(files, HasPrefix(n));
      ListedIsCharged(a, n);
    case Mismatch(n) =>
      if First(files, n).Some? {
        FirstExists(files, n);
        var i: nat :| i < |files| && FirstAt(files, n, i);
        FirstIsAt(files, n, i);
      }
  }

  /** What the allocator has to have kept for pending numbers. */
  ghost predicate Orderly(t: Tree) {
    var rs := t.alloc.reservations;
    && (forall n :: n in rs ==> rs[n].revision != "" && n !in t.alloc.legacy && Owner(t.alloc.segments, n).Some?)
    && (forall n :: Pending(t, n) ==> forall f :: f in t.files ==> f.Revision() != Some(rs[n].revision))
    && (forall n, m :: n in rs && m in rs && n != m ==> rs[n].revision != rs[m].revision)
  }

  lemma CountFresh(t: Tree, rev: Rev, at: nat, f: File, r: Rev)
    requires at <= |t.files| && rev != "" && f.Revision() == Some(rev)
    requires forall g :: g in t.files ==> g.Revision() != Some(rev)
    ensures Count(Inserted(t.files, at, f), HasRevision(r)) == if r == rev then 1 else Count(t.files, HasRevision(r))
  {
    CountInserted(t.files, at, f, HasRevision(r));
    if r == rev { CountNone(t.files, HasRevision(r)); }
  }

  lemma {:induction false} FirstInserted(files: seq<File>, at: nat, f: File, n: Num)
    requires at <= |files| && (f.prefix == Some(n) ==> forall g :: g in files ==> g.prefix != Some(n))
    ensures First(Inserted(files, at, f), n) == if f.prefix == Some(n) then Some(f) else First(files, n)
  {
    if at == 0 {
      assert Inserted(files, at, f)[1..] == files;
    } else {
      assert Inserted(files, at, f)[1..] == Inserted(files[1..], at - 1, f);
      FirstInserted(files[1..], at - 1, f, n);
      assert files[0] in files;
    }
  }

  /** Adding a file whose revision no file has, and whose prefix is absent, or new and listed, keeps the tree green,
      provided that it carries the revision its number was claimed with. */
  lemma AddingKeepsGreen(t: Tree, at: nat, f: File, rev: Rev)
    requires Green(t) && at <= |t.files| && f.content == Parsed(Some(rev)) && rev != ""
    requires forall g :: g in t.files ==> g.Revision() != Some(rev)
    requires match f.prefix
      case None => true
      case Some(n) =>
        Owner(t.alloc.segments, n).Some? && (forall g :: g in t.files ==> g.prefix != Some(n))
        && (n in t.alloc.reservations ==> t.alloc.reservations[n].revision == rev)
    ensures Green(t.(files := Inserted(t.files, at, f)))
  {
    hide Owner, Count, First, PreRegime, Inserted;
    var files := Inserted(t.files, at, f);
    InsertedMembers(t.files, at, f);
    forall e ensures !Reports(t.alloc, files, e) {
      assert !Reports(t.alloc, t.files, e);
      match e
      case DuplicateRevision(r) => CountFresh(t, rev, at, f, r);
      case DuplicatePrefix(n) =>
        CountInserted(t.files, at, f, HasPrefix(n));
        if f.prefix == Some(n) { CountNone(t.files, HasPrefix(n)); }
      case Mismatch(n) => FirstInserted(t.files, at, f, n);
      case _ =>
    }
  }

  /** The file of a claimed number lands green exactly if no file declares its revision yet. */
  lemma LandsGreenIff(t: Tree, n: Num, name: string, at: nat)
    requires Green(t) && Legal(t, Land(n, name, at)) && Owner(t.alloc.segments, n).Some?
    ensures var rev := t.alloc.reservations[n].revision;
      Green(Apply(t, Land(n, name, at))) <==> rev != "" && forall f :: f in t.files ==> f.Revision() != Some(rev)
  {
    hide Owner, Count, First, PreRegime, Inserted;
    var rev := t.alloc.reservations[n].revision;
    var f := LandedFile(t, n, name);
    var after := Apply(t, Land(n, name, at));
    InsertedMembers(t.files, at, f);
    if rev == "" {
      assert Reports(after.alloc, after.files, NoRevision(f));
    } else if exists g :: g in t.files && g.Revision() == Some(rev) {
      CountInserted(t.files, at, f, HasRevision(rev));
      CountNone(t.files, HasRevision(rev));
      var g :| g in t.files && g.Revision() == Some(rev);
      assert HasRevision(rev)(g);
      assert Reports(after.alloc, after.files, DuplicateRevision(rev));
    } else {
      AddingKeepsGreen(t, at, f, rev);
    }
  }

  lemma ClaimKeeps(t: Tree, n: Num, branch: Branch, revision: Rev, down: Rev)
    requires Green(t) && Orderly(t) && Fresh(t, revision) && Judge(t.alloc, t.files, n, branch).Granted?
    ensures var after := t.(alloc := WithReservation(t.alloc, n, branch, revision, down));
      Green(after) && Orderly(after)
  {
    hide Owner, Count, PreRegime, Judge;
    assert Owner(t.alloc.segments, n) == Some(branch) && n !in t.alloc.legacy;
    var after := t.(alloc := WithReservation(t.alloc, n, branch, revision, down));
    forall e ensures !Reports(after.alloc, t.files, e) { assert !Reports(t.alloc, t.files, e); }
    forall m | Pending(after, m) && m != n ensures Pending(t, m) {}
  }

  lemma StepKeeps(t: Tree, e: Event)
    requires Green(t) && Orderly(t) && Legal(t, e)
    ensures Green(Apply(t, e)) && Orderly(Apply(t, e))
  {
    hide Owner, Count, PreRegime, Inserted, Green;
    match e
    case Claim(n, branch, revision, down) =>
      if Judge(t.alloc, t.files, n, branch).Granted? { ClaimKeeps(t, n, branch, revision, down); }
    case Land(n, name, at) =>
      LandsGreenIff(t, n, name, at);
      InsertedMembers(t.files, at, LandedFile(t, n, name));
      forall m | Pending(Apply(t, e), m) ensures Pending(t, m) && m != n {}
    case Merge(name, revision, at) =>
      var f := File(name, None, Parsed(Some(revision)));
      AddingKeepsGreen(t, at, f, revision);
      InsertedMembers(t.files, at, f);
      forall m | Pending(Apply(t, e), m) ensures Pending(t, m) {}
  }

  /** Every interleaving of claims, landings and merges with fresh revisions keeps the check green. */
  lemma {:induction false} RunStaysGreen(t: Tree, es: seq<Event>)
    requires Green(t) && Orderly(t) && Run(t, es)
    ensures Green(After(t, es)) && Orderly(After(t, es))
    decreases |es|
  {
    if es != [] {
      StepKeeps(t, es[0]);
      RunStaysGreen(Apply(t, es[0]), es[1..]);
    }
  }

  /** In particular from any green tree in which nothing has been claimed yet. */
  lemma GreenFromTheStart(t: Tree, es: seq<Event>)
    requires Green(t) && t.alloc.reservations == map[] && Run(t, es)
    ensures Green(After(t, es))
  {
    RunStaysGreen(t, es);
  }
}

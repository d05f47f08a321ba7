/** Requirement files: includes are followed once each, and the last declaration of a name wins. */
module Requirements {
  import opened Wrappers

  type Path = string
  type Name = string
  type Spec = string

  /** A logical line. An include names the resolved path. */
  datatype Line = Include(path: Path) | Requirement(name: Name, spec: Spec) | Skipped

  type Files = map<Path, seq<Line>>

  datatype Declaration = Declaration(name: Name, spec: Spec)

  // ---------------------------------------------------------------- the files read, in order

  /** Reading fails on a missing file; otherwise: the declarations in reading order, the files opened in order, and
      the files seen. */
  datatype Reading = MissingFile | Read(decls: seq<Declaration>, visited: seq<Path>, seen: set<Path>)

  function ReadFile(files: Files, path: Path, seen: set<Path>): (r: Reading)
    requires path !in seen
    ensures r.Read? ==> seen + {path} <= r.seen
    decreases files.Keys - seen, 0
  {
    if path !in files then MissingFile
    else
      assert path in files.Keys - seen && path !in files.Keys - (seen + {path});
      match ReadLines(files, files[path], seen + {path})
      case MissingFile => MissingFile
      case Read(decls, visited, after) => Read(decls, [path] + visited, after)
  }

  function ReadLines(files: Files, lines: seq<Line>, seen: set<Path>): (r: Reading)
    ensures r.Read? ==> seen <= r.seen
    decreases files.Keys - seen, 1, |lines|
  {
    if lines == [] then Read([], [], seen)
    else
      match lines[0]
      case Skipped => ReadLines(files, lines[1..], seen)
      case Requirement(name, spec) =>
        Then(Read([Declaration(name, spec)], [], seen), ReadLines(files, lines[1..], seen))
      case Include(path) =>
        if path in seen then ReadLines(files, lines[1..], seen)
        else
          var included := ReadFile(files, path, seen);
          if included.MissingFile? then MissingFile
          else
            assert files.Keys - included.seen <= files.Keys - seen;
            Then(included, ReadLines(files, lines[1..], included.seen))
  }

  function Then(first: Reading, rest: Reading): Reading
    requires first.Read?
  {
    if rest.MissingFile? then MissingFile else Read(first.decls + rest.decls, first.visited + rest.visited, rest.seen)
  }

  // ---------------------------------------------------------------- each file once, and all that are reachable

  predicate Distinct(s: seq<Path>) { forall i, j :: 0 <= i < j < |s| ==> s[i] != s[j] }

  ghost predicate OnceEach(r: Reading, seen: set<Path>)
    requires r.Read?
  {
    && Distinct(r.visited)
    && (forall p :: p in r.visited ==> p !in seen)
    && (forall p :: p in r.seen <==> p in seen || p in r.visited)
  }

  lemma OnceThen(first: Reading, rest: Reading, seen: set<Path>)
    requires first.Read? && rest.Read? && OnceEach(first, seen) && OnceEach(rest, first.seen)
    ensures OnceEach(Then(first, rest), seen)
  {
    var all := first.visited + rest.visited;
    forall i, j | 0 <= i < j < |all| ensures all[i] != all[j] {
      if i < |first.visited| <= j {
        assert all[i] in first.visited && all[j] in rest.visited;
      }
    }
  }

  lemma {:induction false} FileOnce(files: Files, path: Path, seen: set<Path>)
    requires path !in seen && ReadFile(files, path, seen).Read?
    ensures OnceEach(ReadFile(files, path, seen), seen)
    decreases files.Keys - seen, 0
  {
    assert path in files.Keys - seen && path !in files.Keys - (seen + {path});
    LinesOnce(files, files[path], seen + {path});
  }

  lemma {:induction false} LinesOnce(files: Files, lines: seq<Line>, seen: set<Path>)
    requires ReadLines(files, lines, seen).Read?
    ensures OnceEach(ReadLines(files, lines, seen), seen)
    decreases files.Keys - seen, 1, |lines|
  {
    if lines != [] {
      if lines[0].Include? && lines[0].path !in seen {
        var included := ReadFile(files, lines[0].path, seen);
        FileOnce(files, lines[0].path, seen);
        assert files.Keys - included.seen <= files.Keys - seen;
        LinesOnce(files, lines[1..], included.seen);
        OnceThen(included, ReadLines(files, lines[1..], included.seen), seen);
      } else {
        LinesOnce(files, lines[1..], seen);
      }
    }
  }

  /** `s` contains every include of the files in `s`. */
  ghost predicate Closed(files: Files, s: set<Path>) {
    forall p, q :: p in s && p in files && Include(q) in files[p] ==> q in s
  }

  ghost predicate IncludesIn(lines: seq<Line>, s: set<Path>) { forall q :: Include(q) in lines ==> q in s }

  /** What a reading has opened exists, and its includes have been seen. */
  ghost predicate Followed(files: Files, r: Reading)
    requires r.Read?
  {
    forall p :: p in r.visited ==> p in files && IncludesIn(files[p], r.seen)
  }

  lemma {:induction false} FileFollowed(files: Files, path: Path, seen: set<Path>)
    requires path !in seen && ReadFile(files, path, seen).Read?
    ensures Followed(files, ReadFile(files, path, seen))
    decreases files.Keys - seen, 0
  {
    assert path in files.Keys - seen && path !in files.Keys - (seen + {path});
    LinesFollowed(files, files[path], seen + {path});
  }

  lemma {:induction false} LinesFollowed(files: Files, lines: seq<Line>, seen: set<Path>)
    requires ReadLines(files, lines, seen).Read?
    ensures Followed(files, ReadLines(files, lines, seen)) && IncludesIn(lines, ReadLines(files, lines, seen).seen)
    decreases files.Keys - seen, 1, |lines|
  {
    if lines != [] {
      if lines[0].Include? && lines[0].path !in seen {
        var included := ReadFile(files, lines[0].path, seen);
        FileFollowed(files, lines[0].path, seen);
        assert files.Keys - included.seen <= files.Keys - seen;
        LinesFollowed(files, lines[1..], included.seen);
      } else {
        LinesFollowed(files, lines[1..], seen);
      }
      assert forall q :: Include(q) in lines ==> Include(q) == lines[0] || Include(q) in lines[1..];
    }
  }

  /** Nothing outside a closed set is opened from inside it, and if all of it exists reading succeeds. */
  ghost predicate StaysIn(files: Files, r: Reading, s: set<Path>) {
    && (r.Read? ==> forall p :: p in r.visited ==> p in s)
    && (s <= files.Keys ==> r.Read?)
  }

  lemma {:induction false} FileStaysIn(files: Files, path: Path, seen: set<Path>, s: set<Path>)
    requires path !in seen && Closed(files, s) && path in s
    ensures StaysIn(files, ReadFile(files, path, seen), s)
    decreases files.Keys - seen, 0
  {
    if path in files {
      assert path in files.Keys - seen && path !in files.Keys - (seen + {path});
      LinesStayIn(files, files[path], seen + {path}, s);
    }
  }

  lemma {:induction false} LinesStayIn(files: Files, lines: seq<Line>, seen: set<Path>, s: set<Path>)
    requires Closed(files, s) && IncludesIn(lines, s)
    ensures StaysIn(files, ReadLines(files, lines, seen), s)
    decreases files.Keys - seen, 1, |lines|
  {
    if lines != [] {
      assert IncludesIn(lines[1..], s);
      if lines[0].Include? && lines[0].path !in seen {
        assert Include(lines[0].path) in lines;
        var included := ReadFile(files, lines[0].path, seen);
        FileStaysIn(files, lines[0].path, seen, s);
        if included.Read? {
          assert files.Keys - included.seen <= files.Keys - seen;
          LinesStayIn(files, lines[1..], included.seen, s);
        }
      } else {
        LinesStayIn(files, lines[1..], seen, s);
      }
    }
  }

  /** Reading from the top: every file at most once, cyclic includes or not, and exactly the least set that
      contains the file and is closed under includes. */
  lemma ReadsLeastClosure(files: Files, path: Path)
    ensures var r := ReadFile(files, path, {});
      r.Read? ==>
        && Distinct(r.visited) && path in r.visited
        && Closed(files, r.seen) && (forall p :: p in r.visited <==> p in r.seen)
        && forall s :: Closed(files, s) && path in s ==> r.seen <= s
  {
    var r := ReadFile(files, path, {});
    if r.Read? {
      FileOnce(files, path, {});
      FileFollowed(files, path, {});
      forall s | Closed(files, s) && path in s ensures r.seen <= s { FileStaysIn(files, path, {}, s); }
    }
  }

  /** Reading fails exactly when some file that can be reached is missing. */
  lemma FailsWhenOneIsMissing(files: Files, path: Path)
    ensures ReadFile(files, path, {}).Read? <==> exists s :: Closed(files, s) && path in s && s <= files.Keys
  {
    var r := ReadFile(files, path, {});
    if r.Read? {
      ReadsLeastClosure(files, path);
      FileFollowed(files, path, {});
      assert Closed(files, r.seen) && path in r.seen && r.seen <= files.Keys;
    }
    forall s | Closed(files, s) && path in s && s <= files.Keys ensures r.Read? { FileStaysIn(files, path, {}, s); }
  }

  // ---------------------------------------------------------------- declarations

  predicate LineOf(files: Files, p: Path, d: Declaration) { p in files && Requirement(d.name, d.spec) in files[p] }

  /** A declaration has been read exactly if an opened file has a line for it: nothing is lost or made up. */
  lemma {:induction false} FileDeclares(files: Files, path: Path, seen: set<Path>, d: Declaration)
    requires path !in seen && ReadFile(files, path, seen).Read?
    ensures var r := ReadFile(files, path, seen);
      d in r.decls <==> exists p :: p in r.visited && LineOf(files, p, d)
    decreases files.Keys - seen, 0
  {
    assert path in files.Keys - seen && path !in files.Keys - (seen + {path});
    LinesDeclare(files, files[path], seen + {path}, d);
    var visited := ReadLines(files, files[path], seen + {path}).visited;
    assert forall p :: p in [path] + visited <==> p == path || p in visited;
    assert LineOf(files, path, d) <==> Requirement(d.name, d.spec) in files[path];
  }

  lemma {:induction false} LinesDeclare(files: Files, lines: seq<Line>, seen: set<Path>, d: Declaration)
    requires ReadLines(files, lines, seen).Read?
    ensures var r := ReadLines(files, lines, seen);
      d in r.decls <==> Requirement(d.name, d.spec) in lines || exists p :: p in r.visited && LineOf(files, p, d)
    decreases files.Keys - seen, 1, |lines|
  {
    if lines != [] {
      assert forall l :: l in lines <==> l == lines[0] || l in lines[1..];
      if lines[0].Include? && lines[0].path !in seen {
        var included := ReadFile(files, lines[0].path, seen);
        FileDeclares(files, lines[0].path, seen, d);
        assert files.Keys - included.seen <= files.Keys - seen;
        LinesDeclare(files, lines[1..], included.seen, d);
      } else {
        LinesDeclare(files, lines[1..], seen, d);
      }
    }
  }

  /** The last declaration of a name wins. */
  function LastWins(ds: seq<Declaration>): (m: map<Name, Spec>) {
    if ds == [] then map[] else LastWins(ds[..|ds| - 1])[ds[|ds| - 1].name := ds[|ds| - 1].spec]
  }

  lemma {:induction false} LastWinsAppend(a: seq<Declaration>, b: seq<Declaration>)
    ensures LastWins(a + b) == LastWins(a) + LastWins(b)
  {
    if b == [] {
      assert a + b == a;
    } else {
      LastWinsAppend(a, b[..|b| - 1]);
      assert (a + b)[..|a + b| - 1] == a + b[..|b| - 1];
    }
  }

  lemma {:induction false} LastWinsNames(ds: seq<Declaration>, n: Name)
    ensures n in LastWins(ds) <==> exists i :: 0 <= i < |ds| && ds[i].name == n
  {
    if ds != [] { LastWinsNames(ds[..|ds| - 1], n); }
  }

  /** Some line of these files declares the name. */
  ghost predicate NamedIn(files: Files, paths: seq<Path>, n: Name) {
    exists p, s :: p in paths && LineOf(files, p, Declaration(n, s))
  }

  /** The names kept are exactly those declared in the files read. */
  lemma DeclaredNames(files: Files, path: Path, seen: set<Path>, n: Name)
    requires path !in seen && ReadFile(files, path, seen).Read?
    ensures var r := ReadFile(files, path, seen);
      n in LastWins(r.decls) <==> NamedIn(files, r.visited, n)
  {
    hide ReadFile, LastWins, LineOf;
    var r := ReadFile(files, path, seen);
    LastWinsNames(r.decls, n);
    if i :| 0 <= i < |r.decls| && r.decls[i].name == n {
      FileDeclares(files, path, seen, r.decls[i]);
      var p :| p in r.visited && LineOf(files, p, Declaration(n, r.decls[i].spec));
    }
    forall p, s | p in r.visited && LineOf(files, p, Declaration(n, s)) ensures n in LastWins(r.decls) {
      FileDeclares(files, path, seen, Declaration(n, s));
    }
  }

  /** The value kept for a name is that of its last declaration. */
  lemma {:induction false} LastWinsIsLast(ds: seq<Declaration>, i: nat)
    requires i < |ds| && forall k :: i < k < |ds| ==> ds[k].name != ds[i].name
    ensures ds[i].name in LastWins(ds) && LastWins(ds)[ds[i].name] == ds[i].spec
  {
    var n := |ds| - 1;
    if i < n { LastWinsIsLast(ds[..n], i); }
  }

  /** Lines are read in order: what comes later is read with the files seen so far, and its declarations win. */
  lemma {:induction false} LaterLinesWin(files: Files, a: seq<Line>, b: seq<Line>, seen: set<Path>)
    requires ReadLines(files, a, seen).Read? && ReadLines(files, b, ReadLines(files, a, seen).seen).Read?
    ensures var before := ReadLines(files, a, seen);
      var after := ReadLines(files, b, before.seen);
      var all := ReadLines(files, a + b, seen);
      && all.Read? && all.seen == after.seen && all.visited == before.visited + after.visited
      && LastWins(all.decls) == LastWins(before.decls) + LastWins(after.decls)
  {
    LinesConcat(files, a, b, seen);
    LastWinsAppend(ReadLines(files, a, seen).decls, ReadLines(files, b, ReadLines(files, a, seen).seen).decls);
  }

  lemma {:induction false} LinesConcat(files: Files, a: seq<Line>, b: seq<Line>, seen: set<Path>)
    requires ReadLines(files, a, seen).Read?
    ensures ReadLines(files, a + b, seen)
         == Then(ReadLines(files, a, seen), ReadLines(files, b, ReadLines(files, a, seen).seen))
    decreases |a|
  {
    if a == [] {
      assert a + b == b;
      var all := ReadLines(files, b, seen);
      assert all.Read? ==> [] + all.decls == all.decls && [] + all.visited == all.visited;
    } else {
      hide ReadFile;
      assert (a + b)[0] == a[0] && (a + b)[1..] == a[1..] + b;
      var step := ReadLine(files, a[0], seen);
      LinesUnfold(files, a, seen);
      LinesUnfold(files, a + b, seen);
      LinesConcat(files, a[1..], b, step.seen);
      ThenAssociates(step, ReadLines(files, a[1..], step.seen),
                     ReadLines(files, b, ReadLines(files, a[1..], step.seen).seen));
    }
  }

  lemma LinesUnfold(files: Files, lines: seq<Line>, seen: set<Path>)
    requires lines != []
    ensures var step := ReadLine(files, lines[0], seen);
      ReadLines(files, lines, seen)
      == if step.MissingFile? then MissingFile else Then(step, ReadLines(files, lines[1..], step.seen))
  {
    hide ReadFile;
    var rest := ReadLines(files, lines[1..], seen);
    assert rest.Read? ==> [] + rest.decls == rest.decls && [] + rest.visited == rest.visited;
  }

  // ---------------------------------------------------------------- the parser

  /** `all` is what has been read so far followed by the lines still to come. */
  ghost predicate Partial(files: Files, lines: seq<Line>, i: nat, done: Reading, all: Reading)
    requires i <= |lines|
  {
    done.Read? && all == Then(done, ReadLines(files, lines[i..], done.seen))
  }

  lemma ThenAssociates(a: Reading, b: Reading, c: Reading)
    requires a.Read? && b.Read?
    ensures Then(Then(a, b), c) == Then(a, Then(b, c))
  {
    if c.Read? {
      assert a.decls + b.decls + c.decls == a.decls + (b.decls + c.decls);
      assert a.visited + b.visited + c.visited == a.visited + (b.visited + c.visited);
    }
  }

  /** What a single line reads. */
  function ReadLine(files: Files, line: Line, seen: set<Path>): Reading {
    match line
    case Skipped => Read([], [], seen)
    case Requirement(name, spec) => Read([Declaration(name, spec)], [], seen)
    case Include(path) => if path in seen then Read([], [], seen) else ReadFile(files, path, seen)
  }

  /** One line further. */
  lemma PartialStep(files: Files, lines: seq<Line>, i: nat, done: Reading, all: Reading, step: Reading)
    requires i < |lines| && Partial(files, lines, i, done, all) && step.Read?
    requires step == ReadLine(files, lines[i], done.seen)
    ensures Partial(files, lines, i + 1, Then(done, step), all)
  {
    hide ReadFile;
    var rest := lines[i..];
    assert rest[1..] == lines[i + 1..];
    var tail := ReadLines(files, lines[i + 1..], step.seen);
    ThenAssociates(done, step, tail);
    assert tail.Read? ==> [] + tail.decls == tail.decls && [] + tail.visited == tail.visited;
  }

  lemma MissingStops(files: Files, lines: seq<Line>, i: nat, done: Reading, all: Reading)
    requires i < |lines| && Partial(files, lines, i, done, all)
    requires lines[i].Include? && lines[i].path !in done.seen && ReadFile(files, lines[i].path, done.seen).MissingFile?
    ensures all == MissingFile
  {
  }

  /** The set of seen files is shared by all the nested calls. */
  class Parser {
    const files: Files
    var seen: set<Path>

    constructor (files: Files)
      ensures this.files == files && seen == {}
    {
      this.files := files;
      seen := {};
    }

    /** `parse_requirements`. */
    method Parse(path: Path) returns (specs: Option<map<Name, Spec>>)
      requires path !in seen
      modifies this
      ensures match ReadFile(files, path, old(seen))
        case MissingFile => specs == None
        case Read(decls, visited, after) =>
          && specs == Some(LastWins(decls)) && seen == after
          && forall n :: n in specs.value <==> NamedIn(files, visited, n)
      decreases files.Keys - seen
    {
      hide LastWins, ReadLines, Then, NamedIn;
      seen := seen + {path};
      if path !in files {
        return None;
      }
      var lines := files[path];
      var found: map<Name, Spec> := map[];
      ghost var done, all := Read([], [], seen), ReadLines(files, lines, seen);
      assert Partial(files, lines, 0, done, all) && LastWins([]) == map[] by { PartialStart(files, lines, seen); }
      var i := 0;
      while i < |lines|
        invariant i <= |lines| && Partial(files, lines, i, done, all)
        invariant done.seen == seen && old(seen) + {path} <= seen
        invariant found == LastWins(done.decls)
      {
        ghost var step := Read([], [], seen);
        match lines[i] {
          case Skipped =>
          case Requirement(name, spec) =>
            step := Read([Declaration(name, spec)], [], seen);
            found := found[name := spec];
          case Include(inner) =>
            if inner !in seen {
              assert path in files.Keys - old(seen) && path !in files.Keys - seen;
              step := ReadFile(files, inner, seen);
              ghost var before := done;
              var sub := Parse(inner);
              if sub.None? {
                MissingStops(files, lines, i, done, all);
                return None;
              }
              found := found + sub.value;
            }
        }
        PartialStep(files, lines, i, done, all, step);
        LastWinsStep(done, step);
        done := Then(done, step);
        i := i + 1;
      }
      PartialEnd(files, lines, done, all);
      specs := Some(found);
      forall n ensures n in found <==> NamedIn(files, ReadFile(files, path, old(seen)).visited, n) {
        DeclaredNames(files, path, old(seen), n);
      }
    }
  }

  lemma PartialStart(files: Files, lines: seq<Line>, seen: set<Path>)
    ensures Partial(files, lines, 0, Read([], [], seen), ReadLines(files, lines, seen)) && LastWins([]) == map[]
  {
    hide ReadLines;
    assert lines[0..] == lines;
    var all := ReadLines(files, lines, seen);
    assert all.Read? ==> [] + all.decls == all.decls && [] + all.visited == all.visited;
  }

  lemma PartialEnd(files: Files, lines: seq<Line>, done: Reading, all: Reading)
    requires Partial(files, lines, |lines|, done, all)
    ensures all == done
  {
    assert done.decls + [] == done.decls && done.visited + [] == done.visited;
  }

  lemma LastWinsStep(done: Reading, step: Reading)
    requires done.Read? && step.Read?
    ensures Then(done, step).decls == done.decls + step.decls && Then(done, step).seen == step.seen
    ensures LastWins(done.decls + step.decls) == LastWins(done.decls) + LastWins(step.decls)
    ensures step.decls == [] ==> LastWins(step.decls) == map[]
    ensures |step.decls| == 1 ==> LastWins(step.decls) == map[step.decls[0].name := step.decls[0].spec]
  {
    LastWinsAppend(done.decls, step.decls);
  }
}

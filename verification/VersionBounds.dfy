/** The version-bound gate: padded comparison, specifier segments, and why probing two versions is enough. */
module VersionBounds {
  import opened Wrappers

  /** The numeric components found in a version, in order. */
  type Version = seq<nat>

  type Name = string

  datatype Op = Ge | Le | Gt | Lt | Eq | Ne | Compatible

  /** One comma-separated part of a specifier. `dotted` says that the reference is nothing but components. */
  datatype Segment = Unparsable | Segment(op: Op, ref: Version, dotted: bool)

  type Spec = seq<Segment>

  const COMPARED: nat := 8

  // ---------------------------------------------------------------- comparison

  function Max(a: nat, b: nat): nat { if a < b then b else a }

  function Zeros(n: nat): (z: Version)
    ensures |z| == n && forall k :: 0 <= k < n ==> z[k] == 0
  {
    seq(n, _ => 0)
  }

  function Pad(v: Version, n: nat): (r: Version)
    requires |v| <= n
    ensures |r| == n
  {
    v + Zeros(n - |v|)
  }

  function Prefix(v: Version, n: nat): (r: Version) { if |v| <= n then v else v[..n] }

  /** The components that are compared. */
  function Head(v: Version): (r: Version)
    ensures |r| <= COMPARED
  {
    if v == [] then [0] else Prefix(v, COMPARED)
  }

  function Lex(a: Version, b: Version): (c: int)
    requires |a| == |b|
  {
    if a == [] then 0 else if a[0] < b[0] then -1 else if a[0] > b[0] then 1 else Lex(a[1..], b[1..])
  }

  /** `_cmp`. */
  function Cmp(a: Version, b: Version): (c: int) {
    var n := Max(|Head(a)|, |Head(b)|);
    Lex(Pad(Head(a), n), Pad(Head(b), n))
  }

  /** The first eight components, padded. */
  function Key(v: Version): (k: Version)
    ensures |k| == COMPARED
  {
    Pad(Head(v), COMPARED)
  }

  lemma {:induction false} LexAppend(a: Version, b: Version, c: Version)
    requires |a| == |b|
    ensures Lex(a + c, b + c) == Lex(a, b)
  {
    if a == [] {
      assert a + c == c && b + c == c;
      LexRefl(c);
    } else {
      LexAppend(a[1..], b[1..], c);
      assert (a + c)[1..] == a[1..] + c && (b + c)[1..] == b[1..] + c;
    }
  }

  lemma {:induction false} LexRefl(a: Version)
    ensures Lex(a, a) == 0
  {
    if a != [] { LexRefl(a[1..]); }
  }

  /** Comparing is comparing keys. */
  lemma CmpByKey(a: Version, b: Version)
    ensures Cmp(a, b) == Lex(Key(a), Key(b))
  {
    hide Lex;
    var n := Max(|Head(a)|, |Head(b)|);
    LexAppend(Pad(Head(a), n), Pad(Head(b), n), Zeros(COMPARED - n));
    assert Key(a) == Pad(Head(a), n) + Zeros(COMPARED - n);
    assert Key(b) == Pad(Head(b), n) + Zeros(COMPARED - n);
  }

  lemma {:induction false} LexEqual(a: Version, b: Version)
    requires |a| == |b|
    ensures Lex(a, b) == 0 <==> a == b
  {
    if a != [] {
      LexEqual(a[1..], b[1..]);
      if a[0] == b[0] { assert a == [a[0]] + a[1..] && b == [b[0]] + b[1..]; }
    }
  }

  lemma {:induction false} LexFlip(a: Version, b: Version)
    requires |a| == |b|
    ensures Lex(a, b) == -Lex(b, a) && -1 <= Lex(a, b) <= 1
  {
    if a != [] { LexFlip(a[1..], b[1..]); }
  }

  lemma {:induction false} LexTrans(a: Version, b: Version, c: Version)
    requires |a| == |b| == |c| && Lex(a, b) <= 0 && Lex(b, c) <= 0
    ensures Lex(a, c) <= 0 && (Lex(a, c) == 0 ==> Lex(a, b) == 0 && Lex(b, c) == 0)
  {
    if a != [] && a[0] == b[0] == c[0] { LexTrans(a[1..], b[1..], c[1..]); }
  }

  /** The comparison is a total preorder. */
  lemma TotalPreorder(a: Version, b: Version, c: Version)
    ensures Cmp(a, a) == 0
    ensures Cmp(a, b) == -Cmp(b, a)
    ensures Cmp(a, b) <= 0 && Cmp(b, c) <= 0 ==> Cmp(a, c) <= 0
    ensures Cmp(a, b) < 0 && Cmp(b, c) <= 0 ==> Cmp(a, c) < 0
    ensures Cmp(a, b) <= 0 && Cmp(b, c) < 0 ==> Cmp(a, c) < 0
  {
    hide Cmp, Lex, Key;
    CmpByKey(a, a);
    CmpByKey(a, b);
    CmpByKey(b, a);
    CmpByKey(b, c);
    CmpByKey(a, c);
    LexRefl(Key(a));
    LexFlip(Key(a), Key(b));
    if Cmp(a, b) <= 0 && Cmp(b, c) <= 0 { LexTrans(Key(a), Key(b), Key(c)); }
  }

  /** Versions compare equal exactly when their first eight padded components agree. */
  lemma CmpZero(a: Version, b: Version)
    ensures Cmp(a, b) == 0 <==> Key(a) == Key(b)
  {
    CmpByKey(a, b);
    LexEqual(Key(a), Key(b));
  }

  // ---------------------------------------------------------------- segments

  /** Equality of all components, padded and not truncated. */
  predicate SamePadded(a: Version, b: Version) {
    var n := Max(|a|, |b|);
    Pad(a, n) == Pad(b, n)
  }

  /** `_segment_admits`: `None` for a segment that cannot be read. */
  function SegmentAdmits(seg: Segment, v: Version): (r: Option<bool>) {
    if seg.Unparsable? then None
    else match seg.op
      case Compatible =>
        if !seg.dotted || |seg.ref| < 2 then None
        else if Cmp(v, seg.ref) < 0 then Some(false)
        else
          var n := |seg.ref| - 1;
          Some(Pad(Prefix(v, n), n) == seg.ref[..n])
      case Ge => Some(Cmp(v, seg.ref) >= 0)
      case Lt => Some(Cmp(v, seg.ref) < 0)
      case Le => Some(Cmp(v, seg.ref) <= 0)
      case Gt => Some(Cmp(v, seg.ref) > 0)
      case Eq => Some(SamePadded(v, seg.ref))
      case Ne => Some(!SamePadded(v, seg.ref))
  }

  /** `admits`: a loop over the segments that stops at the first one that refuses or cannot be read. */
  method AdmitsLoop(spec: Spec, v: Version) returns (r: bool)
    ensures r == Admits(spec, v)
  {
    hide SegmentAdmits;
    var i := 0;
    while i < |spec|
      invariant i <= |spec|
      invariant forall k :: 0 <= k < i ==> SegmentAdmits(spec[k], v) == Some(true)
    {
      var a := SegmentAdmits(spec[i], v);
      if a == None || a == Some(false) {
        return false;
      }
      assert a.Some? && a.value == true;
      assert SegmentAdmits(spec[i], v) == Some(true);
      i := i + 1;
    }
    r := true;
  }

  /** Every segment is read and admits the version. */
  predicate Admits(spec: Spec, v: Version) { forall k :: 0 <= k < |spec| ==> SegmentAdmits(spec[k], v) == Some(true) }

  /** One segment that cannot be read refuses every version. */
  lemma UnreadableRefuses(spec: Spec, k: nat, v: Version)
    requires k < |spec|
    requires spec[k].Unparsable? || (spec[k].op == Compatible && (!spec[k].dotted || |spec[k].ref| < 2))
    ensures !Admits(spec, v)
  {
    assert SegmentAdmits(spec[k], v) == None;
  }

  /** The operators cut the order at the reference: below it, at it or above it, each version falls under exactly
      one of `<`, the pair `>=` and `<=`, and `>`. Every reference admits itself under `>=`, `<=` and `==`, and
      for short versions `==` is the meeting of `>=` and `<=`. */
  lemma OperatorsCutTheOrder(ref: Version, v: Version)
    ensures var admits := (op: Op, x: Version) => SegmentAdmits(Segment(op, ref, true), x) == Some(true);
      && admits(Ge, ref) && admits(Le, ref) && admits(Eq, ref)
      && !admits(Lt, ref) && !admits(Gt, ref) && !admits(Ne, ref)
      && (admits(Ge, v) <==> !admits(Lt, v)) && (admits(Le, v) <==> !admits(Gt, v))
      && (admits(Ne, v) <==> !admits(Eq, v))
      && !(admits(Lt, v) && admits(Gt, v))
      && (admits(Ge, v) && admits(Le, v) <==> Key(v) == Key(ref))
      && (admits(Eq, v) ==> Key(v) == Key(ref))
      && (Key(v) == Key(ref) && |v| <= COMPARED && |ref| <= COMPARED ==> admits(Eq, v))
  {
    hide Key, Cmp, Pad;
    TotalPreorder(ref, ref, ref);
    CmpZero(v, ref);
    if SamePadded(v, ref) { SamePaddedSameKey(v, ref); }
    if Key(v) == Key(ref) && |v| <= COMPARED && |ref| <= COMPARED { SameKeySamePadded(v, ref); }
  }

  /** Raising any compared component gives a larger version, whatever comes behind it. */
  lemma RaisingMovesUp(v: Version, w: Version, k: nat)
    requires k < |v| == |w| <= 8 && v[..k] == w[..k] && v[k] < w[k]
    ensures Cmp(v, w) < 0
  {
    hide Cmp;
    CmpPadded(v, w, |v|);
    assert Pad(v, |v|) == v && Pad(w, |v|) == w;
    LexSplit(v, w, k);
    LexRefl(v[..k]);
    assert v[k..][0] < w[k..][0];
  }

  // ---------------------------------------------------------------- compatible release

  /** The reference with its last component dropped and the next one incremented. */
  function Bump(ref: Version): (r: Version)
    requires |ref| >= 2
    ensures |r| == |ref| - 1
  {
    ref[..|ref| - 2] + [ref[|ref| - 2] + 1]
  }

  lemma {:induction false} LexSplit(a: Version, b: Version, n: nat)
    requires |a| == |b| && n <= |a|
    ensures Lex(a, b) == if Lex(a[..n], b[..n]) != 0 then Lex(a[..n], b[..n]) else Lex(a[n..], b[n..])
  {
    if n == 0 {
      assert a[0..] == a && b[0..] == b;
    } else {
      LexSplit(a[1..], b[1..], n - 1);
      assert a[..n][1..] == a[1..][..n - 1] && b[..n][1..] == b[1..][..n - 1];
      assert a[n..] == a[1..][n - 1..] && b[n..] == b[1..][n - 1..];
    }
  }

  lemma {:induction false} NothingBelowZeros(a: Version)
    ensures Lex(a, Zeros(|a|)) >= 0
  {
    if a != [] {
      NothingBelowZeros(a[1..]);
      assert Zeros(|a|)[1..] == Zeros(|a| - 1);
    }
  }

  /** Nothing of the same length lies strictly between `b` and `b` with its last component incremented. */
  lemma {:induction false} Gap(a: Version, b: Version)
    requires |a| == |b| > 0
    ensures Lex(a, b) >= 0 && Lex(a, b[..|b| - 1] + [b[|b| - 1] + 1]) < 0 <==> a == b
  {
    var up := b[..|b| - 1] + [b[|b| - 1] + 1];
    if |a| > 1 {
      Gap(a[1..], b[1..]);
      assert up[1..] == b[1..][..|b| - 2] + [b[|b| - 1] + 1];
      assert a == [a[0]] + a[1..] && b == [b[0]] + b[1..];
    } else {
      assert up[1..] == [] == a[1..] == b[1..];
    }
  }

  lemma KeyPrefix(v: Version, n: nat)
    requires n <= COMPARED
    ensures Key(v)[..n] == Pad(Prefix(v, n), n)
  {
  }

  lemma KeyOfShort(v: Version)
    requires 0 < |v| <= COMPARED
    ensures Key(v)[..|v|] == v && Key(v)[|v|..] == Zeros(COMPARED - |v|)
  {
  }

  lemma KeyOfReference(ref: Version)
    requires 2 <= |ref| <= COMPARED + 1
    ensures Key(ref)[..|ref| - 1] == ref[..|ref| - 1]
  {
  }

  /** Up to nine components, `~=` admits exactly the versions from the reference up to, but not including, the
      bumped one. */
  lemma CompatibleIsInterval(ref: Version, v: Version)
    requires 2 <= |ref| <= 9
    ensures SegmentAdmits(Segment(Compatible, ref, true), v) == Some(Cmp(v, ref) >= 0 && Cmp(v, Bump(ref)) < 0)
  {
    hide Cmp, Lex, Key, Pad;
    var n := |ref| - 1;
    var up := Bump(ref);
    CmpByKey(v, ref);
    CmpByKey(v, up);
    KeyPrefix(v, n);
    KeyOfShort(up);
    KeyOfReference(ref);
    LexSplit(Key(v), Key(ref), n);
    LexSplit(Key(v), Key(up), n);
    NothingBelowZeros(Key(v)[n..]);
    LexFlip(Key(v)[..n], up);
    assert ref[..n][..n - 1] + [ref[..n][n - 1] + 1] == up;
    Gap(Key(v)[..n], ref[..n]);
  }

  /** With ten or more components it is not: the interval collapses, and the reference itself is admitted. */
  lemma CompatibleBeyondNine(ref: Version)
    requires |ref| > 9
    ensures SegmentAdmits(Segment(Compatible, ref, true), ref) == Some(true)
    ensures forall v :: !(Cmp(v, ref) >= 0 && Cmp(v, Bump(ref)) < 0)
  {
    TotalPreorder(ref, ref, ref);
    assert Pad(Prefix(ref, |ref| - 1), |ref| - 1) == ref[..|ref| - 1];
    assert Head(Bump(ref)) == Head(ref);
    forall v ensures Cmp(v, ref) == Cmp(v, Bump(ref)) {}
  }

  // ---------------------------------------------------------------- convexity

  predicate WithoutNe(spec: Spec) { forall k :: 0 <= k < |spec| ==> spec[k].Unparsable? || spec[k].op != Ne }

  lemma SamePaddedSameKey(a: Version, b: Version)
    requires SamePadded(a, b)
    ensures Key(a) == Key(b)
  {
    var n := Max(|a|, |b|);
    forall k: nat | k < COMPARED ensures Key(a)[k] == Key(b)[k] {
      KeyAt(a, k);
      KeyAt(b, k);
      if k < n { assert Pad(a, n)[k] == Pad(b, n)[k]; }
    }
  }

  lemma KeyAt(v: Version, k: nat)
    requires k < COMPARED
    ensures Key(v)[k] == if k < |v| then v[k] else 0
  {
  }

  lemma SameKeySamePadded(a: Version, b: Version)
    requires Key(a) == Key(b) && |a| <= COMPARED && |b| <= COMPARED
    ensures SamePadded(a, b)
  {
    var n := Max(|a|, |b|);
    forall k: nat | k < n ensures Pad(a, n)[k] == Pad(b, n)[k] {
      KeyAt(a, k);
      KeyAt(b, k);
    }
  }

  /** Beyond nine components, two versions admitted by one `~=` segment have the same key. */
  lemma LongCompatibleSameKey(ref: Version, v: Version)
    requires |ref| > COMPARED + 1 && SegmentAdmits(Segment(Compatible, ref, true), v) == Some(true)
    ensures Key(v) == Key(ref)
  {
    var n := |ref| - 1;
    forall k: nat | k < COMPARED ensures Key(v)[k] == Key(ref)[k] {
      KeyAt(v, k);
      KeyAt(ref, k);
      assert Pad(Prefix(v, n), n)[k] == ref[..n][k];
    }
  }

  /** A segment other than `!=` that admits two versions, the first strictly below `b` and the second not below
      `b`, admits `b`. */
  lemma SegmentStrictlyConvex(seg: Segment, a: Version, b: Version, c: Version)
    requires seg.Segment? && seg.op != Ne
    requires SegmentAdmits(seg, a) == Some(true) && SegmentAdmits(seg, c) == Some(true)
    requires Cmp(a, b) < 0 && Cmp(b, c) <= 0
    ensures SegmentAdmits(seg, b) == Some(true)
  {
    hide Cmp, Key, SamePadded, Pad;
    TotalPreorder(a, b, c);
    CmpZero(a, c);
    if seg.op == Compatible {
      assert seg == Segment(Compatible, seg.ref, true);
      if |seg.ref| <= COMPARED + 1 {
        CompatibleIsInterval(seg.ref, a);
        CompatibleIsInterval(seg.ref, b);
        CompatibleIsInterval(seg.ref, c);
        TotalPreorder(b, c, Bump(seg.ref));
        TotalPreorder(seg.ref, a, b);
        TotalPreorder(b, seg.ref, a);
      } else {
        LongCompatibleSameKey(seg.ref, a);
        LongCompatibleSameKey(seg.ref, c);
      }
    } else if seg.op == Eq {
      SamePaddedSameKey(a, seg.ref);
      SamePaddedSameKey(c, seg.ref);
    } else {
      TotalPreorder(seg.ref, a, b);
      TotalPreorder(a, seg.ref, a);
      TotalPreorder(b, seg.ref, b);
      TotalPreorder(b, c, seg.ref);
    }
  }

  /** The versions a specifier without `!=` admits have no gap above their least one. No length is bounded. */
  lemma StrictlyConvex(spec: Spec, a: Version, b: Version, c: Version)
    requires WithoutNe(spec) && Admits(spec, a) && Admits(spec, c)
    requires Cmp(a, b) < 0 && Cmp(b, c) <= 0
    ensures Admits(spec, b)
  {
    hide Cmp, SegmentAdmits;
    forall k | 0 <= k < |spec| ensures SegmentAdmits(spec[k], b) == Some(true) {
      assert !spec[k].Unparsable? by { ReadableAdmits(spec[k], a); }
      SegmentStrictlyConvex(spec[k], a, b, c);
    }
  }

  lemma ReadableAdmits(seg: Segment, v: Version)
    requires SegmentAdmits(seg, v) == Some(true)
    ensures !seg.Unparsable?
  {
  }

  predicate Takes(seg: Segment, v: Version) { SegmentAdmits(seg, v) == Some(true) }

  /** What a segment takes has no gaps at all, between versions that compare equal either. */
  ghost predicate ConvexSegment(seg: Segment) {
    forall a, b, c :: Takes(seg, a) && Takes(seg, c) && Cmp(a, b) <= 0 && Cmp(b, c) <= 0 ==> Takes(seg, b)
  }

  predicate Readable(seg: Segment) { seg.Segment? && (seg.op == Compatible ==> seg.dotted && |seg.ref| >= 2) }

  /** An order operator, or a compatible release of at most nine components. */
  predicate OrderedOnly(seg: Segment)
    requires seg.Segment?
  {
    seg.op in {Ge, Le, Gt, Lt} || (seg.op == Compatible && |seg.ref| <= COMPARED + 1)
  }

  lemma OrderedTakes(seg: Segment, a: Version, b: Version, c: Version)
    requires Readable(seg) && OrderedOnly(seg)
    requires Takes(seg, a) && Takes(seg, c) && Cmp(a, b) <= 0 && Cmp(b, c) <= 0
    ensures Takes(seg, b)
  {
    hide Cmp, Key, SamePadded, Pad;
    if seg.op == Compatible {
      assert seg == Segment(Compatible, seg.ref, true);
      CompatibleIsInterval(seg.ref, a);
      CompatibleIsInterval(seg.ref, b);
      CompatibleIsInterval(seg.ref, c);
      TotalPreorder(b, c, Bump(seg.ref));
      TotalPreorder(seg.ref, a, b);
      TotalPreorder(b, seg.ref, a);
      TotalPreorder(a, seg.ref, b);
    } else {
      TotalPreorder(seg.ref, a, b);
      TotalPreorder(a, seg.ref, a);
      TotalPreorder(b, seg.ref, b);
      TotalPreorder(b, c, seg.ref);
    }
  }

  lemma CmpSelf(v: Version)
    ensures Cmp(v, v) == 0
  {
    TotalPreorder(v, v, v);
  }

  lemma SameKeyCompares(a: Version, b: Version)
    requires Key(a) == Key(b)
    ensures Cmp(a, b) == 0 && Cmp(b, a) == 0
  {
    CmpZero(a, b);
    CmpZero(b, a);
  }

  /** Behind the compared components `==` still tells versions apart. */
  function Beyond(ref: Version): (b: Version) { Pad(ref, Max(|ref|, COMPARED)) + [1] }

  lemma BeyondDiffers(ref: Version)
    ensures Key(Beyond(ref)) == Key(ref) && !SamePadded(Beyond(ref), ref)
  {
    var b, m := Beyond(ref), Max(|ref|, COMPARED);
    forall k: nat | k < COMPARED ensures Key(b)[k] == Key(ref)[k] {
      KeyAt(b, k);
      KeyAt(ref, k);
      assert b[k] == Pad(ref, m)[k];
    }
    assert Pad(b, m + 1)[m] == 1 && Pad(ref, m + 1)[m] == 0;
  }

  lemma EqualityIsNotConvex(ref: Version, dotted: bool)
    ensures !ConvexSegment(Segment(Eq, ref, dotted))
  {
    hide Cmp, Key, Pad, SamePadded, Beyond;
    var seg, b := Segment(Eq, ref, dotted), Beyond(ref);
    BeyondDiffers(ref);
    SameKeyCompares(b, ref);
    assert SamePadded(ref, ref) by { SelfPadded(ref); }
    assert Takes(seg, ref) && !Takes(seg, b);
  }

  lemma SelfPadded(ref: Version)
    ensures SamePadded(ref, ref)
  {
  }

  lemma LongReleaseIsNotConvex(ref: Version)
    requires |ref| > COMPARED + 1
    ensures !ConvexSegment(Segment(Compatible, ref, true))
  {
    var seg := Segment(Compatible, ref, true);
    var b := ref[COMPARED := ref[COMPARED] + 1];
    var n := |ref| - 1;
    CompatibleBeyondNine(ref);
    assert Head(b) == Head(ref);
    CmpSelf(ref);
    SameKeyCompares(b, ref);
    assert Pad(Prefix(b, n), n)[COMPARED] != ref[..n][COMPARED];
    assert Takes(seg, ref) && !Takes(seg, b);
  }

  /** A readable segment other than `!=` is convex exactly if it is an order operator or a compatible release of at
      most nine components: `==` never is, for any reference. */
  lemma ConvexSegmentIff(seg: Segment)
    requires Readable(seg) && seg.op != Ne
    ensures ConvexSegment(seg) <==> OrderedOnly(seg)
  {
    hide Cmp, SegmentAdmits, Takes;
    if OrderedOnly(seg) {
      forall a, b, c | Takes(seg, a) && Takes(seg, c) && Cmp(a, b) <= 0 && Cmp(b, c) <= 0 ensures Takes(seg, b) {
        OrderedTakes(seg, a, b, c);
      }
    } else if seg.op == Eq {
      EqualityIsNotConvex(seg.ref, seg.dotted);
    } else {
      assert seg == Segment(Compatible, seg.ref, true);
      LongReleaseIsNotConvex(seg.ref);
    }
  }

  /** Under `==` the gap closes again for references and versions of at most eight components. */
  lemma EqualityTakes(seg: Segment, a: Version, b: Version, c: Version)
    requires seg.Segment? && seg.op == Eq && |seg.ref| <= COMPARED && |b| <= COMPARED
    requires Takes(seg, a) && Takes(seg, c) && Cmp(a, b) <= 0 && Cmp(b, c) <= 0
    ensures Takes(seg, b)
  {
    hide Cmp, Key, Pad, SamePadded;
    SamePaddedSameKey(a, seg.ref);
    SamePaddedSameKey(c, seg.ref);
    SameKeyCompares(a, c);
    TotalPreorder(b, c, a);
    TotalPreorder(a, b, c);
    CmpZero(a, b);
    SameKeySamePadded(b, seg.ref);
  }

  /** The lengths that matter: a compatible release has at most nine components, and `==` meets references and
      versions of at most eight. */
  predicate ShortFor(seg: Segment, b: Version) {
    seg.Segment? ==>
      && (seg.op == Compatible ==> |seg.ref| <= COMPARED + 1)
      && (seg.op == Eq ==> |seg.ref| <= COMPARED && |b| <= COMPARED)
  }

  lemma SegmentConvex(seg: Segment, a: Version, b: Version, c: Version)
    requires seg.Segment? && seg.op != Ne && ShortFor(seg, b)
    requires Takes(seg, a) && Takes(seg, c) && Cmp(a, b) <= 0 && Cmp(b, c) <= 0
    ensures Takes(seg, b)
  {
    hide Cmp;
    if seg.op == Eq { EqualityTakes(seg, a, b, c); } else { OrderedTakes(seg, a, b, c); }
  }

  /** Specifiers of such segments are convex. */
  lemma Convex(spec: Spec, a: Version, b: Version, c: Version)
    requires WithoutNe(spec) && Admits(spec, a) && Admits(spec, c)
    requires Cmp(a, b) <= 0 && Cmp(b, c) <= 0
    requires forall k :: 0 <= k < |spec| ==> ShortFor(spec[k], b)
    ensures Admits(spec, b)
  {
    hide Cmp, SegmentAdmits;
    forall k | 0 <= k < |spec| ensures SegmentAdmits(spec[k], b) == Some(true) {
      assert !spec[k].Unparsable? by { ReadableAdmits(spec[k], a); }
      SegmentConvex(spec[k], a, b, c);
    }
  }

  /** For instance, with a ninth component `==` tells apart versions that compare equal. */
  lemma NinthComponentBreaksConvexity()
    ensures var a := [1, 0, 0, 0, 0, 0, 0, 0, 1];
      var b := [1, 0, 0, 0, 0, 0, 0, 0, 2];
      var spec := [Segment(Eq, a, true)];
      WithoutNe(spec) && Admits(spec, a) && Cmp(a, b) == 0 && !Admits(spec, b)
  {
    var a := [1, 0, 0, 0, 0, 0, 0, 0, 1];
    var b := [1, 0, 0, 0, 0, 0, 0, 0, 2];
    var spec := [Segment(Eq, a, true)];
    assert Head(a) == Head(b);
    TotalPreorder(a, a, a);
    assert Pad(a, 9)[8] != Pad(b, 9)[8];
    assert SegmentAdmits(spec[0], b) == Some(false);
  }

  // ---------------------------------------------------------------- the gate

  /** First unsafe version and the version the breakage was seen with. */
  const UNSAFE: map<Name, (Version, Version)> := map[
    "pandas" := ([3, 0, 0], [3, 0, 6]),
    "sqlalchemy" := ([2, 1, 0], [2, 1, 1])]
  const REQUIRED: set<Name> := {"geopandas"}
  const GREENLET: Name := "greenlet"

  datatype Source = Requirements | PyProject

  datatype Error =
    | AdmitsUnsafe(source: Source, name: Name)
    | NotDeclared(name: Name)
    | NoGreenlet
    | Drift(name: Name)
    | Phantom(name: Name)

  datatype Inputs = Inputs(specs: map<Name, Spec>, pyproject: map<Name, Spec>, pins: map<Name, Version>) {
    function Of(source: Source): map<Name, Spec> { if source.Requirements? then specs else pyproject }
  }

  /** What the gate reports. */
  predicate Reported(i: Inputs, e: Error) {
    match e
    case AdmitsUnsafe(source, name) =>
      name in UNSAFE && name in i.Of(source)
      && (Admits(i.Of(source)[name], UNSAFE[name].0) || Admits(i.Of(source)[name], UNSAFE[name].1))
    case NotDeclared(name) => name in REQUIRED && name !in i.specs
    case NoGreenlet => GREENLET !in i.specs && GREENLET !in i.pins
    case Drift(name) => name in i.pins && name in i.specs && !Admits(i.specs[name], i.pins[name])
    case Phantom(name) => name in i.pyproject && name !in i.specs
  }

  /** The probe loop over one source. */
  method Probe(i: Inputs, source: Source) returns (errors: seq<Error>)
    ensures forall e :: e in errors <==> e.AdmitsUnsafe? && e.source == source && Reported(i, e)
  {
    hide Admits, UNSAFE;
    errors := [];
    var rest := UNSAFE.Keys;
    while rest != {}
      invariant rest <= UNSAFE.Keys
      invariant forall e :: e in errors <==>
        e.AdmitsUnsafe? && e.source == source && e.name in UNSAFE.Keys - rest && Reported(i, e)
      decreases |rest|
    {
      var name :| name in rest;
      if name in i.Of(source) {
        var first := AdmitsLoop(i.Of(source)[name], UNSAFE[name].0);
        var breaker := AdmitsLoop(i.Of(source)[name], UNSAFE[name].1);
        if first || breaker {
          errors := errors + [AdmitsUnsafe(source, name)];
        }
      }
      rest := rest - {name};
    }
  }

  /** The pins checked against the specifiers they were compiled from. */
  method CheckDrift(i: Inputs) returns (errors: seq<Error>)
    ensures forall e :: e in errors <==> e.Drift? && Reported(i, e)
  {
    hide Admits, UNSAFE;
    errors := [];
    var rest := i.pins.Keys;
    while rest != {}
      invariant rest <= i.pins.Keys
      invariant forall e :: e in errors <==> e.Drift? && e.name in i.pins.Keys - rest && Reported(i, e)
      decreases |rest|
    {
      var name :| name in rest;
      if name in i.specs {
        var ok := AdmitsLoop(i.specs[name], i.pins[name]);
        if !ok {
          errors := errors + [Drift(name)];
        }
      }
      rest := rest - {name};
    }
  }

  method CheckRequired(i: Inputs) returns (errors: seq<Error>)
    ensures forall e :: e in errors <==> (e.NotDeclared? || e.NoGreenlet?) && Reported(i, e)
  {
    hide Admits, UNSAFE, REQUIRED;
    errors := [];
    var rest := REQUIRED;
    while rest != {}
      invariant rest <= REQUIRED
      invariant forall e :: e in errors <==> e.NotDeclared? && e.name in REQUIRED - rest && e.name !in i.specs
      decreases |rest|
    {
      var name :| name in rest;
      if name !in i.specs {
        errors := errors + [NotDeclared(name)];
      }
      rest := rest - {name};
    }
    if GREENLET !in i.specs && GREENLET !in i.pins {
      errors := errors + [NoGreenlet];
    }
  }

  /** Declared for the package metadata only. */
  method CheckPhantoms(i: Inputs) returns (errors: seq<Error>)
    ensures forall e :: e in errors <==> e.Phantom? && Reported(i, e)
  {
    hide Admits, UNSAFE;
    errors := [];
    var names := i.pyproject.Keys - i.specs.Keys;
    var rest := names;
    while rest != {}
      invariant rest <= names
      invariant forall e :: e in errors <==> e.Phantom? && e.name in names - rest
      decreases |rest|
    {
      var name :| name in rest;
      errors := errors + [Phantom(name)];
      rest := rest - {name};
    }
  }

  /** `check`: exactly the reported errors. */
  method Check(i: Inputs) returns (errors: seq<Error>)
    ensures forall e :: e in errors <==> Reported(i, e)
  {
    hide Reported;
    var fromRequirements := Probe(i, Requirements);
    var fromPyProject := Probe(i, PyProject);
    var required := CheckRequired(i);
    var drift := CheckDrift(i);
    var phantoms := CheckPhantoms(i);
    errors := fromRequirements + fromPyProject + required + drift + phantoms;
  }

  /** The requirement, if there is one, refuses the version. */
  predicate Refuses(specs: map<Name, Spec>, name: Name, v: Version) { name in specs ==> !Admits(specs[name], v) }

  predicate RefusesUnsafe(specs: map<Name, Spec>) {
    && Refuses(specs, "pandas", [3, 0, 0]) && Refuses(specs, "pandas", [3, 0, 6])
    && Refuses(specs, "sqlalchemy", [2, 1, 0]) && Refuses(specs, "sqlalchemy", [2, 1, 1])
  }

  /** When the gate is silent: geopandas is declared, greenlet declared or pinned, nothing is declared for the package
      metadata only, every pin meets its requirement, and both sources refuse the first unsafe and the breaking versions
      of pandas and SQLAlchemy. */
  lemma SilentIff(i: Inputs)
    ensures (forall e :: !Reported(i, e)) <==>
      && "geopandas" in i.specs && ("greenlet" in i.specs || "greenlet" in i.pins)
      && (forall n :: n in i.pyproject ==> n in i.specs)
      && (forall n :: n in i.pins && n in i.specs ==> Admits(i.specs[n], i.pins[n]))
      && RefusesUnsafe(i.specs) && RefusesUnsafe(i.pyproject)
  {
    hide Admits;
    assert i.Of(Requirements) == i.specs && i.Of(PyProject) == i.pyproject;
    if forall e :: !Reported(i, e) {
      assert !Reported(i, NotDeclared("geopandas")) && !Reported(i, NoGreenlet);
      forall n | n in i.pyproject ensures n in i.specs { assert !Reported(i, Phantom(n)); }
      forall n | n in i.pins && n in i.specs ensures Admits(i.specs[n], i.pins[n]) { assert !Reported(i, Drift(n)); }
      assert !Reported(i, AdmitsUnsafe(Requirements, "pandas"));
      assert !Reported(i, AdmitsUnsafe(Requirements, "sqlalchemy"));
      assert !Reported(i, AdmitsUnsafe(PyProject, "pandas"));
      assert !Reported(i, AdmitsUnsafe(PyProject, "sqlalchemy"));
    }
    forall e | Reported(i, e) && e.AdmitsUnsafe? ensures !RefusesUnsafe(i.Of(e.source)) {
      assert e.name in {"pandas", "sqlalchemy"};
    }
  }

  // ---------------------------------------------------------------- what the probes prove

  lemma CmpPadded(a: Version, b: Version, n: nat)
    requires 0 < |a| <= n && 0 < |b| <= n && n <= COMPARED
    ensures Cmp(a, b) == Lex(Pad(a, n), Pad(b, n))
  {
    hide Lex, Cmp;
    CmpByKey(a, b);
    LexAppend(Pad(a, n), Pad(b, n), Zeros(COMPARED - n));
    assert Key(a) == Pad(a, n) + Zeros(COMPARED - n);
    assert Key(b) == Pad(b, n) + Zeros(COMPARED - n);
  }

  lemma BreakersAreUnsafe(name: Name)
    requires name in UNSAFE
    ensures Cmp(UNSAFE[name].0, UNSAFE[name].1) <= 0
  {
    hide Cmp;
    var a, b := UNSAFE[name].0, UNSAFE[name].1;
    CmpPadded(a, b, 3);
    assert Pad(a, 3) == a && Pad(b, 3) == b;
    LexSplit(a, b, 2);
    LexRefl(a[..2]);
    assert a[..2] == b[..2];
  }

  /** For a specifier without `!=` that admits some version below the first unsafe one, the first probe alone
      decides whether it admits any unsafe version. */
  lemma FirstProbeDecides(spec: Spec, safe: Version, first: Version)
    requires WithoutNe(spec) && Admits(spec, safe) && Cmp(safe, first) < 0
    ensures Admits(spec, first) <==> exists v :: Cmp(first, v) <= 0 && Admits(spec, v)
  {
    hide Cmp, Admits, WithoutNe;
    TotalPreorder(first, first, first);
    if Admits(spec, first) { assert Cmp(first, first) <= 0; }
    forall v | Cmp(first, v) <= 0 && Admits(spec, v) ensures Admits(spec, first) {
      StrictlyConvex(spec, safe, first, v);
    }
  }

  /** Then the second probe adds nothing. */
  lemma SecondProbeAddsNothing(name: Name, spec: Spec, safe: Version)
    requires name in UNSAFE && WithoutNe(spec) && Admits(spec, safe) && Cmp(safe, UNSAFE[name].0) < 0
    ensures Admits(spec, UNSAFE[name].1) ==> Admits(spec, UNSAFE[name].0)
  {
    hide Cmp, Admits, WithoutNe, UNSAFE;
    BreakersAreUnsafe(name);
    if Admits(spec, UNSAFE[name].1) { StrictlyConvex(spec, safe, UNSAFE[name].0, UNSAFE[name].1); }
  }

  /** If the gate reports nothing and a listed package is pinned below its first unsafe version, its requirement
      admits no version from the first unsafe one on. */
  lemma TwoProbesAreEnough(i: Inputs, name: Name, v: Version)
    requires forall e :: !Reported(i, e)
    requires name in UNSAFE && name in i.specs && name in i.pins && WithoutNe(i.specs[name])
    requires Cmp(i.pins[name], UNSAFE[name].0) < 0 && Cmp(UNSAFE[name].0, v) <= 0
    ensures !Admits(i.specs[name], v)
  {
    hide Cmp, Admits, WithoutNe, UNSAFE;
    assert !Reported(i, Drift(name)) && !Reported(i, AdmitsUnsafe(Requirements, name));
    if Admits(i.specs[name], v) {
      StrictlyConvex(i.specs[name], i.pins[name], UNSAFE[name].0, v);
      assert false;
    }
  }

  // ---------------------------------------------------------------- when the probes miss

  /** The segment admits nothing below its reference, which is at or above the line. */
  predicate FloorsAt(seg: Segment, first: Version) {
    seg.Segment? && seg.op in {Ge, Gt, Eq, Compatible} && Cmp(seg.ref, first) >= 0
  }

  /** There are versions below the line, but none just below it. */
  predicate OpenLine(first: Version) { Key(first)[COMPARED - 1] == 0 && Key(first) != Zeros(COMPARED) }

  lemma FloorExcludes(seg: Segment, first: Version, v: Version)
    requires FloorsAt(seg, first) && Takes(seg, v)
    ensures Cmp(v, first) >= 0
  {
    hide Cmp, Key, Pad, SamePadded;
    if seg.op == Eq {
      SamePaddedSameKey(v, seg.ref);
      CmpZero(v, seg.ref);
    }
    TotalPreorder(v, seg.ref, first);
    TotalPreorder(first, seg.ref, v);
    TotalPreorder(v, first, v);
  }

  lemma KeyOfCompared(v: Version)
    requires |v| == COMPARED
    ensures Key(v) == v
  {
  }

  /** Between a version and a larger open line there is another one. */
  lemma Between(ref: Version, first: Version) returns (v: Version)
    requires OpenLine(first) && Cmp(ref, first) < 0
    ensures Cmp(ref, v) < 0 && Cmp(v, first) < 0
  {
    hide Cmp, Key;
    var n := COMPARED - 1;
    var k, f := Key(ref), Key(first);
    v := k[n := k[n] + 1];
    KeyOfCompared(v);
    CmpByKey(ref, v);
    CmpByKey(v, first);
    CmpByKey(ref, first);
    LexSplit(k, v, n);
    LexSplit(v, f, n);
    LexSplit(k, f, n);
    assert v[..n] == k[..n];
    LexRefl(k[..n]);
    assert k[n..][0] < v[n..][0];
    assert f[n..][0] == 0;
  }

  lemma NothingBelowZero(v: Version)
    ensures Cmp([0], v) <= 0
  {
    CmpByKey([0], v);
    assert Key([0]) == Zeros(COMPARED);
    NothingBelowZeros(Key(v));
    LexFlip(Key(v), Zeros(COMPARED));
  }

  lemma ZeroBelowOpenLine(first: Version)
    requires OpenLine(first)
    ensures Cmp([0], first) < 0
  {
    NothingBelowZero(first);
    CmpZero([0], first);
    assert Key([0]) == Zeros(COMPARED);
  }

  lemma CompatibleTakesReference(ref: Version)
    requires |ref| >= 2
    ensures Takes(Segment(Compatible, ref, true), ref)
  {
    CmpSelf(ref);
    assert Pad(Prefix(ref, |ref| - 1), |ref| - 1) == ref[..|ref| - 1];
  }

  /** A segment that takes something and is no floor takes something below an open line. */
  lemma NoFloorTakesBelow(seg: Segment, first: Version, x: Version) returns (v: Version)
    requires OpenLine(first) && seg.Segment? && seg.op != Ne && Takes(seg, x) && !FloorsAt(seg, first)
    ensures Takes(seg, v) && Cmp(v, first) < 0
  {
    hide Cmp, Pad, Key, SamePadded;
    v := seg.ref;
    if seg.op == Compatible {
      assert seg == Segment(Compatible, seg.ref, true);
      CompatibleTakesReference(seg.ref);
    } else if seg.op == Gt {
      v := Between(seg.ref, first);
      TotalPreorder(seg.ref, v, v);
    } else if seg.op in {Le, Lt} {
      v := [0];
      ZeroBelowOpenLine(first);
      NothingBelowZero(x);
      TotalPreorder([0], x, seg.ref);
    } else {
      CmpSelf(seg.ref);
      SelfPadded(seg.ref);
    }
  }

  // ---------------------------------------------------------------- satisfiability

  /** The component at `k`; there are zeros behind the last one. */
  function At(v: Version, k: nat): nat { if k < |v| then v[k] else 0 }

  lemma SamePaddedIsAt(a: Version, b: Version)
    ensures SamePadded(a, b) <==> forall k: nat :: At(a, k) == At(b, k)
  {
    var n := Max(|a|, |b|);
    forall k: nat | k < n ensures Pad(a, n)[k] == At(a, k) && Pad(b, n)[k] == At(b, k) {}
    if forall k: nat :: At(a, k) == At(b, k) {
      assert forall k: nat :: k < n ==> At(a, k) == At(b, k);
    }
  }

  /** A long compatible release asks for all but the last component of its reference. */
  lemma LongReleaseIsAt(ref: Version, v: Version)
    requires |ref| > COMPARED + 1
    ensures Takes(Segment(Compatible, ref, true), v) <==> forall k: nat :: k < |ref| - 1 ==> At(v, k) == ref[k]
  {
    var n := |ref| - 1;
    var p := Pad(Prefix(v, n), n);
    forall k: nat | k < n ensures p[k] == At(v, k) && ref[..n][k] == ref[k] {}
    if forall k: nat :: k < n ==> At(v, k) == ref[k] {
      assert p == ref[..n];
      forall k: nat | k < COMPARED ensures Key(v)[k] == Key(ref)[k] {
        KeyAt(v, k);
        KeyAt(ref, k);
      }
      SameKeyCompares(v, ref);
    }
  }

  /** The least version a segment may start at: the version just above the reference for `>`, else the reference. */
  function Floor(seg: Segment): Version
    requires seg.Segment?
  {
    if seg.op == Gt then var k := Key(seg.ref); k[COMPARED - 1 := k[COMPARED - 1] + 1] else seg.ref
  }

  lemma JustAbove(ref: Version, dotted: bool, v: Version)
    ensures Cmp(v, ref) > 0 <==> Cmp(Floor(Segment(Gt, ref, dotted)), v) <= 0
  {
    hide Cmp, Lex, Key;
    var k := Key(ref);
    var up := Floor(Segment(Gt, ref, dotted));
    assert up == k[..COMPARED - 1] + [k[COMPARED - 1] + 1];
    KeyOfCompared(up);
    CmpByKey(v, ref);
    CmpByKey(up, v);
    LexFlip(up, Key(v));
    LexEqual(Key(v), k);
    Gap(Key(v), k);
    LexBelowNext(k, up, Key(v));
  }

  lemma LexBelowNext(k: Version, up: Version, x: Version)
    requires |k| == |x| > 0 && up == k[..|k| - 1] + [k[|k| - 1] + 1]
    ensures Lex(x, up) >= 0 ==> Lex(x, k) > 0
  {
    hide Lex;
    var n := |k| - 1;
    LexSplit(k, up, n);
    assert k[..n] == up[..n];
    LexRefl(k[..n]);
    assert Lex(k, up) < 0 by { assert k[n..] == [k[n]] && up[n..] == [k[n] + 1]; OneComponent(k[n], k[n] + 1); }
    LexFlip(k, up);
    LexFlip(x, up);
    LexFlip(x, k);
    if Lex(x, k) <= 0 && Lex(x, up) >= 0 { LexTrans(up, x, k); }
  }

  lemma OneComponent(a: nat, b: nat)
    ensures Lex([a], [b]) == if a < b then -1 else if a > b then 1 else 0
  {
  }

  lemma SamePaddedTakes(seg: Segment, v: Version, w: Version)
    requires seg.Segment? && SamePadded(v, w) && Takes(seg, v)
    ensures Takes(seg, w)
  {
    hide Cmp, Key, Pad, SamePadded;
    SamePaddedSameKey(v, w);
    if Readable(seg) && OrderedOnly(seg) {
      SameKeyTakes(seg, v, w);
    } else {
      SamePaddedIsAt(v, w);
      if seg.op == Compatible {
        assert seg == Segment(Compatible, seg.ref, true);
        LongReleaseIsAt(seg.ref, v);
        LongReleaseIsAt(seg.ref, w);
      } else {
        SamePaddedIsAt(v, seg.ref);
        SamePaddedIsAt(w, seg.ref);
      }
    }
  }

  lemma SameKeyTakes(seg: Segment, v: Version, w: Version)
    requires Readable(seg) && OrderedOnly(seg) && Key(v) == Key(w) && Takes(seg, v)
    ensures Takes(seg, w)
  {
    SameKeyCompares(v, w);
    OrderedTakes(seg, v, w, v);
  }

  /** Where a long release tells apart two versions that compare equal, any other segment that takes both takes
      its reference. */
  lemma LongReleaseFloor(other: Segment, ref: Version, c: Version, v: Version)
    requires Readable(other) && other.op != Ne && Takes(other, c) && Takes(other, v) && |ref| > COMPARED + 1
    requires Takes(Segment(Compatible, ref, true), v) && !Takes(Segment(Compatible, ref, true), c)
    ensures Key(v) == Key(ref) && Takes(other, ref)
  {
    hide Cmp, Key, Pad, SamePadded;
    LongCompatibleSameKey(ref, v);
    LongReleaseIsAt(ref, v);
    LongReleaseIsAt(ref, c);
    if OrderedOnly(other) {
      SameKeyTakes(other, v, ref);
    } else if other.op == Eq {
      SamePaddedIsAt(v, other.ref);
      SamePaddedIsAt(c, other.ref);
    } else {
      assert other == Segment(Compatible, other.ref, true);
      LongReleaseIsAt(other.ref, v);
      LongReleaseIsAt(other.ref, c);
      LongReleaseIsAt(other.ref, ref);
    }
  }

  /** A segment that takes `v` but not the smaller `c` takes its own floor, which lies at or below `v`. */
  lemma FloorIsTaken(seg: Segment, c: Version, v: Version)
    requires seg.Segment? && seg.op != Ne && Takes(seg, v) && !Takes(seg, c) && Cmp(c, v) <= 0
    ensures seg.op in {Ge, Gt, Eq, Compatible}
    ensures Takes(seg, Floor(seg)) && Cmp(Floor(seg), v) <= 0
  {
    hide Cmp, Key, Pad, SamePadded, Floor;
    var f := Floor(seg);
    CmpSelf(seg.ref);
    TotalPreorder(c, v, seg.ref);
    TotalPreorder(v, seg.ref, v);
    FloorIsReference(seg);
    if seg.op == Gt {
      JustAbove(seg.ref, seg.dotted, v);
      JustAbove(seg.ref, seg.dotted, f);
      assert seg == Segment(Gt, seg.ref, seg.dotted);
      CmpSelf(f);
    } else if seg.op == Eq {
      SelfPadded(seg.ref);
      SamePaddedSameKey(v, seg.ref);
      SameKeyCompares(seg.ref, v);
    } else if seg.op == Compatible {
      assert seg == Segment(Compatible, seg.ref, true);
      CompatibleTakesReference(seg.ref);
    }
  }

  lemma FloorIsReference(seg: Segment)
    requires seg.Segment?
    ensures seg.op != Gt ==> Floor(seg) == seg.ref
  {
  }

  /** A segment that takes `v` but not `c` and orders versions has its floor above `c`. */
  lemma FloorAbove(seg: Segment, c: Version, v: Version)
    requires seg.Segment? && seg.op != Ne && Takes(seg, v) && !Takes(seg, c) && Cmp(c, v) <= 0 && OrderedOnly(seg)
    ensures Cmp(c, Floor(seg)) < 0
  {
    hide Cmp, Key, Pad, SamePadded, Floor;
    TotalPreorder(c, v, seg.ref);
    TotalPreorder(c, seg.ref, c);
    FloorIsReference(seg);
    if seg.op == Gt {
      JustAbove(seg.ref, seg.dotted, c);
      assert seg == Segment(Gt, seg.ref, seg.dotted);
      TotalPreorder(c, Floor(seg), c);
    } else if seg.op == Compatible {
      assert seg == Segment(Compatible, seg.ref, true);
      CompatibleIsInterval(seg.ref, c);
      CompatibleIsInterval(seg.ref, v);
      TotalPreorder(c, v, Bump(seg.ref));
    }
  }

  /** And so does any other segment that takes both. */
  lemma FloorBetween(seg: Segment, other: Segment, c: Version, v: Version)
    requires seg.Segment? && seg.op != Ne && Takes(seg, v) && !Takes(seg, c) && Cmp(c, v) <= 0
    requires other.Segment? && other.op != Ne && Takes(other, c) && Takes(other, v)
    ensures Takes(other, Floor(seg))
  {
    hide Cmp, Key, Pad, SamePadded, Floor, SegmentAdmits;
    assert Readable(other) && Readable(seg) by { TakerReads(other, v); TakerReads(seg, v); }
    FloorIsTaken(seg, c, v);
    if OrderedOnly(seg) {
      FloorAbove(seg, c, v);
      SegmentStrictlyConvex(other, c, Floor(seg), v);
    } else {
      FloorIsReference(seg);
      if seg.op == Eq {
        assert SamePadded(v, seg.ref) by { EqualityIsPadded(seg, v); }
        SamePaddedTakes(other, v, seg.ref);
      } else {
        assert seg == Segment(Compatible, seg.ref, true);
        LongReleaseFloor(other, seg.ref, c, v);
      }
    }
  }

  lemma TakerReads(seg: Segment, v: Version)
    requires Takes(seg, v)
    ensures Readable(seg)
  {
  }

  lemma EqualityIsPadded(seg: Segment, v: Version)
    requires seg.Segment? && seg.op == Eq && Takes(seg, v)
    ensures SamePadded(v, seg.ref)
  {
  }

  /** The versions to try: zero and the floors of the segments. */
  predicate Tried(spec: Spec, c: Version) {
    c == [0] || exists k :: 0 <= k < |spec| && spec[k].Segment? && c == Floor(spec[k])
  }

  /** Below any admitted version one of those is admitted. */
  lemma {:induction false} TriedIsAdmitted(spec: Spec, v: Version) returns (c: Version)
    requires WithoutNe(spec) && Admits(spec, v)
    ensures Admits(spec, c) && Cmp(c, v) <= 0 && Tried(spec, c)
  {
    hide Cmp, Floor, SegmentAdmits;
    if spec == [] {
      c := [0];
      NothingBelowZero(v);
    } else {
      var n := |spec| - 1;
      var init, seg := spec[..n], spec[n];
      c := TriedIsAdmitted(init, v);
      assert Tried(spec, c) by {
        if c != [0] { var k :| 0 <= k < n && init[k].Segment? && c == Floor(init[k]); assert c == Floor(spec[k]); }
      }
      if !Takes(seg, c) {
        forall k | 0 <= k < |spec| ensures spec[k].Segment? && Takes(spec[k], v) { ReadableAdmits(spec[k], v); }
        forall k | 0 <= k < n ensures Takes(spec[k], Floor(seg)) {
          assert Takes(init[k], c);
          FloorBetween(seg, spec[k], c, v);
        }
        FloorIsTaken(seg, c, v);
        c := Floor(seg);
      } else {
        assert forall k :: 0 <= k < n ==> Takes(init[k], c);
        assert forall k :: 0 <= k < n ==> Takes(spec[k], c);
      }
    }
  }

  /** Whether the specifier admits zero or the floor of one of its segments, a test of its text. */
  predicate Satisfiable(spec: Spec) {
    Admits(spec, [0]) || exists k :: 0 <= k < |spec| && spec[k].Segment? && Admits(spec, Floor(spec[k]))
  }

  /** A specifier without `!=` admits anything exactly if it admits zero or the floor of one of its segments. */
  lemma {:induction false} SatisfiableIff(spec: Spec)
    requires WithoutNe(spec)
    ensures (exists v :: Admits(spec, v)) <==> Satisfiable(spec)
  {
    hide Cmp, Admits, Floor;
    if v :| Admits(spec, v) {
      var c := TriedIsAdmitted(spec, v);
    }
  }

  /** A specifier without `!=` that refuses the first unsafe version admits an unsafe one exactly if it admits
      anything and nothing safe. */
  lemma {:induction false} MissesIffNothingSafe(spec: Spec, first: Version)
    requires WithoutNe(spec) && !Admits(spec, first)
    ensures (exists v :: Cmp(first, v) <= 0 && Admits(spec, v))
            <==> (exists v :: Admits(spec, v)) && forall v :: Admits(spec, v) ==> Cmp(v, first) >= 0
  {
    hide Cmp, Admits, WithoutNe;
    forall u, v | Cmp(first, v) <= 0 && Admits(spec, v) && Admits(spec, u) ensures Cmp(u, first) >= 0 {
      if Cmp(u, first) < 0 { StrictlyConvex(spec, u, first, v); }
    }
    forall v ensures Cmp(v, first) >= 0 <==> Cmp(first, v) <= 0 { TotalPreorder(v, first, v); }
  }

  /** The same in terms of the specifier's text: it can be satisfied, and one of its segments is a floor at or above
      the line. */
  lemma {:induction false} MissesIffFloor(spec: Spec, first: Version)
    requires WithoutNe(spec) && !Admits(spec, first) && OpenLine(first)
    ensures (exists v :: Cmp(first, v) <= 0 && Admits(spec, v))
            <==> Satisfiable(spec) && exists k :: 0 <= k < |spec| && FloorsAt(spec[k], first)
  {
    hide Cmp, OpenLine, SegmentAdmits, FloorsAt, Satisfiable;
    SatisfiableIff(spec);
    if k :| 0 <= k < |spec| && FloorsAt(spec[k], first) {
      forall v | Admits(spec, v) ensures Cmp(first, v) <= 0 {
        FloorExcludes(spec[k], first, v);
        TotalPreorder(v, first, v);
      }
    }
    forall v | Cmp(first, v) <= 0 && Admits(spec, v) ensures exists k :: 0 <= k < |spec| && FloorsAt(spec[k], first) {
      var k :| 0 <= k < |spec| && SegmentAdmits(spec[k], first) != Some(true);
      if !FloorsAt(spec[k], first) {
        ReadableAdmits(spec[k], v);
        var u := NoFloorTakesBelow(spec[k], first, v);
        SegmentStrictlyConvex(spec[k], u, first, v);
      }
    }
  }

  lemma LinesAreOpen(name: Name)
    requires name in UNSAFE
    ensures OpenLine(UNSAFE[name].0)
  {
    KeyAt(UNSAFE[name].0, COMPARED - 1);
    KeyAt(UNSAFE[name].0, 0);
  }

  /** A silent gate misses an unsafe version of a listed package exactly if the package's specifier can be satisfied
      and has a floor at or above the first unsafe version; without such a floor silence is enough. */
  lemma {:induction false} SilentGateMissesIff(i: Inputs, source: Source, name: Name)
    requires forall e :: !Reported(i, e)
    requires name in UNSAFE && name in i.Of(source) && WithoutNe(i.Of(source)[name])
    ensures var spec, first := i.Of(source)[name], UNSAFE[name].0;
      (exists v :: Cmp(first, v) <= 0 && Admits(spec, v))
      <==> Satisfiable(spec) && exists k :: 0 <= k < |spec| && FloorsAt(spec[k], first)
  {
    hide Cmp, Admits, WithoutNe, UNSAFE, OpenLine, FloorsAt, Satisfiable;
    assert !Reported(i, AdmitsUnsafe(source, name));
    LinesAreOpen(name);
    MissesIffFloor(i.Of(source)[name], UNSAFE[name].0);
  }

  /** So every floor above the second probe slips through both. */
  lemma ProbesMissHighFloors(name: Name, ref: Version, dotted: bool)
    requires name in UNSAFE && Cmp(ref, UNSAFE[name].1) > 0
    ensures var spec := [Segment(Ge, ref, dotted)];
      && !Admits(spec, UNSAFE[name].0) && !Admits(spec, UNSAFE[name].1)
      && exists v :: Cmp(UNSAFE[name].0, v) <= 0 && Admits(spec, v)
  {
    hide Cmp, UNSAFE;
    var first, breaker := UNSAFE[name].0, UNSAFE[name].1;
    var spec := [Segment(Ge, ref, dotted)];
    BreakersAreUnsafe(name);
    TotalPreorder(first, breaker, ref);
    TotalPreorder(breaker, ref, breaker);
    TotalPreorder(ref, breaker, ref);
    TotalPreorder(first, ref, first);
    CmpSelf(ref);
    assert SegmentAdmits(spec[0], first) == Some(false) && SegmentAdmits(spec[0], breaker) == Some(false);
    assert Admits(spec, ref) && FloorsAt(spec[0], first);
    LinesAreOpen(name);
    hide Admits, OpenLine, FloorsAt;
    MissesIffFloor(spec, first);
  }

  /** For instance `>=3.1` for pandas. */
  lemma HighFloorExample()
    ensures Cmp([3, 1], UNSAFE["pandas"].1) > 0
    ensures var spec := [Segment(Ge, [3, 1], true)];
      && !Admits(spec, UNSAFE["pandas"].0) && !Admits(spec, UNSAFE["pandas"].1)
      && exists v :: Cmp(UNSAFE["pandas"].0, v) <= 0 && Admits(spec, v)
  {
    hide Cmp;
    CmpPadded([3, 1], [3, 0, 6], 3);
    assert Pad([3, 1], 3) == [3, 1, 0] && Pad([3, 0, 6], 3) == [3, 0, 6];
    assert [3, 1, 0][1..] == [1, 0] && [3, 0, 6][1..] == [0, 6];
    ProbesMissHighFloors("pandas", [3, 1], true);
  }
}

/** Leaks are contained in a line: without templates, block comments and continued lines, an unbalanced quote
    never reaches the next line. In general a mask splits at a line break exactly if the lexer is clean there. */
module MaskContainment {
  import opened Wrappers
  import opened MaskLexer

  /** No backtick, no block comment opener and no backslash before a newline. */
  predicate LineBound(text: string) {
    && (forall k :: 0 <= k < |text| ==> text[k] != '`')
    && (forall k :: 0 <= k < |text| - 1 ==>
          !(text[k] == '/' && text[k + 1] == '*') && !(text[k] == '\\' && text[k + 1] == '\n'))
  }

  /** `b` follows `a` on a new line. */
  function Lines(a: string, b: string): string { a + "\n" + b }

  /** Outside templates the stack is empty or holds one quoted string. */
  predicate Flat(frames: seq<Frame>) {
    frames == [] || (|frames| == 1 && frames[0].Str? && frames[0].quote != '`')
  }

  // ---------------------------------------------------------------- the lines before

  lemma {:induction false} BehindPrefix(a: string, b: string, i: nat)
    requires i <= |a|
    ensures Behind(Lines(a, b), i) == Behind(a, i)
  {
    if i > 0 { BehindPrefix(a, b, i - 1); }
  }

  lemma RegexStartPrefix(word: WordClass, a: string, b: string, i: nat)
    requires i <= |a|
    ensures LooksLikeRegexStart(word, Lines(a, b), i) == LooksLikeRegexStart(word, a, i)
  {
    BehindPrefix(a, b, i);
    var k := Behind(a, i);
    forall m | 0 <= m < |REGEX_KEYWORDS|
      ensures EndsWithWord(word, Lines(a, b), k, REGEX_KEYWORDS[m]) == EndsWithWord(word, a, k, REGEX_KEYWORDS[m])
    {
      var w := REGEX_KEYWORDS[m];
      if |w| <= k { assert Lines(a, b)[k - |w|..k] == a[k - |w|..k]; }
    }
  }

  lemma {:induction false} RegexClosePrefix(a: string, b: string, j: nat, inClass: bool)
    requires j <= |a|
    ensures RegexClose(Lines(a, b), j, inClass) == RegexClose(a, j, inClass)
    decreases |a| - j
  {
    if j < |a| {
      if a[j] == '\\' {
        if j + 2 <= |a| { RegexClosePrefix(a, b, j + 2, inClass); }
      } else {
        RegexClosePrefix(a, b, j + 1, if a[j] == '[' then true else if a[j] == ']' then false else inClass);
      }
    }
  }

  lemma {:induction false} LineEndPrefix(a: string, b: string, i: nat)
    requires i <= |a|
    ensures LineEnd(Lines(a, b), i) == LineEnd(a, i)
    decreases |a| - i
  {
    if i < |a| && a[i] != '\n' { LineEndPrefix(a, b, i + 1); }
  }

  lemma {:induction false} BlockEndPrefix(a: string, b: string, i: nat)
    requires i <= |a|
    ensures var e := BlockEnd(Lines(a, "x"), i);
      if e <= |a| then BlockEnd(Lines(a, b), i) == e && BlockEnd(a, i) == e else e == |a| + 2
    decreases |a| - i
  {
    var t, u := Lines(a, "x"), Lines(a, b);
    if i < |a| {
      assert t[i] == u[i] == a[i] && t[i + 1] == u[i + 1] == if i + 1 < |a| then a[i + 1] else '\n';
      BlockEndPrefix(a, b, i + 1);
    } else {
      assert t[i] == '\n';
    }
  }

  lemma SlashSame(word: WordClass, a: string, b: string, i: nat)
    requires i < |a|
    ensures var s := Slash(word, Lines(a, "x"), i);
      if StartsComment(a, i, '*') && BlockEnd(Lines(a, "x"), i + 2) > |a| then s == Some((|a| + 2 - i, true))
      else s == Slash(word, a, i) == Slash(word, Lines(a, b), i)
  {
    hide LooksLikeRegexStart, RegexClose, LineEnd, BlockEnd;
    var t, u := Lines(a, "x"), Lines(a, b);
    assert t[i] == u[i] == a[i] && t[i + 1] == u[i + 1] == if i + 1 < |a| then a[i + 1] else '\n';
    if i + 2 <= |a| {
      LineEndPrefix(a, "x", i + 2);
      LineEndPrefix(a, b, i + 2);
      BlockEndPrefix(a, b, i + 2);
    }
    RegexStartPrefix(word, a, "x", i);
    RegexStartPrefix(word, a, b, i);
    RegexClosePrefix(a, "x", i + 1, false);
    RegexClosePrefix(a, b, i + 1, false);
  }

  lemma SlashPrefix(word: WordClass, a: string, b: string, i: nat)
    requires i < |a| && LineBound(Lines(a, b))
    ensures Slash(word, Lines(a, b), i) == Slash(word, a, i)
  {
    hide Slash, BlockEnd;
    var t := Lines(a, b);
    assert t[i] == a[i] && t[i + 1] == if i + 1 < |a| then a[i + 1] else '\n';
    SlashSame(word, a, b, i);
  }

  lemma NextPrefix(word: WordClass, a: string, b: string, i: nat, frames: seq<Frame>)
    requires i < |a| && Flat(frames) && LineBound(Lines(a, b))
    ensures var p := Next(word, a, i, frames);
      Next(word, Lines(a, b), i, frames) == p && Flat(p.frames)
  {
    hide Slash;
    SlashPrefix(word, a, b, i);
    var t := Lines(a, b);
    assert t[i] == a[i] && t[i + 1] == if i + 1 < |a| then a[i + 1] else '\n';
  }

  lemma NextNewline(word: WordClass, text: string, i: nat, frames: seq<Frame>)
    requires i < |text| && text[i] == '\n' && Flat(frames)
    ensures Next(word, text, i, frames) == Piece(1, false, [])
  {
  }

  // ---------------------------------------------------------------- the lines after

  lemma {:induction false} BehindSuffix(a: string, b: string, k: nat)
    requires 1 <= k <= |b| + 1
    ensures Behind("\n" + b, k) >= 1 && Behind(Lines(a, b), |a| + k) == |a| + Behind("\n" + b, k)
  {
    assert Lines(a, b)[|a| + k - 1] == ("\n" + b)[k - 1];
    if k > 1 { BehindSuffix(a, b, k - 1); }
  }

  lemma KeywordsAreOneLine(m: nat)
    requires m < |REGEX_KEYWORDS|
    ensures REGEX_KEYWORDS[m] != "" && '\n' !in REGEX_KEYWORDS[m]
  {
  }

  lemma WordSuffix(word: WordClass, a: string, b: string, k: nat, w: string)
    requires 1 <= k <= |b| + 1 && w != "" && '\n' !in w
    ensures EndsWithWord(word, Lines(a, b), |a| + k, w) == EndsWithWord(word, "\n" + b, k, w)
  {
    var t, u := Lines(a, b), "\n" + b;
    if |w| < k {
      assert t[|a| + k - |w|..|a| + k] == u[k - |w|..k];
      assert t[|a| + k - |w| - 1] == u[k - |w| - 1];
    } else if |w| <= |a| + k {
      var s := t[|a| + k - |w|..|a| + k];
      assert s[|w| - k] == t[|a|] == '\n';
      assert |w| == k ==> u[0..k][0] == '\n';
    }
  }

  lemma RegexStartSuffix(word: WordClass, a: string, b: string, k: nat)
    requires 1 <= k <= |b| + 1
    ensures LooksLikeRegexStart(word, Lines(a, b), |a| + k) == LooksLikeRegexStart(word, "\n" + b, k)
  {
    BehindSuffix(a, b, k);
    var j := Behind("\n" + b, k);
    assert Lines(a, b)[|a| + j - 1] == ("\n" + b)[j - 1];
    forall m | 0 <= m < |REGEX_KEYWORDS|
      ensures EndsWithWord(word, Lines(a, b), |a| + j, REGEX_KEYWORDS[m])
          == EndsWithWord(word, "\n" + b, j, REGEX_KEYWORDS[m])
    {
      KeywordsAreOneLine(m);
      WordSuffix(word, a, b, j, REGEX_KEYWORDS[m]);
    }
  }

  function Shift(o: Option<nat>, n: nat): Option<nat> { if o.Some? then Some(o.value + n) else None }

  lemma {:induction false} RegexCloseSuffix(x: string, u: string, j: nat, inClass: bool)
    requires j <= |u|
    ensures RegexClose(x + u, |x| + j, inClass) == Shift(RegexClose(u, j, inClass), |x|)
    decreases |u| - j
  {
    var t := x + u;
    if j < |u| {
      assert t[|x| + j] == u[j];
      if u[j] == '\\' {
        assert j + 1 < |u| ==> t[|x| + j + 1] == u[j + 1];
        if j + 2 <= |u| { RegexCloseSuffix(x, u, j + 2, inClass); }
      } else {
        RegexCloseSuffix(x, u, j + 1, if u[j] == '[' then true else if u[j] == ']' then false else inClass);
      }
    }
  }

  lemma {:induction false} LineEndSuffix(x: string, u: string, i: nat)
    requires i <= |u|
    ensures LineEnd(x + u, |x| + i) == |x| + LineEnd(u, i)
    decreases |u| - i
  {
    if i < |u| {
      assert (x + u)[|x| + i] == u[i];
      LineEndSuffix(x, u, i + 1);
    }
  }

  lemma {:induction false} BlockEndSuffix(x: string, u: string, i: nat)
    requires i <= |u|
    ensures BlockEnd(x + u, |x| + i) == |x| + BlockEnd(u, i)
    decreases |u| - i
  {
    if i + 1 < |u| {
      assert (x + u)[|x| + i] == u[i] && (x + u)[|x| + i + 1] == u[i + 1];
      BlockEndSuffix(x, u, i + 1);
    }
  }

  lemma SlashSuffix(word: WordClass, a: string, b: string, k: nat)
    requires 1 <= k <= |b|
    ensures Slash(word, Lines(a, b), |a| + k) == Slash(word, "\n" + b, k)
  {
    hide LooksLikeRegexStart, RegexClose, LineEnd, BlockEnd;
    var t, u := Lines(a, b), "\n" + b;
    assert t == a + u;
    assert t[|a| + k] == u[k] && (k + 1 < |u| ==> t[|a| + k + 1] == u[k + 1]);
    if k + 2 <= |u| {
      LineEndSuffix(a, u, k + 2);
      BlockEndSuffix(a, u, k + 2);
    }
    RegexStartSuffix(word, a, b, k);
    RegexCloseSuffix(a, u, k + 1, false);
  }

  lemma NextSuffix(word: WordClass, a: string, b: string, k: nat, frames: seq<Frame>)
    requires 1 <= k <= |b| && WellNested(frames)
    ensures Next(word, Lines(a, b), |a| + k, frames) == Next(word, "\n" + b, k, frames)
  {
    hide Slash;
    SlashSuffix(word, a, b, k);
    var t, u := Lines(a, b), "\n" + b;
    assert t[|a| + k] == u[k] && (k + 1 < |u| ==> t[|a| + k + 1] == u[k + 1]);
  }

  /** What follows a line start is read as if the lines before were not there. */
  lemma {:induction false} ScanSuffix(word: WordClass, a: string, b: string, k: nat, frames: seq<Frame>)
    requires 1 <= k <= |b| + 1 && WellNested(frames)
    ensures Scan(word, Lines(a, b), |a| + k, frames) == Scan(word, "\n" + b, k, frames)
    decreases |b| + 1 - k
  {
    hide Next, Scan;
    if k <= |b| {
      NextSuffix(word, a, b, k, frames);
      var p := Next(word, "\n" + b, k, frames);
      ScanSuffix(word, a, b, k + p.size, p.frames);
      ScanUnfold(word, Lines(a, b), |a| + k, frames);
      ScanUnfold(word, "\n" + b, k, frames);
    }
  }

  // ---------------------------------------------------------------- containment

  /** The frames the lexer is in when it stands exactly at `k`, if it ever does. */
  function FramesAt(word: WordClass, text: string, i: nat, frames: seq<Frame>, k: nat): (r: Option<seq<Frame>>)
    requires i <= |text| && WellNested(frames)
    ensures r.Some? ==> i <= k <= |text| && WellNested(r.value)
    decreases |text| - i
  {
    if i == k then Some(frames) else if i > k || i == |text| then None else
      var p := Next(word, text, i, frames);
      FramesAt(word, text, i + p.size, p.frames, k)
  }

  lemma {:induction false} EmptyAtLineStart(word: WordClass, a: string, b: string, i: nat, frames: seq<Frame>)
    requires i <= |a| && Flat(frames) && LineBound(Lines(a, b))
    ensures FramesAt(word, Lines(a, b), i, frames, |a| + 1) == Some([])
    decreases |a| - i
  {
    var t := Lines(a, b);
    hide Next;
    if i == |a| {
      NextNewline(word, t, i, frames);
    } else {
      NextPrefix(word, a, b, i, frames);
      var p := Next(word, a, i, frames);
      EmptyAtLineStart(word, a, b, i + p.size, p.frames);
    }
  }

  /** The lexer stands at every line start, and its frame stack is empty there. */
  lemma LineStartsAreClean(word: WordClass, text: string, k: nat)
    requires LineBound(text) && 0 < k <= |text| && text[k - 1] == '\n'
    ensures FramesAt(word, text, 0, [], k) == Some([])
  {
    var a, b := text[..k - 1], text[k..];
    assert text == Lines(a, b);
    EmptyAtLineStart(word, a, b, 0, []);
  }

  // ---------------------------------------------------------------- exactly when a mask splits

  /** A piece that begins in `a` and ends there is the same whatever follows the newline. One that ends behind the
      newline is an escape, which leaves a string open, and one that goes on is an open block comment. */
  lemma NextSame(word: WordClass, a: string, b: string, i: nat, frames: seq<Frame>)
    requires i < |a| && WellNested(frames)
    ensures var p := Next(word, Lines(a, "x"), i, frames);
      && (i + p.size <= |a| ==> Next(word, a, i, frames) == p)
      && (i + p.size == |a| + 1 ==> p.frames == frames != [])
      && (i + p.size <= |a| + 1 ==> Next(word, Lines(a, b), i, frames) == p)
      && (i + p.size > |a| + 1 ==> p.masked)
  {
    hide Slash, BlockEnd;
    SlashSame(word, a, b, i);
    var t, u := Lines(a, "x"), Lines(a, b);
    assert t[i] == u[i] == a[i] && t[i + 1] == u[i + 1] == if i + 1 < |a| then a[i + 1] else '\n';
  }

  lemma NewlineSame(word: WordClass, a: string, b: string, frames: seq<Frame>)
    requires WellNested(frames)
    ensures var p := Next(word, Lines(a, "x"), |a|, frames);
      Next(word, Lines(a, b), |a|, frames) == p && p.size == 1 && (p.frames == [] ==> !p.masked)
  {
    assert Lines(a, "x")[|a|] == Lines(a, b)[|a|] == '\n';
  }

  /** Whether the lexer, run over `a`, stands at the start of the next line with an empty stack. An open block
      comment passes over that place; nothing else depends on what stands there. */
  predicate CleanAfter(word: WordClass, a: string) {
    FramesAt(word, Lines(a, "x"), 0, [], |a| + 1) == Some([])
  }

  lemma {:induction false} ScanPrefix(word: WordClass, a: string, b: string, i: nat, frames: seq<Frame>)
    requires i <= |a| && WellNested(frames) && FramesAt(word, Lines(a, "x"), i, frames, |a| + 1) == Some([])
    ensures Scan(word, Lines(a, b), i, frames)
        == Scan(word, a, i, frames) + ([false] + Scan(word, Lines(a, b), |a| + 1, []))
    decreases |a| - i
  {
    hide Next, Scan;
    ScanUnfold(word, Lines(a, b), i, frames);
    var p := Next(word, Lines(a, "x"), i, frames);
    if i == |a| {
      NewlineSame(word, a, b, frames);
      assert Marks(1, false) == [false];
    } else {
      NextSame(word, a, b, i, frames);
      ScanPrefix(word, a, b, i + p.size, p.frames);
      ScanUnfold(word, a, i, frames);
    }
  }

  /** After such a text every continuation splits off. */
  lemma {:induction false} CleanSplits(word: WordClass, a: string, b: string)
    requires CleanAfter(word, a)
    ensures Mask(word, Lines(a, b)) == Mask(word, a) + Mask(word, "\n" + b)
  {
    hide Next, Scan, FramesAt;
    var t, u := Lines(a, b), "\n" + b;
    ScanPrefix(word, a, b, 0, []);
    ScanSuffix(word, a, b, 1, []);
    ScanUnfold(word, u, 0, []);
    NextNewline(word, u, 0, []);
    assert Marks(1, false) == [false];
    var x, y := Scan(word, a, 0, []), Scan(word, u, 0, []);
    assert Scan(word, t, 0, []) == x + y;
    assert Masked(t, x + y) == Masked(a, x) + Masked(u, y) by {
      assert t == a + u;
    }
  }

  /** A quoted string on top has been opened by a quote. */
  predicate Quoted(frames: seq<Frame>) {
    frames != [] && frames[|frames| - 1].Str? ==> Quote(frames[|frames| - 1].quote)
  }

  lemma {:induction false} FramesSame(word: WordClass, a: string, b: string, i: nat, frames: seq<Frame>)
    requires i <= |a| && WellNested(frames) && Quoted(frames)
    requires FramesAt(word, Lines(a, "x"), i, frames, |a| + 1).Some?
    ensures FramesAt(word, Lines(a, b), i, frames, |a| + 1) == FramesAt(word, Lines(a, "x"), i, frames, |a| + 1)
    ensures Quoted(FramesAt(word, Lines(a, "x"), i, frames, |a| + 1).value)
    decreases |a| - i
  {
    hide Next;
    var t := Lines(a, "x");
    var p := Next(word, t, i, frames);
    NextQuoted(word, t, i, frames);
    if i == |a| {
      NewlineSame(word, a, b, frames);
    } else {
      NextSame(word, a, b, i, frames);
      if i + p.size <= |a| { FramesSame(word, a, b, i + p.size, p.frames); }
    }
  }

  lemma NextQuoted(word: WordClass, text: string, i: nat, frames: seq<Frame>)
    requires i < |text| && WellNested(frames) && Quoted(frames)
    ensures Quoted(Next(word, text, i, frames).frames)
  {
    hide Slash;
  }

  /** From where the lexer stands on, it reads with the frames it is in there. */
  lemma {:induction false} ScanAt(word: WordClass, text: string, i: nat, frames: seq<Frame>, k: nat)
    requires i <= |text| && WellNested(frames) && FramesAt(word, text, i, frames, k).Some?
    ensures Scan(word, text, i, frames)[k - i..] == Scan(word, text, k, FramesAt(word, text, i, frames, k).value)
    decreases |text| - i
  {
    hide Next, Scan;
    if i < k {
      var p := Next(word, text, i, frames);
      ScanUnfold(word, text, i, frames);
      ScanAt(word, text, i + p.size, p.frames, k);
    }
  }

  lemma {:induction false} OpenCommentMasks(word: WordClass, a: string, i: nat, frames: seq<Frame>)
    requires i <= |a| && WellNested(frames) && FramesAt(word, Lines(a, "x"), i, frames, |a| + 1).None?
    ensures Scan(word, Lines(a, "x"), i, frames)[|a| + 1 - i]
    decreases |a| - i
  {
    hide Next, Scan;
    var t := Lines(a, "x");
    var p := Next(word, t, i, frames);
    ScanUnfold(word, t, i, frames);
    if i == |a| {
      NewlineSame(word, a, "x", frames);
    } else {
      NextSame(word, a, "x", i, frames);
      if i + p.size <= |a| { OpenCommentMasks(word, a, i + p.size, p.frames); }
    }
  }

  /** The braces that are to be closed before the lexer is in a string. */
  function Holes(frames: seq<Frame>): nat {
    if frames != [] && frames[|frames| - 1].Interp? then frames[|frames| - 1].depth else 0
  }

  function Closing(d: nat): (s: string)
    ensures |s| == d + 1 && s[d] == 'x' && forall k :: 0 <= k < d ==> s[k] == '}'
  {
    seq(d, _ => '}') + "x"
  }

  /** With an open string or interpolation, closing the braces leads into a string and masks what follows. */
  lemma {:induction false} OpenFramesMask(word: WordClass, text: string, k: nat, frames: seq<Frame>)
    requires WellNested(frames) && Quoted(frames) && frames != [] && k + Holes(frames) < |text|
    requires text[k..k + Holes(frames) + 1] == Closing(Holes(frames))
    ensures Scan(word, text, k, frames)[Holes(frames)]
    decreases |text| - k
  {
    hide Scan;
    var d := Holes(frames);
    assert text[k] == text[k..k + d + 1][0];
    ScanUnfold(word, text, k, frames);
    if d > 0 {
      var p := Next(word, text, k, frames);
      assert Slash(word, text, k) == None;
      assert p.frames != [] && Holes(p.frames) == d - 1 && p.size == 1 && Quoted(p.frames);
      assert text[k + 1..k + 1 + d] == Closing(d - 1);
      OpenFramesMask(word, text, k + 1, p.frames);
    }
  }

  /** On its own the same line is plain. */
  lemma {:induction false} ClosingIsPlain(word: WordClass, text: string, k: nat, i: nat)
    requires k <= i < |text| && forall j :: k <= j < |text| ==> text[j] in {'\n', '}', 'x'}
    ensures !Scan(word, text, k, [])[i - k]
    decreases i - k
  {
    hide Scan;
    ScanUnfold(word, text, k, []);
    assert Next(word, text, k, []) == Piece(1, false, []);
    if k < i { ClosingIsPlain(word, text, k + 1, i); }
  }

  lemma MarkedDiffers(word: WordClass, a: string, d: nat)
    requires Scan(word, Lines(a, Closing(d)), 0, [])[|a| + 1 + d]
    ensures Mask(word, Lines(a, Closing(d))) != Mask(word, a) + Mask(word, "\n" + Closing(d))
  {
    hide Scan;
    var b := Closing(d);
    ClosingIsPlain(word, "\n" + b, 0, d + 1);
    assert Mask(word, Lines(a, b))[|a| + 1 + d] == ' ';
    assert (Mask(word, a) + Mask(word, "\n" + b))[|a| + 1 + d] == Mask(word, "\n" + b)[d + 1] == 'x';
  }

  /** After any other text some continuation is read differently. */
  lemma UncleanLeaks(word: WordClass, a: string) returns (b: string)
    requires !CleanAfter(word, a)
    ensures Mask(word, Lines(a, b)) != Mask(word, a) + Mask(word, "\n" + b)
  {
    hide Next, Scan, FramesAt, Mask;
    var open := FramesAt(word, Lines(a, "x"), 0, [], |a| + 1);
    if open.None? {
      b := "x";
      assert Closing(0) == b;
      OpenCommentMasks(word, a, 0, []);
      MarkedDiffers(word, a, 0);
    } else {
      var frames := open.value;
      var d := Holes(frames);
      b := Closing(d);
      var t := Lines(a, b);
      FramesSame(word, a, b, 0, []);
      ScanAt(word, t, 0, [], |a| + 1);
      assert t[|a| + 1..|a| + 1 + d + 1] == b;
      OpenFramesMask(word, t, |a| + 1, frames);
      MarkedDiffers(word, a, d);
    }
  }

  /** A text splits from every continuation exactly if the lexer, run over it, ends clean. */
  lemma {:induction false} SplitsIff(word: WordClass, a: string)
    ensures (forall b :: Mask(word, Lines(a, b)) == Mask(word, a) + Mask(word, "\n" + b)) <==> CleanAfter(word, a)
  {
    hide Mask, CleanAfter;
    if CleanAfter(word, a) {
      forall b ensures Mask(word, Lines(a, b)) == Mask(word, a) + Mask(word, "\n" + b) { CleanSplits(word, a, b); }
    } else {
      var b := UncleanLeaks(word, a);
    }
  }

  // ---------------------------------------------------------------- containment of edits

  /** The mask of a line-bound text splits at every newline. */
  lemma {:induction false} MaskSplits(word: WordClass, a: string, b: string)
    requires LineBound(Lines(a, b))
    ensures Mask(word, Lines(a, b)) == Mask(word, a) + Mask(word, "\n" + b)
  {
    hide Mask, FramesAt;
    assert LineBound(Lines(a, "x")) by {
      assert forall k :: 0 <= k <= |a| ==> Lines(a, "x")[k] == Lines(a, b)[k];
    }
    EmptyAtLineStart(word, a, "x", 0, []);
    CleanSplits(word, a, b);
  }

  lemma LineBoundRest(a: string, b: string)
    requires LineBound(Lines(a, b))
    ensures LineBound("\n" + b)
  {
    var t, u := Lines(a, b), "\n" + b;
    forall k | 0 <= k < |u| ensures u[k] != '`' { assert t[|a| + k] == u[k]; }
    forall k | 0 <= k < |u| - 1
      ensures !(u[k] == '/' && u[k + 1] == '*') && !(u[k] == '\\' && u[k + 1] == '\n')
    {
      assert t[|a| + k] == u[k] && t[|a| + k + 1] == u[k + 1];
    }
  }

  /** Editing one line, even by unbalancing its quotes, changes the mask of no other line. */
  lemma {:induction false} EditStaysOnItsLine(word: WordClass, a: string, line: string, line': string, c: string)
    requires LineBound(Lines(a, Lines(line, c))) && LineBound(Lines(a, Lines(line', c)))
    ensures Mask(word, Lines(a, Lines(line, c))) == Mask(word, a) + Mask(word, "\n" + line) + Mask(word, "\n" + c)
    ensures Mask(word, Lines(a, Lines(line', c))) == Mask(word, a) + Mask(word, "\n" + line') + Mask(word, "\n" + c)
  {
    SplitThree(word, a, line, c);
    SplitThree(word, a, line', c);
  }

  lemma SplitThree(word: WordClass, a: string, b: string, c: string)
    requires LineBound(Lines(a, Lines(b, c)))
    ensures Mask(word, Lines(a, Lines(b, c))) == Mask(word, a) + Mask(word, "\n" + b) + Mask(word, "\n" + c)
  {
    MaskSplits(word, a, Lines(b, c));
    LineBoundRest(a, Lines(b, c));
    assert "\n" + Lines(b, c) == Lines("\n" + b, c);
    MaskSplits(word, "\n" + b, c);
  }

  /** Each of the three conditions is needed. */
  lemma {:induction false} LeaksWithout(word: WordClass)
    ensures Mask(word, Lines("`", "x")) != Mask(word, "`") + Mask(word, "\nx")
    ensures Mask(word, Lines("/*", "x")) != Mask(word, "/*") + Mask(word, "\nx")
    ensures Mask(word, Lines("'\\", "x")) != Mask(word, "'\\") + Mask(word, "\nx")
  {
    PlainX(word);
    OpenTemplate(word);
    OpenComment(word);
    ContinuedString(word);
  }

  lemma PlainX(word: WordClass)
    ensures Mask(word, "\nx")[1] == 'x'
  {
    hide LooksLikeRegexStart, RegexClose, LineEnd, Scan;
    var t := "\nx";
    ScanUnfold(word, t, 0, []);
    ScanUnfold(word, t, 1, []);
    assert Next(word, t, 0, []) == Piece(1, false, []) && Next(word, t, 1, []) == Piece(1, false, []);
  }

  lemma OpenTemplate(word: WordClass)
    ensures Mask(word, Lines("`", "x"))[2] == ' '
  {
    hide LooksLikeRegexStart, RegexClose, LineEnd, Scan;
    var t := Lines("`", "x");
    var f := [Str('`')];
    ScanUnfold(word, t, 0, []);
    ScanUnfold(word, t, 1, f);
    ScanUnfold(word, t, 2, f);
    assert [] + f == f;
    assert Next(word, t, 0, []) == Piece(1, false, f) && Next(word, t, 1, f) == Piece(1, true, f);
    assert Next(word, t, 2, f) == Piece(1, true, f);
  }

  lemma OpenComment(word: WordClass)
    ensures Mask(word, Lines("/*", "x"))[3] == ' '
  {
    hide LooksLikeRegexStart, RegexClose, LineEnd, Scan;
    var t := Lines("/*", "x");
    ScanUnfold(word, t, 0, []);
    assert BlockEnd(t, 3) == 4 && BlockEnd(t, 2) == 4;
    assert Next(word, t, 0, []) == Piece(4, true, []);
  }

  lemma ContinuedString(word: WordClass)
    ensures Mask(word, Lines("'\\", "x"))[3] == ' '
  {
    hide LooksLikeRegexStart, RegexClose, LineEnd, Scan;
    var t := Lines("'\\", "x");
    var f := [Str('\'')];
    ScanUnfold(word, t, 0, []);
    ScanUnfold(word, t, 1, f);
    ScanUnfold(word, t, 3, f);
    assert [] + f == f;
    assert Next(word, t, 0, []) == Piece(1, false, f) && Next(word, t, 1, f) == Piece(2, true, f);
    assert Next(word, t, 3, f) == Piece(1, true, f);
  }
}

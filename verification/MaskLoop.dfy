/** The lexer as it runs: an index loop that overwrites a character buffer and pushes and pops frames. */
module MaskLoop {
  import opened Wrappers
  import opened MaskLexer

  /** Overwrite [start, end) with spaces, newlines excepted. */
  method MaskSpan(out: array<char>, text: string, start: nat, end: nat)
    requires out.Length == |text| && start <= end
    modifies out
    ensures forall k :: 0 <= k < out.Length ==>
      out[k] == if start <= k < end && text[k] != '\n' then ' ' else old(out[k])
  {
    var k := start;
    while k < end && k < |text|
      invariant start <= k
      invariant forall m :: 0 <= m < out.Length ==>
        out[m] == if start <= m < end && m < k && text[m] != '\n' then ' ' else old(out[m])
    {
      if text[k] != '\n' {
        out[k] := ' ';
      }
      k := k + 1;
    }
  }

  method FindRegexStart(word: WordClass, text: string, i: nat) returns (start: bool)
    requires i <= |text|
    ensures start == LooksLikeRegexStart(word, text, i)
  {
    var j: nat := i;
    while j > 0 && (text[j - 1] == ' ' || text[j - 1] == '\t')
      invariant j <= i && Behind(text, j) == Behind(text, i)
    {
      j := j - 1;
    }
    if j == 0 {
      return true;
    }
    if text[j - 1] in REGEX_STARTERS {
      return true;
    }
    start := exists m :: 0 <= m < |REGEX_KEYWORDS| && EndsWithWord(word, text, j, REGEX_KEYWORDS[m]);
  }

  /** The scan for the closing slash of a regular expression that starts at `i`. */
  method FindRegexClose(text: string, i: nat) returns (end: Option<nat>)
    requires i < |text|
    ensures end == RegexClose(text, i + 1, false)
  {
    var j := i + 1;
    var inClass := false;
    while j < |text|
      invariant j <= |text| + 1
      invariant RegexClose(text, i + 1, false) == if j <= |text| then RegexClose(text, j, inClass) else None
    {
      var ch := text[j];
      if ch == '\n' {
        return None;
      }
      if ch == '\\' {
        if j + 1 < |text| && text[j + 1] == '\n' {
          return None;
        }
        j := j + 2;
        continue;
      }
      if ch == '[' {
        inClass := true;
      } else if ch == ']' {
        inClass := false;
      } else if ch == '/' && !inClass {
        return Some(j);
      }
      j := j + 1;
    }
    end := None;
  }

  /** What is done up to position `i`, and what is still to be read from there. */
  ghost predicate Progress(word: WordClass, text: string, out: seq<char>, marks: seq<bool>, i: nat,
                           frames: seq<Frame>)
  {
    && |out| == |marks| == |text| && i <= |text| && WellNested(frames)
    && (forall k :: 0 <= k < i ==> out[k] == Blank(text[k], marks[k]))
    && (forall k :: i <= k < |text| ==> out[k] == text[k])
    && marks[i..] == Scan(word, text, i, frames)
  }

  /** One piece: the buffer was masked over it exactly if the piece is masked. */
  lemma Pass(word: WordClass, text: string, out: seq<char>, out': seq<char>, marks: seq<bool>, i: nat,
             frames: seq<Frame>, p: Piece)
    requires Progress(word, text, out, marks, i, frames) && i < |text| && p == Next(word, text, i, frames)
    requires |out'| == |out|
    requires forall k :: 0 <= k < |text| ==>
      out'[k] == if p.masked && i <= k < i + p.size && text[k] != '\n' then ' ' else out[k]
    ensures Progress(word, text, out', marks, i + p.size, p.frames)
  {
    hide Next;
    ScanUnfold(word, text, i, frames);
    var rest := Scan(word, text, i + p.size, p.frames);
    assert marks[i..] == Marks(p.size, p.masked) + rest;
    assert marks[i + p.size..] == marks[i..][p.size..] == rest;
    forall k | i <= k < i + p.size ensures marks[k] == p.masked { assert marks[k] == marks[i..][k - i]; }
  }

  method MaskTsNoncode(word: WordClass, text: string) returns (masked: string)
    ensures masked == Mask(word, text)
  {
    hide Next, Scan;
    var n := |text|;
    var out := new char[n](k requires 0 <= k < n => text[k]);
    ghost var marks := Scan(word, text, 0, []);
    var i, frames := 0, [];
    while i < n
      invariant Progress(word, text, out[..], marks, i, frames)
    {
      ghost var before := out[..];
      ghost var p := Next(word, text, i, frames);
      var next, frames' := LexOne(word, text, out, i, frames);
      Pass(word, text, before, out[..], marks, i, frames, p);
      i, frames := next, frames';
    }
    masked := out[..];
    assert marks[0..] == marks;
    assert masked == Masked(text, marks);
  }

  /** The body of the loop. The source lets the index run one past the end on a trailing backslash; here it
      stops at the end. */
  method LexOne(word: WordClass, text: string, out: array<char>, i: nat, frames: seq<Frame>)
    returns (next: nat, frames': seq<Frame>)
    requires out.Length == |text| && i < |text| && WellNested(frames)
    modifies out
    ensures var p := Next(word, text, i, frames);
      && next == i + p.size && frames' == p.frames
      && forall k :: 0 <= k < |text| ==>
           out[..][k] == if p.masked && i <= k < i + p.size && text[k] != '\n' then ' ' else old(out[..])[k]
  {
    var c := text[i];
    var n := |text|;
    frames' := frames;
    if InCode(frames) && c == '/' && i + 1 < n && text[i + 1] == '/' {
      next := LineEnd(text, i + 2);
      MaskSpan(out, text, i, next);
      return;
    }
    if InCode(frames) && c == '/' && i + 1 < n && text[i + 1] == '*' {
      next := BlockEnd(text, i + 2);
      MaskSpan(out, text, i, next);
      return;
    }
    if InCode(frames) && c == '/' {
      var start := FindRegexStart(word, text, i);
      if start {
        var end := FindRegexClose(text, i);
        if end.Some? {
          next := end.value + 1;
          MaskSpan(out, text, i, next);
        } else {
          next := i + 1;
        }
        return;
      }
    }
    if InCode(frames) && Quote(c) {
      return i + 1, frames + [Str(c)];
    }
    if frames == [] {
      return i + 1, frames;
    }
    var top, below := frames[|frames| - 1], frames[..|frames| - 1];
    match top {
      case Str(quote) =>
        if c == '\n' && quote != '`' {
          return i + 1, below;
        }
        if c == '\\' {
          next := if i + 2 <= n then i + 2 else n;
          MaskSpan(out, text, i, next);
          return;
        }
        if quote == '`' && c == '$' && i + 1 < n && text[i + 1] == '{' {
          return i + 2, frames + [Interp(1)];
        }
        if c == quote {
          frames' := below;
        } else {
          MaskSpan(out, text, i, i + 1);
        }
      case Interp(depth) =>
        if c == '{' {
          frames' := below + [Interp(depth + 1)];
        } else if c == '}' {
          frames' := if depth - 1 == 0 then below else below + [Interp(depth - 1)];
        }
    }
    next := i + 1;
  }

  // ---------------------------------------------------------------- what callers rely on

  /** Same length, newlines in place, and a character changes only to a space. */
  lemma MaskPreserves(word: WordClass, text: string)
    ensures var m := Mask(word, text);
      && |m| == |text|
      && forall k :: 0 <= k < |text| ==> (m[k] == '\n' <==> text[k] == '\n') && (m[k] == text[k] || m[k] == ' ')
  {
  }

  function Newlines(text: string): nat {
    if text == [] then 0 else Newlines(text[..|text| - 1]) + if text[|text| - 1] == '\n' then 1 else 0
  }

  /** `_line_of`: the 1-based line of an offset. */
  function LineOf(text: string, offset: nat): nat
    requires offset <= |text|
  {
    Newlines(text[..offset]) + 1
  }

  lemma {:induction false} SameNewlines(a: string, b: string)
    requires |a| == |b| && forall k :: 0 <= k < |a| ==> (a[k] == '\n' <==> b[k] == '\n')
    ensures Newlines(a) == Newlines(b)
    decreases |a|
  {
    if a != [] {
      var x, y := a[..|a| - 1], b[..|b| - 1];
      assert forall k :: 0 <= k < |x| ==> x[k] == a[k] && y[k] == b[k];
      SameNewlines(x, y);
    }
  }

  /** A match at any offset of the masked text is on the line of the original text. */
  lemma LinesAgree(word: WordClass, text: string, offset: nat)
    requires offset <= |text|
    ensures LineOf(Mask(word, text), offset) == LineOf(text, offset)
  {
    MaskPreserves(word, text);
    SameNewlines(Mask(word, text)[..offset], text[..offset]);
  }
}

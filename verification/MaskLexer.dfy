/** The masking lexer of the debt ratchet: comments, string and template contents and regular-expression
    literals of TypeScript become spaces, at unchanged offsets. */
module MaskLexer {
  import opened Wrappers

  /** `word` is the word-character class of the host's regular expressions. */
  type WordClass = char -> bool

  // ---------------------------------------------------------------- the regular-expression heuristic

  const REGEX_STARTERS := "(,=:[!&|?{};+-*%~^>"

  const REGEX_KEYWORDS := ["return", "typeof", "instanceof", "in", "of", "new", "delete", "void", "throw",
                           "case", "do", "else", "yield", "await"]

  /** The last position before `i` that is neither a blank nor a tab, plus one. */
  function Behind(text: string, i: nat): (k: nat)
    requires i <= |text|
    ensures k <= i
  {
    if i > 0 && (text[i - 1] == ' ' || text[i - 1] == '\t') then Behind(text, i - 1) else i
  }

  /** The text before `k` ends with `w` at a word boundary. */
  predicate EndsWithWord(word: WordClass, text: string, k: nat, w: string)
    requires k <= |text|
  {
    |w| <= k && text[k - |w|..k] == w && (k == |w| || !word(text[k - |w| - 1]))
  }

  predicate LooksLikeRegexStart(word: WordClass, text: string, i: nat)
    requires i <= |text|
  {
    var k := Behind(text, i);
    k == 0 || text[k - 1] in REGEX_STARTERS
    || exists m :: 0 <= m < |REGEX_KEYWORDS| && EndsWithWord(word, text, k, REGEX_KEYWORDS[m])
  }

  /** The closing slash of a regular expression whose body is read from `j`, on the same line. */
  function RegexClose(text: string, j: nat, inClass: bool): (r: Option<nat>)
    ensures r.Some? ==> j <= r.value < |text|
    decreases |text| - j
  {
    if j >= |text| || text[j] == '\n' then None
    else if text[j] == '\\' then
      if j + 1 < |text| && text[j + 1] == '\n' then None else
      if j + 2 <= |text| then RegexClose(text, j + 2, inClass) else None
    else if text[j] == '[' then RegexClose(text, j + 1, true)
    else if text[j] == ']' then RegexClose(text, j + 1, false)
    else if text[j] == '/' && !inClass then Some(j)
    else RegexClose(text, j + 1, inClass)
  }

  function LineEnd(text: string, i: nat): (j: nat)
    requires i <= |text|
    ensures i <= j <= |text|
    ensures forall k :: i <= k < j ==> text[k] != '\n'
    ensures j < |text| ==> text[j] == '\n'
    decreases |text| - i
  {
    if i == |text| || text[i] == '\n' then i else LineEnd(text, i + 1)
  }

  /** Just behind the first comment closer at or after `i`, or the end of the text. */
  function BlockEnd(text: string, i: nat): (j: nat)
    requires i <= |text|
    ensures i <= j <= |text|
    decreases |text| - i
  {
    if i + 1 >= |text| then |text| else if text[i] == '*' && text[i + 1] == '/' then i + 2 else BlockEnd(text, i + 1)
  }

  // ---------------------------------------------------------------- one lexical piece

  /** An open string, or an open interpolation with its depth of braces. */
  datatype Frame = Str(quote: char) | Interp(depth: nat)

  predicate InCode(frames: seq<Frame>) { frames == [] || frames[|frames| - 1].Interp? }

  /** Templates and interpolations alternate from the bottom, an interpolation has an open brace, and a quoted
      string is only ever on top. */
  predicate WellNested(frames: seq<Frame>) {
    forall k :: 0 <= k < |frames| ==>
      if k % 2 == 0 then frames[k].Str? && (k < |frames| - 1 ==> frames[k].quote == '`')
      else frames[k].Interp? && frames[k].depth >= 1
  }

  /** What the lexer does at one position: how many characters it passes, whether they are masked, and the
      frames it is then in. */
  datatype Piece = Piece(size: nat, masked: bool, frames: seq<Frame>)

  predicate StartsComment(text: string, i: nat, second: char) {
    i + 1 < |text| && text[i] == '/' && text[i + 1] == second
  }

  /** Comments and slashes of code: the size and whether it is masked, `None` for any other code character. */
  function Slash(word: WordClass, text: string, i: nat): (r: Option<(nat, bool)>)
    requires i < |text|
    ensures r.Some? ==> 1 <= r.value.0 <= |text| - i
  {
    if StartsComment(text, i, '/') then Some((LineEnd(text, i + 2) - i, true))
    else if StartsComment(text, i, '*') then Some((BlockEnd(text, i + 2) - i, true))
    else if text[i] == '/' && LooksLikeRegexStart(word, text, i) then
      var c := RegexClose(text, i + 1, false);
      if c.Some? then Some((c.value + 1 - i, true)) else Some((1, false))
    else None
  }

  predicate Quote(c: char) { c == '\'' || c == '"' || c == '`' }

  function Next(word: WordClass, text: string, i: nat, frames: seq<Frame>): (p: Piece)
    requires i < |text| && WellNested(frames)
    ensures 1 <= p.size <= |text| - i && WellNested(p.frames)
  {
    var c := text[i];
    if InCode(frames) then
      var slash := Slash(word, text, i);
      if slash.Some? then Piece(slash.value.0, slash.value.1, frames)
      else if Quote(c) then Piece(1, false, frames + [Str(c)])
      else if frames == [] then Piece(1, false, frames)
      else
        var d := frames[|frames| - 1].depth;
        var below := frames[..|frames| - 1];
        if c == '{' then Piece(1, false, below + [Interp(d + 1)])
        else if c == '}' then Piece(1, false, if d == 1 then below else below + [Interp(d - 1)])
        else Piece(1, false, frames)
    else
      var quote := frames[|frames| - 1].quote;
      var below := frames[..|frames| - 1];
      if c == '\n' && quote != '`' then Piece(1, false, below)
      else if c == '\\' then Piece(if i + 2 <= |text| then 2 else 1, true, frames)
      else if quote == '`' && c == '$' && i + 1 < |text| && text[i + 1] == '{' then
        Piece(2, false, frames + [Interp(1)])
      else if c == quote then Piece(1, false, below)
      else Piece(1, true, frames)
  }

  function Marks(n: nat, masked: bool): (m: seq<bool>)
    ensures |m| == n && forall k :: 0 <= k < n ==> m[k] == masked
  {
    seq(n, _ => masked)
  }

  /** Which characters from `i` on are masked, read with a stack of frames. */
  function Scan(word: WordClass, text: string, i: nat, frames: seq<Frame>): (m: seq<bool>)
    requires i <= |text| && WellNested(frames)
    ensures |m| == |text| - i
    decreases |text| - i
  {
    if i == |text| then [] else
      var p := Next(word, text, i, frames);
      Marks(p.size, p.masked) + Scan(word, text, i + p.size, p.frames)
  }

  /** Masking keeps newlines and replaces by a space. */
  function Blank(c: char, masked: bool): char { if masked && c != '\n' then ' ' else c }

  function Masked(text: string, marks: seq<bool>): (r: string)
    requires |marks| == |text|
    ensures |r| == |text|
  {
    seq(|text|, k requires 0 <= k < |text| => Blank(text[k], marks[k]))
  }

  function Mask(word: WordClass, text: string): string { Masked(text, Scan(word, text, 0, [])) }

  // ---------------------------------------------------------------- the classifier by recursive descent

  datatype Mode = Top | Hole(depth: nat) | Inside(quote: char)

  /** Which characters belong to the construct open at `i`, and where it ends: strings, templates and the holes
      in them call each other, and there is no stack. */
  function Lex(word: WordClass, text: string, i: nat, mode: Mode): (r: (seq<bool>, nat))
    requires i <= |text|
    ensures i <= r.1 <= |text| && |r.0| == r.1 - i
    ensures mode.Top? ==> r.1 == |text|
    decreases |text| - i
  {
    if i == |text| then ([], i) else
      var c := text[i];
      if mode.Inside? then
        if c == '\n' && mode.quote != '`' then ([false], i + 1)
        else if c == '\\' then Go(word, text, i, if i + 2 <= |text| then 2 else 1, true, mode)
        else if mode.quote == '`' && c == '$' && i + 1 < |text| && text[i + 1] == '{' then
          var hole := Lex(word, text, i + 2, Hole(1));
          var rest := Lex(word, text, hole.1, mode);
          ([false, false] + hole.0 + rest.0, rest.1)
        else if c == mode.quote then ([false], i + 1)
        else Go(word, text, i, 1, true, mode)
      else
        var slash := Slash(word, text, i);
        if slash.Some? then Go(word, text, i, slash.value.0, slash.value.1, mode)
        else if Quote(c) then
          var str := Lex(word, text, i + 1, Inside(c));
          var rest := Lex(word, text, str.1, mode);
          ([false] + str.0 + rest.0, rest.1)
        else if mode.Hole? && c == '{' then Go(word, text, i, 1, false, Hole(mode.depth + 1))
        else if mode.Hole? && c == '}' then
          if mode.depth <= 1 then ([false], i + 1) else Go(word, text, i, 1, false, Hole(mode.depth - 1))
        else Go(word, text, i, 1, false, mode)
  }

  /** Pass `n` characters and go on in `mode`. */
  function Go(word: WordClass, text: string, i: nat, n: nat, masked: bool, mode: Mode): (r: (seq<bool>, nat))
    requires 1 <= n <= |text| - i
    ensures i + n <= r.1 <= |text| && |r.0| == r.1 - i
    ensures mode.Top? ==> r.1 == |text|
    decreases |text| - i, 0
  {
    var rest := Lex(word, text, i + n, mode);
    (Marks(n, masked) + rest.0, rest.1)
  }

  function ModeOf(f: Frame): Mode { match f case Str(q) => Inside(q) case Interp(d) => Hole(d) }

  lemma PopNested(frames: seq<Frame>)
    requires WellNested(frames) && frames != []
    ensures WellNested(frames[..|frames| - 1])
  {
  }

  function TopMode(frames: seq<Frame>): Mode { if frames == [] then Top else ModeOf(frames[|frames| - 1]) }

  /** The classifier at `i` sees the same piece as the stack machine, and passes, enters or leaves with it. */
  lemma LexFollowsNext(word: WordClass, text: string, i: nat, frames: seq<Frame>)
    requires i < |text| && WellNested(frames)
    ensures var p := Next(word, text, i, frames);
      var r := Lex(word, text, i, TopMode(frames));
      if |p.frames| == |frames| + 1 then
        && p.frames[..|frames|] == frames
        && var inner := Lex(word, text, i + p.size, TopMode(p.frames));
           var rest := Lex(word, text, inner.1, TopMode(frames));
           r == (Marks(p.size, p.masked) + inner.0 + rest.0, rest.1)
      else if |p.frames| == |frames| then
        && (frames != [] ==> p.frames[..|frames| - 1] == frames[..|frames| - 1])
        && var rest := Lex(word, text, i + p.size, TopMode(p.frames));
           r == (Marks(p.size, p.masked) + rest.0, rest.1)
      else
        frames != [] && p.frames == frames[..|frames| - 1] && r == (Marks(p.size, p.masked), i + p.size)
  {
    hide Slash;
    assert Marks(1, false) == [false] && Marks(2, false) == [false, false];
  }

  /** The stack machine reads the construct on top of the stack and then goes on below it. */
  ghost predicate Reads(word: WordClass, text: string, i: nat, frames: seq<Frame>)
    requires i <= |text| && WellNested(frames)
  {
    var r := Lex(word, text, i, TopMode(frames));
    if frames == [] then Scan(word, text, i, frames) == r.0
    else WellNested(frames[..|frames| - 1])
         && Scan(word, text, i, frames) == r.0 + Scan(word, text, r.1, frames[..|frames| - 1])
  }

  lemma ScanUnfold(word: WordClass, text: string, i: nat, frames: seq<Frame>)
    requires i < |text| && WellNested(frames)
    ensures var p := Next(word, text, i, frames);
      Scan(word, text, i, frames) == Marks(p.size, p.masked) + Scan(word, text, i + p.size, p.frames)
  {
  }

  lemma Assoc<T>(a: seq<T>, b: seq<T>, c: seq<T>, d: seq<T>)
    ensures a + (b + c) == a + b + c && a + (b + (c + d)) == a + b + c + d
  {
  }

  lemma ReadsPush(word: WordClass, text: string, i: nat, frames: seq<Frame>, p: Piece)
    requires i < |text| && WellNested(frames) && p == Next(word, text, i, frames) && |p.frames| == |frames| + 1
    requires Reads(word, text, i + p.size, p.frames)
    requires Reads(word, text, Lex(word, text, i + p.size, TopMode(p.frames)).1, frames)
    ensures Reads(word, text, i, frames)
  {
    LexFollowsNext(word, text, i, frames);
    ScanUnfold(word, text, i, frames);
    var inner := Lex(word, text, i + p.size, TopMode(p.frames));
    var rest := Lex(word, text, inner.1, TopMode(frames));
    if frames == [] {
      Assoc(Marks(p.size, p.masked), inner.0, rest.0, []);
    } else {
      Assoc(Marks(p.size, p.masked), inner.0, rest.0, Scan(word, text, rest.1, frames[..|frames| - 1]));
    }
  }

  lemma ReadsKeep(word: WordClass, text: string, i: nat, frames: seq<Frame>, p: Piece)
    requires i < |text| && WellNested(frames) && p == Next(word, text, i, frames) && |p.frames| <= |frames|
    requires Reads(word, text, i + p.size, p.frames)
    ensures Reads(word, text, i, frames)
  {
    hide Next, Lex;
    LexFollowsNext(word, text, i, frames);
    ScanUnfold(word, text, i, frames);
    if frames != [] {
      PopNested(frames);
      if |p.frames| == |frames| {
        var rest := Lex(word, text, i + p.size, TopMode(p.frames));
        Assoc(Marks(p.size, p.masked), rest.0, Scan(word, text, rest.1, frames[..|frames| - 1]), []);
      }
    }
  }

  lemma {:induction false} ScanIsLex(word: WordClass, text: string, i: nat, frames: seq<Frame>)
    requires i <= |text| && WellNested(frames)
    ensures Reads(word, text, i, frames)
    decreases |text| - i
  {
    if i == |text| {
      if frames != [] { PopNested(frames); }
    } else {
      hide *;
      var p := Next(word, text, i, frames);
      ScanIsLex(word, text, i + p.size, p.frames);
      if |p.frames| <= |frames| {
        ReadsKeep(word, text, i, frames, p);
      } else {
        LexFollowsNext(word, text, i, frames);
        ScanIsLex(word, text, Lex(word, text, i + p.size, TopMode(p.frames)).1, frames);
        ReadsPush(word, text, i, frames, p);
      }
    }
  }

  /** The loop's classification is the one of the recursive classifier. */
  lemma MaskIsLex(word: WordClass, text: string)
    ensures Mask(word, text) == Masked(text, Lex(word, text, 0, Top).0)
  {
    ScanIsLex(word, text, 0, []);
  }
}

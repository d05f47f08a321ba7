/** The mask of a program that is written out from a syntax tree: comments, the contents of strings and templates, and
    regular expressions go blank, newlines and everything else stay. The trees say what the lexer should recognise; they
    do not use its definitions. */
module MaskSyntax {
  import opened Wrappers
  import opened MaskLexer

  // ---------------------------------------------------------------- trees

  /** A character of a string, or a backslash and any character. */
  datatype Atom = Plain(c: char) | Escaped(c: char)

  /** A character of a regular expression, an escaped one, or a class in brackets. */
  datatype RegexAtom = Single(atom: Atom) | Class(atoms: seq<Atom>)

  /** `Regex`, `LoneSlash` and `Divided` begin with the character that decides what the slash means. */
  datatype Token =
    | Code(c: char)
    | Braces(items: seq<Token>)
    | Quoted(q: char, body: seq<Atom>)
    | Unclosed(q: char, body: seq<Atom>)
    | Template(parts: seq<Part>)
    | LineComment(note: string)
    | BlockComment(note: string)
    | Regex(starter: char, gap: string, pattern: seq<RegexAtom>)
    | LoneSlash(starter: char, gap: string, rest: string)
    | Divided(operand: char, gap: string, next: char)

  datatype Part = Text(atom: Atom) | Hole(items: seq<Token>)

  // ---------------------------------------------------------------- written out

  function RawAtom(a: Atom): string { match a case Plain(c) => [c] case Escaped(c) => ['\\', c] }

  function RawAtoms(s: seq<Atom>): string { if s == [] then "" else RawAtom(s[0]) + RawAtoms(s[1..]) }

  function RawPiece(p: RegexAtom): string {
    match p case Single(a) => RawAtom(a) case Class(s) => "[" + RawAtoms(s) + "]"
  }

  function RawPieces(s: seq<RegexAtom>): string { if s == [] then "" else RawPiece(s[0]) + RawPieces(s[1..]) }

  function Raw(t: Token): string
    decreases t
  {
    match t
    case Code(c) => [c]
    case Braces(items) => "{" + RawAll(items) + "}"
    case Quoted(q, body) => [q] + RawAtoms(body) + [q]
    case Unclosed(q, body) => [q] + RawAtoms(body) + "\n"
    case Template(parts) => "`" + RawParts(parts) + "`"
    case LineComment(body) => "//" + body + "\n"
    case BlockComment(body) => "/*" + body + "*/"
    case Regex(starter, gap, body) => [starter] + gap + "/" + RawPieces(body) + "/"
    case LoneSlash(starter, gap, rest) => [starter] + gap + "/" + rest + "\n"
    case Divided(operand, gap, next) => [operand] + gap + "/" + [next]
  }

  function RawAll(ts: seq<Token>): string
    decreases ts
  {
    if ts == [] then "" else Raw(ts[0]) + RawAll(ts[1..])
  }

  function RawPart(p: Part): string
    decreases p
  {
    match p case Text(a) => RawAtom(a) case Hole(items) => "${" + RawAll(items) + "}"
  }

  function RawParts(ps: seq<Part>): string
    decreases ps
  {
    if ps == [] then "" else RawPart(ps[0]) + RawParts(ps[1..])
  }

  // ---------------------------------------------------------------- blanked out

  /** As many spaces, with the newlines in place. */
  function Spaces(s: string): (r: string)
    ensures |r| == |s|
  {
    seq(|s|, k requires 0 <= k < |s| => if s[k] == '\n' then '\n' else ' ')
  }

  function Seen(t: Token): string
    decreases t
  {
    match t
    case Code(c) => [c]
    case Braces(items) => "{" + SeenAll(items) + "}"
    case Quoted(q, body) => [q] + Spaces(RawAtoms(body)) + [q]
    case Unclosed(q, body) => [q] + Spaces(RawAtoms(body)) + "\n"
    case Template(parts) => "`" + SeenParts(parts) + "`"
    case LineComment(body) => Spaces("//" + body) + "\n"
    case BlockComment(body) => Spaces("/*" + body + "*/")
    case Regex(starter, gap, body) => [starter] + gap + Spaces("/" + RawPieces(body) + "/")
    case LoneSlash(_, _, _) => Raw(t)
    case Divided(_, _, _) => Raw(t)
  }

  function SeenAll(ts: seq<Token>): string
    decreases ts
  {
    if ts == [] then "" else Seen(ts[0]) + SeenAll(ts[1..])
  }

  function SeenPart(p: Part): string
    decreases p
  {
    match p case Text(a) => Spaces(RawAtom(a)) case Hole(items) => "${" + SeenAll(items) + "}"
  }

  function SeenParts(ps: seq<Part>): string
    decreases ps
  {
    if ps == [] then "" else SeenPart(ps[0]) + SeenParts(ps[1..])
  }

  /** What a program may end with before it is complete. */
  datatype Tail =
    | Complete
    | OpenLine(note: string)
    | OpenBlock(note: string)
    | OpenString(q: char, body: seq<Atom>)
    | OpenTemplate(parts: seq<Part>)

  function RawTail(t: Tail): string {
    match t
    case Complete => ""
    case OpenLine(note) => "//" + note
    case OpenBlock(note) => "/*" + note
    case OpenString(q, body) => [q] + RawAtoms(body)
    case OpenTemplate(parts) => "`" + RawParts(parts)
  }

  function SeenTail(t: Tail): string {
    match t
    case Complete => ""
    case OpenLine(note) => Spaces("//" + note)
    case OpenBlock(note) => Spaces("/*" + note)
    case OpenString(q, body) => [q] + Spaces(RawAtoms(body))
    case OpenTemplate(parts) => "`" + SeenParts(parts)
  }

  // ---------------------------------------------------------------- well-formed trees

  /** The characters behind which a slash begins a regular expression, except for the braces. */
  predicate Starter(c: char) {
    c in {'(', ',', '=', ':', '[', '!', '&', '|', '?', ';', '+', '-', '*', '%', '~', '^', '>'}
  }

  predicate Operand(c: char) { c == ')' || c == ']' || '0' <= c <= '9' }

  predicate Plainly(c: char) { c !in {'\'', '"', '`', '/', '{', '}'} }

  predicate Gap(s: string) { forall k :: 0 <= k < |s| ==> s[k] == ' ' || s[k] == '\t' }

  predicate AtomFits(a: Atom, q: char) { a.Escaped? || (a.c != q && a.c != '\\' && (q != '`' ==> a.c != '\n')) }

  predicate AtomsFit(s: seq<Atom>, q: char) { forall k :: 0 <= k < |s| ==> AtomFits(s[k], q) }

  predicate PieceFits(p: RegexAtom) {
    match p
    case Single(a) => a.c != '\n' && (a.Plain? ==> a.c !in {'/', '\\', '['})
    case Class(s) => forall k :: 0 <= k < |s| ==> s[k].c != '\n' && (s[k].Plain? ==> s[k].c !in {']', '\\'})
  }

  /** Text of a template does not look like an interpolation. */
  predicate Apart(ps: seq<Part>) {
    forall k :: 0 <= k < |ps| - 1 ==> !(ps[k] == Text(Plain('$')) && ps[k + 1] == Text(Plain('{')))
  }

  /** No comment closer. */
  predicate Unended(s: string) { forall k :: 0 <= k < |s| - 1 ==> !(s[k] == '*' && s[k + 1] == '/') }

  predicate FitsTail(t: Tail) {
    match t
    case Complete => true
    case OpenLine(note) => '\n' !in note
    case OpenBlock(note) => Unended(note)
    case OpenString(q, body) => q in {'\'', '"'} && AtomsFit(body, q)
    case OpenTemplate(parts) => FitsParts(parts) && Apart(parts)
  }

  predicate Fits(t: Token)
    decreases t
  {
    match t
    case Code(c) => Plainly(c)
    case Braces(items) => FitsAll(items)
    case Quoted(q, body) => q in {'\'', '"'} && AtomsFit(body, q)
    case Unclosed(q, body) => q in {'\'', '"'} && AtomsFit(body, q)
    case Template(parts) => FitsParts(parts) && Apart(parts)
    case LineComment(body) => '\n' !in body
    case BlockComment(body) => Unended(body)
    case Regex(starter, gap, body) =>
      && Starter(starter) && Gap(gap) && body != [] && body[0] != Single(Plain('*'))
      && forall k :: 0 <= k < |body| ==> PieceFits(body[k])
    case LoneSlash(starter, gap, rest) =>
      && Starter(starter) && Gap(gap) && (rest != "" ==> rest[0] != '*')
      && forall k :: 0 <= k < |rest| ==> Plainly(rest[k]) && rest[k] != '\\' && rest[k] != '\n'
    case Divided(operand, gap, next) => Operand(operand) && Gap(gap) && Plainly(next) && next != '*'
  }

  predicate FitsAll(ts: seq<Token>)
    decreases ts
  {
    ts == [] || (Fits(ts[0]) && FitsAll(ts[1..]))
  }

  predicate FitsParts(ps: seq<Part>)
    decreases ps
  {
    ps == [] || (FitsPart(ps[0]) && FitsParts(ps[1..]))
  }

  predicate FitsPart(p: Part)
    decreases p
  {
    match p case Text(a) => AtomFits(a, '`') case Hole(items) => FitsAll(items)
  }

  // ---------------------------------------------------------------- reading a piece of text

  /** The mask from `i` on, read with a stack of frames. */
  function MaskFrom(word: WordClass, text: string, i: nat, frames: seq<Frame>): string
    requires i <= |text| && WellNested(frames)
  {
    Masked(text[i..], Scan(word, text, i, frames))
  }

  function Shown(s: string, masked: bool): string { if masked then Spaces(s) else s }

  lemma OnePiece(word: WordClass, text: string, i: nat, frames: seq<Frame>)
    requires i < |text| && WellNested(frames)
    ensures var p := Next(word, text, i, frames);
      MaskFrom(word, text, i, frames)
      == Shown(text[i..i + p.size], p.masked) + MaskFrom(word, text, i + p.size, p.frames)
  {
    hide Next, Scan;
    ScanUnfold(word, text, i, frames);
    var p := Next(word, text, i, frames);
    var rest := Scan(word, text, i + p.size, p.frames);
    assert text[i..] == text[i..i + p.size] + text[i + p.size..];
  }

  predicate Stands(text: string, i: nat, s: string) { i + |s| <= |text| && text[i..i + |s|] == s }

  lemma StandsSplit(text: string, i: nat, a: string, b: string)
    requires Stands(text, i, a + b)
    ensures Stands(text, i, a) && Stands(text, i + |a|, b)
  {
    assert text[i..i + |a|] == text[i..i + |a + b|][..|a|];
    assert text[i + |a|..i + |a| + |b|] == text[i..i + |a + b|][|a|..];
  }

  lemma StandsFirst(text: string, i: nat, c: char, s: string)
    requires Stands(text, i, [c] + s)
    ensures text[i] == c && Stands(text, i + 1, s)
  {
    StandsSplit(text, i, [c], s);
    assert text[i..i + 1][0] == c;
  }

  /** A text between two characters. */
  lemma StandsBetween(text: string, i: nat, a: string, raw: string, b: string)
    requires Stands(text, i, a + raw + b)
    ensures Stands(text, i, a) && Stands(text, i + |a|, raw) && Stands(text, i + |a| + |raw|, b)
    ensures i + |a| + |raw| + |b| <= |text|
    ensures |a| == 1 ==> text[i] == a[0]
    ensures |b| == 1 ==> text[i + |a| + |raw|] == b[0]
  {
    StandsSplit(text, i, a + raw, b);
    StandsSplit(text, i, a, raw);
    if |a| == 1 { assert text[i..i + 1][0] == a[0]; }
    if |b| == 1 { assert text[i + |a| + |raw|..i + |a| + |raw| + 1][0] == b[0]; }
  }

  lemma SpacesSplit(a: string, b: string)
    ensures Spaces(a + b) == Spaces(a) + Spaces(b)
  {
  }

  /** Reading from `i` in `frames` gets to `j` in `frames'` and shows `shown` of what lies between. */
  ghost predicate Yields(word: WordClass, text: string, i: nat, frames: seq<Frame>, j: nat, frames': seq<Frame>,
                        shown: string) {
    && i <= j <= |text| && WellNested(frames) && WellNested(frames')
    && MaskFrom(word, text, i, frames) == shown + MaskFrom(word, text, j, frames')
  }

  lemma Nothing(word: WordClass, text: string, i: nat, frames: seq<Frame>)
    requires i <= |text| && WellNested(frames)
    ensures Yields(word, text, i, frames, i, frames, "")
  {
    assert "" + MaskFrom(word, text, i, frames) == MaskFrom(word, text, i, frames);
  }

  lemma Chain(word: WordClass, text: string, i: nat, f: seq<Frame>, j: nat, g: seq<Frame>, k: nat, h: seq<Frame>,
              a: string, b: string)
    requires Yields(word, text, i, f, j, g, a) && Yields(word, text, j, g, k, h, b)
    ensures Yields(word, text, i, f, k, h, a + b)
  {
    hide MaskFrom;
    assert a + (b + MaskFrom(word, text, k, h)) == a + b + MaskFrom(word, text, k, h);
  }

  lemma YieldsPiece(word: WordClass, text: string, i: nat, frames: seq<Frame>, p: Piece)
    requires i < |text| && WellNested(frames) && Next(word, text, i, frames) == p
    ensures Yields(word, text, i, frames, i + p.size, p.frames, Shown(text[i..i + p.size], p.masked))
  {
    hide Next, Scan, Masked, Shown;
    OnePiece(word, text, i, frames);
  }

  lemma YieldsOne(word: WordClass, text: string, i: nat, frames: seq<Frame>, frames': seq<Frame>)
    requires i < |text| && WellNested(frames) && Next(word, text, i, frames) == Piece(1, false, frames')
    ensures Yields(word, text, i, frames, i + 1, frames', [text[i]])
  {
    hide Next, MaskFrom, Yields;
    YieldsPiece(word, text, i, frames, Piece(1, false, frames'));
    assert text[i..i + 1] == [text[i]];
  }

  // ---------------------------------------------------------------- code

  /** Code characters that begin nothing pass unchanged. */
  lemma PlainCode(word: WordClass, text: string, i: nat, frames: seq<Frame>)
    requires i < |text| && WellNested(frames) && InCode(frames) && Plainly(text[i])
    ensures Yields(word, text, i, frames, i + 1, frames, [text[i]])
  {
    hide Yields;
    assert Next(word, text, i, frames) == Piece(1, false, frames) by { NextPlain(word, text, i, frames); }
    YieldsOne(word, text, i, frames, frames);
  }

  lemma NextPlain(word: WordClass, text: string, i: nat, frames: seq<Frame>)
    requires i < |text| && WellNested(frames) && InCode(frames) && Plainly(text[i])
    ensures Next(word, text, i, frames) == Piece(1, false, frames)
  {
    hide WellNested, LooksLikeRegexStart, RegexClose;
    assert Slash(word, text, i) == None;
    assert !Quote(text[i]);
  }

  lemma {:induction false} PlainCodes(word: WordClass, text: string, i: nat, frames: seq<Frame>, s: string)
    requires WellNested(frames) && InCode(frames) && Stands(text, i, s) && forall k :: 0 <= k < |s| ==> Plainly(s[k])
    ensures Yields(word, text, i, frames, i + |s|, frames, s)
    decreases |s|
  {
    hide Yields, Plainly;
    if s == "" {
      Nothing(word, text, i, frames);
    } else {
      assert s == [s[0]] + s[1..];
      StandsFirst(text, i, s[0], s[1..]);
      PlainCode(word, text, i, frames);
      PlainCodes(word, text, i + 1, frames, s[1..]);
      Chain(word, text, i, frames, i + 1, frames, i + |s|, frames, [s[0]], s[1..]);
    }
  }

  // ---------------------------------------------------------------- strings

  predicate InString(frames: seq<Frame>, q: char) { frames != [] && frames[|frames| - 1] == Str(q) }

  lemma OneAtom(word: WordClass, text: string, i: nat, frames: seq<Frame>, q: char, a: Atom)
    requires WellNested(frames) && InString(frames, q) && Stands(text, i, RawAtom(a)) && AtomFits(a, q)
    requires q == '`' && a == Plain('$') && i + 1 < |text| ==> text[i + 1] != '{'
    ensures Yields(word, text, i, frames, i + |RawAtom(a)|, frames, Spaces(RawAtom(a)))
  {
    hide Next, Yields;
    NextAtom(word, text, i, frames, q, a);
    YieldsPiece(word, text, i, frames, Piece(|RawAtom(a)|, true, frames));
  }

  lemma NextAtom(word: WordClass, text: string, i: nat, frames: seq<Frame>, q: char, a: Atom)
    requires WellNested(frames) && InString(frames, q) && Stands(text, i, RawAtom(a)) && AtomFits(a, q)
    requires q == '`' && a == Plain('$') && i + 1 < |text| ==> text[i + 1] != '{'
    ensures i < |text| && Next(word, text, i, frames) == Piece(|RawAtom(a)|, true, frames)
  {
    hide Slash, WellNested;
    assert text[i] == text[i..i + |RawAtom(a)|][0];
  }

  lemma {:induction false} Atoms(word: WordClass, text: string, i: nat, frames: seq<Frame>, q: char, s: seq<Atom>)
    requires WellNested(frames) && InString(frames, q) && q != '`' && Stands(text, i, RawAtoms(s)) && AtomsFit(s, q)
    ensures Yields(word, text, i, frames, i + |RawAtoms(s)|, frames, Spaces(RawAtoms(s)))
    decreases |s|
  {
    hide Yields, AtomFits;
    if s == [] {
      Nothing(word, text, i, frames);
      assert Spaces("") == "";
    } else {
      var raw, rest := RawAtom(s[0]), RawAtoms(s[1..]);
      StandsSplit(text, i, raw, rest);
      OneAtom(word, text, i, frames, q, s[0]);
      Atoms(word, text, i + |raw|, frames, q, s[1..]);
      Chain(word, text, i, frames, i + |raw|, frames, i + |raw| + |rest|, frames, Spaces(raw), Spaces(rest));
      SpacesSplit(raw, rest);
    }
  }

  /** A quote in code opens a string, and the same quote in the string closes it, as does a newline if it is not a
      template's. */
  lemma OpensString(word: WordClass, text: string, i: nat, frames: seq<Frame>)
    requires i < |text| && WellNested(frames) && InCode(frames) && text[i] in {'\'', '"', '`'}
    ensures Yields(word, text, i, frames, i + 1, frames + [Str(text[i])], [text[i]])
  {
    hide Yields;
    assert Next(word, text, i, frames) == Piece(1, false, frames + [Str(text[i])]);
    YieldsOne(word, text, i, frames, frames + [Str(text[i])]);
  }

  lemma ClosesString(word: WordClass, text: string, i: nat, frames: seq<Frame>, q: char)
    requires i < |text| && WellNested(frames) && InCode(frames) && q in {'\'', '"', '`'}
    requires WellNested(frames + [Str(q)]) && (text[i] == q || (text[i] == '\n' && q != '`'))
    ensures Yields(word, text, i, frames + [Str(q)], i + 1, frames, [text[i]])
  {
    hide Yields;
    var inside := frames + [Str(q)];
    assert inside[..|inside| - 1] == frames;
    assert Next(word, text, i, inside) == Piece(1, false, frames);
    YieldsOne(word, text, i, inside, frames);
  }

  lemma InsideIsNested(word: WordClass, text: string, i: nat, f: seq<Frame>, j: nat, g: seq<Frame>, shown: string)
    requires Yields(word, text, i, f, j, g, shown)
    ensures WellNested(g) && j <= |text|
  {
  }

  lemma StringToken(word: WordClass, text: string, i: nat, frames: seq<Frame>, q: char, body: seq<Atom>, end: char)
    requires WellNested(frames) && InCode(frames) && q in {'\'', '"'} && AtomsFit(body, q) && end in {q, '\n'}
    requires Stands(text, i, [q] + RawAtoms(body) + [end])
    ensures Yields(word, text, i, frames, i + |RawAtoms(body)| + 2, frames, [q] + Spaces(RawAtoms(body)) + [end])
  {
    hide Yields, RawAtoms, AtomsFit, WellNested;
    var raw, inside := RawAtoms(body), frames + [Str(q)];
    var j := i + 1 + |raw|;
    StandsBetween(text, i, [q], raw, [end]);
    OpensString(word, text, i, frames);
    InsideIsNested(word, text, i, frames, i + 1, inside, [q]);
    Atoms(word, text, i + 1, inside, q, body);
    Chain(word, text, i, frames, i + 1, inside, j, inside, [q], Spaces(raw));
    ClosesString(word, text, j, frames, q);
    Chain(word, text, i, frames, j, inside, j + 1, frames, [q] + Spaces(raw), [end]);
  }

  // ---------------------------------------------------------------- comments

  lemma LineEndAt(text: string, i: nat, note: string)
    requires Stands(text, i, note + "\n") && '\n' !in note
    ensures LineEnd(text, i) == i + |note|
  {
    var raw := note + "\n";
    assert forall k :: 0 <= k < |raw| ==> text[i + k] == text[i..i + |raw|][k] == raw[k];
    assert forall k :: 0 <= k < |note| ==> note[k] != '\n' && text[i + k] == raw[k] == note[k];
    assert text[i + |note|] == '\n';
    var j := LineEnd(text, i);
    assert j < |text| ==> text[i + (j - i)] == '\n';
  }

  lemma NextLineComment(word: WordClass, text: string, i: nat, frames: seq<Frame>, n: nat)
    requires WellNested(frames) && InCode(frames) && i + 2 <= i + n <= |text| && Stands(text, i, "//")
    requires LineEnd(text, i + 2) == i + n
    ensures Next(word, text, i, frames) == Piece(n, true, frames)
  {
    hide LooksLikeRegexStart, RegexClose, LineEnd, BlockEnd, WellNested;
    assert text[i] == text[i..i + 2][0] == '/' && text[i + 1] == text[i..i + 2][1] == '/';
  }

  lemma LineCommentToken(word: WordClass, text: string, i: nat, frames: seq<Frame>, note: string)
    requires WellNested(frames) && InCode(frames) && '\n' !in note && Stands(text, i, "//" + note + "\n")
    ensures Yields(word, text, i, frames, i + |note| + 3, frames, Spaces("//" + note) + "\n")
  {
    hide *;
    var n := 2 + |note|;
    LineCommentParts(text, i, note);
    LineEndAt(text, i + 2, note);
    NextLineComment(word, text, i, frames, n);
    YieldsPiece(word, text, i, frames, Piece(n, true, frames));
    PlainCode(word, text, i + n, frames);
    Chain(word, text, i, frames, i + n, frames, i + n + 1, frames, Spaces("//" + note), "\n");
  }

  lemma LineCommentParts(text: string, i: nat, note: string)
    requires Stands(text, i, "//" + note + "\n")
    ensures var e := i + 2 + |note|;
      && e < |text| && text[e] == '\n' && Plainly(text[e]) && [text[e]] == "\n"
      && Stands(text, i, "//") && Stands(text, i + 2, note + "\n")
      && Shown(text[i..e], true) == Spaces("//" + note)
  {
    StandsBetween(text, i, "//", note, "\n");
    StandsSplit(text, i, "//" + note, "\n");
    Regrouped("//", note, "\n");
    StandsSplit(text, i, "//", note + "\n");
  }

  lemma {:induction false} BlockEndAt(text: string, j: nat, e: nat)
    requires j <= e && e + 1 < |text| && text[e] == '*' && text[e + 1] == '/'
    requires forall k :: j <= k < e ==> !(text[k] == '*' && text[k + 1] == '/')
    ensures BlockEnd(text, j) == e + 2
    decreases e - j
  {
    if j < e { BlockEndAt(text, j + 1, e); }
  }

  lemma BlockCommentToken(word: WordClass, text: string, i: nat, frames: seq<Frame>, note: string)
    requires WellNested(frames) && InCode(frames) && Fits(BlockComment(note)) && Stands(text, i, "/*" + note + "*/")
    ensures Yields(word, text, i, frames, i + |note| + 4, frames, Spaces("/*" + note + "*/"))
  {
    hide Yields;
    var raw := "/*" + note + "*/";
    var e := i + 2 + |note|;
    assert forall k :: 0 <= k < |raw| ==> text[i + k] == text[i..i + |raw|][k] == raw[k];
    assert text[i] == raw[0] && text[i + 1] == raw[1] && text[e] == raw[|note| + 2] && text[e + 1] == raw[|note| + 3];
    forall k | i + 2 <= k < e ensures !(text[k] == '*' && text[k + 1] == '/') {
      assert text[k] == raw[k - i] == note[k - i - 2] && text[k + 1] == raw[k + 1 - i];
    }
    BlockEndAt(text, i + 2, e);
    assert Next(word, text, i, frames) == Piece(|raw|, true, frames);
    YieldsPiece(word, text, i, frames, Piece(|raw|, true, frames));
  }

  // ---------------------------------------------------------------- slashes

  predicate Blanks(c: char) { c == ' ' || c == '\t' }

  lemma {:induction false} BehindGap(text: string, k: nat, i: nat)
    requires k <= i <= |text| && (k == 0 || !Blanks(text[k - 1])) && forall j :: k <= j < i ==> Blanks(text[j])
    ensures Behind(text, i) == k
  {
    if k < i { BehindGap(text, k, i - 1); }
  }

  /** The words behind which a slash begins a regular expression. */
  predicate StarterWord(w: string) {
    w in {"return", "typeof", "instanceof", "in", "of", "new", "delete", "void", "throw", "case", "do", "else", "yield",
          "await"}
  }

  /** The text before `k` ends with the word `w` on its own. */
  predicate WordBefore(word: WordClass, text: string, k: nat, w: string)
    requires k <= |text|
  {
    |w| <= k && text[k - |w|..k] == w && (k == |w| || !word(text[k - |w| - 1]))
  }

  /** A slash may begin a regular expression exactly if, blanks apart, nothing stands before it, or one of these
      characters, or one of these words on its own. */
  lemma RegexStartIff(word: WordClass, text: string, k: nat, i: nat)
    requires k <= i <= |text| && (k == 0 || !Blanks(text[k - 1])) && forall j :: k <= j < i ==> Blanks(text[j])
    ensures LooksLikeRegexStart(word, text, i) <==>
            k == 0 || Starter(text[k - 1]) || text[k - 1] == '{' || text[k - 1] == '}'
            || exists w :: StarterWord(w) && WordBefore(word, text, k, w)
  {
    BehindGap(text, k, i);
    if k > 0 { StarterIff(text[k - 1]); }
    WordsBefore(word, text, k);
    hide REGEX_KEYWORDS, StarterWord, WordBefore, EndsWithWord, REGEX_STARTERS, Behind, Starter;
  }

  lemma StarterIff(c: char)
    ensures c in REGEX_STARTERS <==> Starter(c) || c == '{' || c == '}'
  {
  }

  lemma WordsBefore(word: WordClass, text: string, k: nat)
    requires k <= |text|
    ensures (exists m :: 0 <= m < |REGEX_KEYWORDS| && EndsWithWord(word, text, k, REGEX_KEYWORDS[m]))
        <==> exists w :: StarterWord(w) && WordBefore(word, text, k, w)
  {
    hide REGEX_KEYWORDS, StarterWord;
    forall m | 0 <= m < |REGEX_KEYWORDS| && EndsWithWord(word, text, k, REGEX_KEYWORDS[m])
      ensures StarterWord(REGEX_KEYWORDS[m]) && WordBefore(word, text, k, REGEX_KEYWORDS[m])
    {
      KeywordIff(REGEX_KEYWORDS[m]);
    }
    forall w | StarterWord(w) && WordBefore(word, text, k, w)
      ensures exists m :: 0 <= m < |REGEX_KEYWORDS| && EndsWithWord(word, text, k, REGEX_KEYWORDS[m])
    {
      KeywordIff(w);
      var m :| 0 <= m < |REGEX_KEYWORDS| && REGEX_KEYWORDS[m] == w;
    }
  }

  lemma KeywordIff(w: string)
    ensures StarterWord(w) <==> exists m :: 0 <= m < |REGEX_KEYWORDS| && REGEX_KEYWORDS[m] == w
  {
    if StarterWord(w) {
      assert REGEX_KEYWORDS[0] == "return" && REGEX_KEYWORDS[1] == "typeof" && REGEX_KEYWORDS[2] == "instanceof";
      assert REGEX_KEYWORDS[3] == "in" && REGEX_KEYWORDS[4] == "of" && REGEX_KEYWORDS[5] == "new";
      assert REGEX_KEYWORDS[6] == "delete" && REGEX_KEYWORDS[7] == "void" && REGEX_KEYWORDS[8] == "throw";
      assert REGEX_KEYWORDS[9] == "case" && REGEX_KEYWORDS[10] == "do" && REGEX_KEYWORDS[11] == "else";
      assert REGEX_KEYWORDS[12] == "yield" && REGEX_KEYWORDS[13] == "await";
    }
  }

  /** The opening of a token that begins with the character deciding about its slash. */
  lemma DecidedSlash(word: WordClass, text: string, i: nat, frames: seq<Frame>, c: char, gap: string, rest: string)
    requires WellNested(frames) && InCode(frames) && Plainly(c) && !Blanks(c) && Gap(gap)
    requires Stands(text, i, [c] + gap + "/" + rest)
    ensures var k := i + 1 + |gap|;
      && k < |text| && text[k] == '/' && Stands(text, k + 1, rest) && text[i] == c
      && Yields(word, text, i, frames, k, frames, [c] + gap)
      && (LooksLikeRegexStart(word, text, k) <==>
            Starter(c) || exists w :: StarterWord(w) && WordBefore(word, text, i + 1, w))
  {
    hide Yields, StarterWord, WordBefore, LooksLikeRegexStart, Starter;
    var k := i + 1 + |gap|;
    StandsBetween(text, i, [c] + gap, "/", rest);
    StandsBetween(text, i, [c], gap, "");
    assert [c] + gap + "" == [c] + gap;
    assert text[k] == text[k..k + 1][0] == '/';
    assert forall j :: 0 <= j < |gap| ==> text[i + 1 + j] == text[i + 1..k][j] == gap[j];
    forall j | i + 1 <= j < k ensures Blanks(text[j]) { assert text[i + 1 + (j - i - 1)] == gap[j - i - 1]; }
    PlainCode(word, text, i, frames);
    PlainCodes(word, text, i + 1, frames, gap);
    Chain(word, text, i, frames, i + 1, frames, k, frames, [c], gap);
    RegexStartIff(word, text, i + 1, k);
    assert Starter(text[i]) || (text[i] != '{' && text[i] != '}');
  }

  lemma RegexAtomCloses(text: string, j: nat, a: Atom, inClass: bool)
    requires Stands(text, j, RawAtom(a)) && a.c != '\n'
    requires a.Plain? ==> a.c != '\\' && (if inClass then a.c != ']' else a.c != '/' && a.c != '[')
    ensures RegexClose(text, j, inClass) == RegexClose(text, j + |RawAtom(a)|, inClass)
  {
    var raw := RawAtom(a);
    assert forall k :: 0 <= k < |raw| ==> text[j + k] == text[j..j + |raw|][k] == raw[k];
    assert text[j] == raw[0];
    if a.Escaped? { assert text[j + 1] == raw[1]; }
  }

  lemma {:induction false} ClassCloses(text: string, j: nat, s: seq<Atom>)
    requires Stands(text, j, RawAtoms(s)) && PieceFits(Class(s))
    ensures RegexClose(text, j, true) == RegexClose(text, j + |RawAtoms(s)|, true)
    decreases |s|
  {
    hide RegexClose;
    if s != [] {
      StandsSplit(text, j, RawAtom(s[0]), RawAtoms(s[1..]));
      RegexAtomCloses(text, j, s[0], true);
      ClassCloses(text, j + |RawAtom(s[0])|, s[1..]);
    }
  }

  lemma PieceCloses(text: string, j: nat, p: RegexAtom)
    requires Stands(text, j, RawPiece(p)) && PieceFits(p)
    ensures RegexClose(text, j, false) == RegexClose(text, j + |RawPiece(p)|, false)
  {
    match p
    case Single(a) => RegexAtomCloses(text, j, a, false);
    case Class(s) =>
      StandsBetween(text, j, "[", RawAtoms(s), "]");
      ClassCloses(text, j + 1, s);
  }

  lemma Regrouped(a: string, b: string, c: string)
    ensures a + b + c == a + (b + c)
  {
  }

  lemma {:induction false} PiecesPass(text: string, j: nat, s: seq<RegexAtom>)
    requires Stands(text, j, RawPieces(s)) && forall k :: 0 <= k < |s| ==> PieceFits(s[k])
    ensures RegexClose(text, j, false) == RegexClose(text, j + |RawPieces(s)|, false)
    decreases |s|
  {
    hide RegexClose, PieceFits, RawPiece;
    if s != [] {
      StandsSplit(text, j, RawPiece(s[0]), RawPieces(s[1..]));
      PieceCloses(text, j, s[0]);
      PiecesPass(text, j + |RawPiece(s[0])|, s[1..]);
    }
  }

  lemma PiecesClose(text: string, j: nat, s: seq<RegexAtom>)
    requires Stands(text, j, RawPieces(s) + "/") && forall k :: 0 <= k < |s| ==> PieceFits(s[k])
    ensures RegexClose(text, j, false) == Some(j + |RawPieces(s)|)
  {
    hide PieceFits, RawPieces;
    StandsSplit(text, j, RawPieces(s), "/");
    var k := j + |RawPieces(s)|;
    assert text[k] == text[k..k + 1][0] == '/';
    assert RegexClose(text, k, false) == Some(k);
    hide RegexClose, Stands;
    PiecesPass(text, j, s);
  }

  lemma FirstOfPattern(s: seq<RegexAtom>)
    requires s != [] && PieceFits(s[0]) && s[0] != Single(Plain('*'))
    ensures RawPieces(s) != "" && RawPieces(s)[0] != '/' && RawPieces(s)[0] != '*' && RawPieces(s)[0] != '\n'
  {
    assert RawPieces(s)[0] == RawPiece(s[0])[0];
  }

  lemma NextRegex(word: WordClass, text: string, k: nat, frames: seq<Frame>, raw: string)
    requires WellNested(frames) && InCode(frames) && k < |text| && text[k] == '/' && LooksLikeRegexStart(word, text, k)
    requires raw != "" && raw[0] != '/' && raw[0] != '*' && Stands(text, k + 1, raw + "/")
    requires RegexClose(text, k + 1, false) == Some(k + 1 + |raw|)
    ensures Yields(word, text, k, frames, k + |raw| + 2, frames, Spaces("/" + raw + "/"))
  {
    hide LooksLikeRegexStart, RegexClose, WellNested, Yields;
    var n := |raw| + 2;
    assert text[k + 1] == text[k + 1..k + n][0] == raw[0];
    assert Slash(word, text, k) == Some((n, true));
    YieldsPiece(word, text, k, frames, Piece(n, true, frames));
    assert text[k..k + n] == "/" + raw + "/" by { assert text[k + 1..k + n] == raw + "/"; }
  }

  lemma RegexFits(c: char, gap: string, pattern: seq<RegexAtom>)
    requires Fits(Regex(c, gap, pattern))
    ensures Starter(c) && Plainly(c) && !Blanks(c) && Gap(gap) && pattern != [] && pattern[0] != Single(Plain('*'))
    ensures forall k :: 0 <= k < |pattern| ==> PieceFits(pattern[k])
  {
  }

  lemma RegexToken(word: WordClass, text: string, i: nat, frames: seq<Frame>, c: char, gap: string,
                   pattern: seq<RegexAtom>)
    requires WellNested(frames) && InCode(frames) && Fits(Regex(c, gap, pattern))
    requires Stands(text, i, [c] + gap + "/" + RawPieces(pattern) + "/")
    ensures Yields(word, text, i, frames, i + |gap| + |RawPieces(pattern)| + 3, frames,
                   [c] + gap + Spaces("/" + RawPieces(pattern) + "/"))
  {
    var raw := RawPieces(pattern);
    var k := i + 1 + |gap|;
    hide *;
    RegexFits(c, gap, pattern);
    FirstOfPattern(pattern);
    Regrouped([c] + gap + "/", raw, "/");
    DecidedSlash(word, text, i, frames, c, gap, raw + "/");
    PiecesClose(text, k + 1, pattern);
    NextRegex(word, text, k, frames, raw);
    Chain(word, text, i, frames, k, frames, k + |raw| + 2, frames, [c] + gap, Spaces("/" + raw + "/"));
  }

  /** A slash that is neither a comment's nor a regular expression's is plain code. */
  lemma PlainSlash(word: WordClass, text: string, k: nat, frames: seq<Frame>)
    requires WellNested(frames) && InCode(frames) && k < |text| && text[k] == '/'
    requires k + 1 < |text| ==> text[k + 1] != '/' && text[k + 1] != '*'
    requires LooksLikeRegexStart(word, text, k) ==> RegexClose(text, k + 1, false) == None
    ensures Yields(word, text, k, frames, k + 1, frames, "/")
  {
    hide LooksLikeRegexStart, RegexClose, WellNested, Yields;
    assert Next(word, text, k, frames) == Piece(1, false, frames);
    YieldsOne(word, text, k, frames, frames);
    assert [text[k]] == "/";
  }

  lemma {:induction false} NeverCloses(text: string, j: nat, e: nat, inClass: bool)
    requires j <= e < |text| && text[e] == '\n'
    requires forall k :: j <= k < e ==> text[k] != '/' && text[k] != '\\'
    ensures RegexClose(text, j, inClass) == None
    decreases e - j
  {
    if j < e && text[j] != '\n' {
      NeverCloses(text, j + 1, e, if text[j] == '[' then true else if text[j] == ']' then false else inClass);
    }
  }

  lemma LoneSlashFits(c: char, gap: string, rest: string)
    requires Fits(LoneSlash(c, gap, rest))
    ensures var line := rest + "\n";
      && Starter(c) && Plainly(c) && !Blanks(c) && Gap(gap)
      && line != "" && |line| == |rest| + 1 && line[|line| - 1] == '\n' && line[0] != '*'
      && forall j :: 0 <= j < |line| ==> Plainly(line[j]) && line[j] != '\\'
  {
  }

  lemma LoneSlashToken(word: WordClass, text: string, i: nat, frames: seq<Frame>, c: char, gap: string, rest: string)
    requires WellNested(frames) && InCode(frames) && Fits(LoneSlash(c, gap, rest))
    requires Stands(text, i, [c] + gap + "/" + rest + "\n")
    ensures Yields(word, text, i, frames, i + |gap| + |rest| + 3, frames, [c] + gap + "/" + rest + "\n")
  {
    var line := rest + "\n";
    var k := i + 1 + |gap|;
    hide *;
    LoneSlashFits(c, gap, rest);
    Regrouped([c] + gap + "/", rest, "\n");
    DecidedSlash(word, text, i, frames, c, gap, line);
    SlashLine(word, text, k, frames, line);
    Chain(word, text, i, frames, k, frames, k + 1 + |line|, frames, [c] + gap, "/" + line);
    Regrouped([c] + gap, "/", line);
  }

  /** A slash with the rest of its line, in which nothing closes a regular expression. */
  lemma SlashLine(word: WordClass, text: string, k: nat, frames: seq<Frame>, line: string)
    requires WellNested(frames) && InCode(frames) && k < |text| && text[k] == '/' && Stands(text, k + 1, line)
    requires line != "" && line[|line| - 1] == '\n' && line[0] != '*'
    requires forall j :: 0 <= j < |line| ==> Plainly(line[j]) && line[j] != '\\'
    ensures Yields(word, text, k, frames, k + 1 + |line|, frames, "/" + line)
  {
    hide Yields, RegexClose, LooksLikeRegexStart, WellNested;
    var e := k + |line|;
    assert forall j :: 0 <= j < |line| ==> text[k + 1 + j] == text[k + 1..k + 1 + |line|][j] == line[j];
    assert text[e] == line[|line| - 1];
    forall j | k + 1 <= j < e ensures text[j] != '/' && text[j] != '\\' { assert text[j] == line[j - k - 1]; }
    NeverCloses(text, k + 1, e, false);
    assert text[k + 1] == line[0];
    PlainSlash(word, text, k, frames);
    PlainCodes(word, text, k + 1, frames, line);
    Chain(word, text, k, frames, k + 1, frames, e + 1, frames, "/", line);
  }

  lemma NoWordEndsSo(word: WordClass, text: string, k: nat, w: string)
    requires 0 < k <= |text| && Operand(text[k - 1]) && StarterWord(w)
    ensures !WordBefore(word, text, k, w)
  {
    assert w != "" && !Operand(w[|w| - 1]);
    if |w| <= k { assert text[k - |w|..k][|w| - 1] == text[k - 1]; }
  }

  lemma DividedFits(c: char, gap: string, next: char)
    requires Fits(Divided(c, gap, next))
    ensures Operand(c) && Plainly(c) && !Blanks(c) && Gap(gap) && !Starter(c)
    ensures Plainly(next) && next != '*' && next != '/'
  {
  }

  lemma DividedToken(word: WordClass, text: string, i: nat, frames: seq<Frame>, c: char, gap: string, next: char)
    requires WellNested(frames) && InCode(frames) && Fits(Divided(c, gap, next))
    requires Stands(text, i, [c] + gap + "/" + [next])
    ensures Yields(word, text, i, frames, i + |gap| + 3, frames, [c] + gap + "/" + [next])
  {
    var k := i + 1 + |gap|;
    hide *;
    DividedFits(c, gap, next);
    DecidedSlash(word, text, i, frames, c, gap, [next]);
    forall w | StarterWord(w) ensures !WordBefore(word, text, i + 1, w) { NoWordEndsSo(word, text, i + 1, w); }
    OneStands(text, k + 1, next);
    PlainSlash(word, text, k, frames);
    PlainCode(word, text, k + 1, frames);
    Chain(word, text, i, frames, k, frames, k + 1, frames, [c] + gap, "/");
    Chain(word, text, i, frames, k + 1, frames, k + 2, frames, [c] + gap + "/", [next]);
  }

  lemma OneStands(text: string, i: nat, c: char)
    requires Stands(text, i, [c])
    ensures i < |text| && text[i] == c
  {
    assert text[i] == text[i..i + 1][0];
  }

  // ---------------------------------------------------------------- braces and interpolations

  /** The frames between a pair of braces of code. */
  function Braced(frames: seq<Frame>): seq<Frame>
    requires InCode(frames)
  {
    if frames == [] then [] else frames[..|frames| - 1] + [Interp(frames[|frames| - 1].depth + 1)]
  }

  lemma OpensBrace(word: WordClass, text: string, i: nat, frames: seq<Frame>)
    requires WellNested(frames) && InCode(frames) && i < |text| && text[i] == '{'
    ensures Yields(word, text, i, frames, i + 1, Braced(frames), "{") && InCode(Braced(frames))
  {
    hide Yields, LooksLikeRegexStart, RegexClose;
    assert Next(word, text, i, frames) == Piece(1, false, Braced(frames));
    YieldsOne(word, text, i, frames, Braced(frames));
    assert [text[i]] == "{";
  }

  lemma ClosesBrace(word: WordClass, text: string, i: nat, frames: seq<Frame>)
    requires WellNested(frames) && InCode(frames) && WellNested(Braced(frames)) && i < |text| && text[i] == '}'
    ensures Yields(word, text, i, Braced(frames), i + 1, frames, "}")
  {
    hide Yields, LooksLikeRegexStart, RegexClose;
    var f := Braced(frames);
    if frames != [] {
      assert f[..|f| - 1] + [Interp(f[|f| - 1].depth - 1)] == frames;
      assert f[|f| - 1].depth >= 2;
    }
    assert Next(word, text, i, f) == Piece(1, false, frames);
    YieldsOne(word, text, i, f, frames);
    assert [text[i]] == "}";
  }

  lemma OpensHole(word: WordClass, text: string, i: nat, frames: seq<Frame>)
    requires WellNested(frames) && InString(frames, '`') && Stands(text, i, "${")
    ensures Yields(word, text, i, frames, i + 2, frames + [Interp(1)], "${") && InCode(frames + [Interp(1)])
  {
    hide Yields, Slash;
    assert text[i] == text[i..i + 2][0] == '$' && text[i + 1] == text[i..i + 2][1] == '{';
    assert Next(word, text, i, frames) == Piece(2, false, frames + [Interp(1)]);
    YieldsPiece(word, text, i, frames, Piece(2, false, frames + [Interp(1)]));
  }

  lemma ClosesHole(word: WordClass, text: string, i: nat, frames: seq<Frame>)
    requires WellNested(frames) && WellNested(frames + [Interp(1)]) && i < |text| && text[i] == '}'
    ensures Yields(word, text, i, frames + [Interp(1)], i + 1, frames, "}")
  {
    hide Yields, LooksLikeRegexStart, RegexClose;
    var f := frames + [Interp(1)];
    assert f[..|f| - 1] == frames;
    assert Next(word, text, i, f) == Piece(1, false, frames);
    YieldsOne(word, text, i, f, frames);
    assert [text[i]] == "}";
  }

  // ---------------------------------------------------------------- whole programs

  lemma {:induction false} TokenYields(word: WordClass, text: string, i: nat, frames: seq<Frame>, t: Token)
    requires WellNested(frames) && InCode(frames) && Fits(t) && Stands(text, i, Raw(t))
    ensures Yields(word, text, i, frames, i + |Raw(t)|, frames, Seen(t))
    decreases t
  {
    hide Yields, Stands, WellNested, InCode, RawAtoms, RawPieces, Spaces, AtomsFit, FitsParts, Apart, Gap;
    match t
    case Code(c) =>
      OneStands(text, i, c);
      PlainCode(word, text, i, frames);
    case Quoted(q, body) => StringToken(word, text, i, frames, q, body, q);
    case Unclosed(q, body) => StringToken(word, text, i, frames, q, body, '\n');
    case LineComment(note) => LineCommentToken(word, text, i, frames, note);
    case BlockComment(note) => BlockCommentToken(word, text, i, frames, note);
    case Braces(items) => BracesYield(word, text, i, frames, items);
    case Template(parts) => TemplateYields(word, text, i, frames, parts);
    case _ => SlashTokenYields(word, text, i, frames, t);
  }

  lemma SlashTokenYields(word: WordClass, text: string, i: nat, frames: seq<Frame>, t: Token)
    requires WellNested(frames) && InCode(frames) && Fits(t) && Stands(text, i, Raw(t))
    requires t.Regex? || t.LoneSlash? || t.Divided?
    ensures Yields(word, text, i, frames, i + |Raw(t)|, frames, Seen(t))
  {
    hide Yields, Stands, WellNested, InCode, RawPieces, Spaces, Fits;
    match t
    case Regex(c, gap, pattern) => RegexToken(word, text, i, frames, c, gap, pattern);
    case LoneSlash(c, gap, rest) => LoneSlashToken(word, text, i, frames, c, gap, rest);
    case Divided(c, gap, next) => DividedToken(word, text, i, frames, c, gap, next);
  }

  lemma {:induction false} BracesYield(word: WordClass, text: string, i: nat, frames: seq<Frame>, items: seq<Token>)
    requires WellNested(frames) && InCode(frames) && FitsAll(items) && Stands(text, i, "{" + RawAll(items) + "}")
    ensures Yields(word, text, i, frames, i + |RawAll(items)| + 2, frames, "{" + SeenAll(items) + "}")
    decreases items, 1
  {
    hide *;
    var raw, f := RawAll(items), Braced(frames);
    var j := i + 1 + |raw|;
    StandsBetween(text, i, "{", raw, "}");
    OpensBrace(word, text, i, frames);
    InsideIsNested(word, text, i, frames, i + 1, f, "{");
    AllYield(word, text, i + 1, f, items);
    ClosesBrace(word, text, j, frames);
    Chain(word, text, i, frames, i + 1, f, j, f, "{", SeenAll(items));
    Chain(word, text, i, frames, j, f, j + 1, frames, "{" + SeenAll(items), "}");
  }

  lemma {:induction false} AllYield(word: WordClass, text: string, i: nat, frames: seq<Frame>, ts: seq<Token>)
    requires WellNested(frames) && InCode(frames) && FitsAll(ts) && Stands(text, i, RawAll(ts))
    ensures Yields(word, text, i, frames, i + |RawAll(ts)|, frames, SeenAll(ts))
    decreases ts, 0
  {
    hide Yields, Raw, Seen, Fits, WellNested, InCode, Stands;
    if ts == [] {
      StandsWithin(text, i, "");
      Nothing(word, text, i, frames);
    } else {
      var raw, rest := Raw(ts[0]), RawAll(ts[1..]);
      StandsSplit(text, i, raw, rest);
      TokenYields(word, text, i, frames, ts[0]);
      AllYield(word, text, i + |raw|, frames, ts[1..]);
      Chain(word, text, i, frames, i + |raw|, frames, i + |raw| + |rest|, frames, Seen(ts[0]), SeenAll(ts[1..]));
    }
  }

  lemma StandsWithin(text: string, i: nat, s: string)
    requires Stands(text, i, s)
    ensures i + |s| <= |text|
  {
  }

  lemma {:induction false} TemplateYields(word: WordClass, text: string, i: nat, frames: seq<Frame>, parts: seq<Part>)
    requires WellNested(frames) && InCode(frames) && FitsParts(parts) && Apart(parts)
    requires Stands(text, i, "`" + RawParts(parts) + "`")
    ensures Yields(word, text, i, frames, i + |RawParts(parts)| + 2, frames, "`" + SeenParts(parts) + "`")
    decreases parts, 1
  {
    hide *;
    var raw, inside := RawParts(parts), frames + [Str('`')];
    var j := i + 1 + |raw|;
    StandsBetween(text, i, "`", raw, "`");
    OpensTemplate(word, text, i, frames);
    PartsYield(word, text, i + 1, inside, parts);
    ClosesTemplate(word, text, j, frames);
    Chain(word, text, i, frames, i + 1, inside, j, inside, "`", SeenParts(parts));
    Chain(word, text, i, frames, j, inside, j + 1, frames, "`" + SeenParts(parts), "`");
  }

  lemma OpensTemplate(word: WordClass, text: string, i: nat, frames: seq<Frame>)
    requires i < |text| && WellNested(frames) && InCode(frames) && text[i] == '`'
    ensures var inside := frames + [Str('`')];
      WellNested(inside) && InString(inside, '`') && Yields(word, text, i, frames, i + 1, inside, "`")
  {
    hide WellNested, InCode;
    OpensString(word, text, i, frames);
    assert [text[i]] == "`";
  }

  lemma ClosesTemplate(word: WordClass, text: string, i: nat, frames: seq<Frame>)
    requires i < |text| && WellNested(frames) && InCode(frames) && text[i] == '`' && WellNested(frames + [Str('`')])
    ensures Yields(word, text, i, frames + [Str('`')], i + 1, frames, "`")
  {
    hide WellNested, InCode, Yields;
    ClosesString(word, text, i, frames, '`');
    assert [text[i]] == "`";
  }

  /** What follows a `$` that is text of a template. */
  lemma NoBraceNext(text: string, i: nat, ps: seq<Part>)
    requires ps != [] && ps[0] == Text(Plain('$')) && Apart(ps) && FitsParts(ps)
    requires Stands(text, i, RawParts(ps)) && (i + |RawParts(ps)| < |text| ==> text[i + |RawParts(ps)|] != '{')
    ensures i + 1 < |text| ==> text[i + 1] != '{'
  {
    var rest := RawParts(ps[1..]);
    assert RawParts(ps) == "$" + rest;
    if ps[1..] == [] {
      assert rest == "";
    } else {
      assert rest[0] == RawPart(ps[1])[0];
      assert text[i + 1] == text[i..i + |RawParts(ps)|][1] == rest[0];
    }
  }

  lemma {:induction false} PartsYield(word: WordClass, text: string, i: nat, frames: seq<Frame>, ps: seq<Part>)
    requires WellNested(frames) && InString(frames, '`') && FitsParts(ps) && Apart(ps) && Stands(text, i, RawParts(ps))
    requires i + |RawParts(ps)| < |text| ==> text[i + |RawParts(ps)|] != '{'
    ensures Yields(word, text, i, frames, i + |RawParts(ps)|, frames, SeenParts(ps))
    decreases ps, 0
  {
    hide Yields, RawPart, SeenPart, WellNested, InString, Stands, FitsPart;
    if ps == [] {
      StandsWithin(text, i, "");
      Nothing(word, text, i, frames);
    } else {
      var raw, rest := RawPart(ps[0]), RawParts(ps[1..]);
      StandsSplit(text, i, raw, rest);
      assert Apart(ps[1..]) by { ApartTail(ps); }
      if ps[0] == Text(Plain('$')) { NoBraceNext(text, i, ps); }
      PartYields(word, text, i, frames, ps[0]);
      PartsYield(word, text, i + |raw|, frames, ps[1..]);
      Chain(word, text, i, frames, i + |raw|, frames, i + |raw| + |rest|, frames, SeenPart(ps[0]), SeenParts(ps[1..]));
    }
  }

  lemma ApartTail(ps: seq<Part>)
    requires ps != [] && Apart(ps)
    ensures Apart(ps[1..])
  {
  }

  lemma {:induction false} PartYields(word: WordClass, text: string, i: nat, frames: seq<Frame>, p: Part)
    requires WellNested(frames) && InString(frames, '`') && FitsPart(p) && Stands(text, i, RawPart(p))
    requires p == Text(Plain('$')) && i + 1 < |text| ==> text[i + 1] != '{'
    ensures Yields(word, text, i, frames, i + |RawPart(p)|, frames, SeenPart(p))
    decreases p
  {
    hide Yields, WellNested, InString, Stands, RawAll, SeenAll, FitsAll, AtomFits, Spaces;
    match p
    case Text(a) => OneAtom(word, text, i, frames, '`', a);
    case Hole(items) => HoleYields(word, text, i, frames, items);
  }

  lemma {:induction false} HoleYields(word: WordClass, text: string, i: nat, frames: seq<Frame>, items: seq<Token>)
    requires WellNested(frames) && InString(frames, '`') && FitsAll(items)
    requires Stands(text, i, "${" + RawAll(items) + "}")
    ensures Yields(word, text, i, frames, i + |RawAll(items)| + 3, frames, "${" + SeenAll(items) + "}")
    decreases items, 1
  {
    hide *;
    var raw, f := RawAll(items), frames + [Interp(1)];
    var j := i + 2 + |raw|;
    StandsBetween(text, i, "${", raw, "}");
    OpensHole(word, text, i, frames);
    InsideIsNested(word, text, i, frames, i + 2, f, "${");
    AllYield(word, text, i + 2, f, items);
    ClosesHole(word, text, j, frames);
    Chain(word, text, i, frames, i + 2, f, j, f, "${", SeenAll(items));
    Chain(word, text, i, frames, j, f, j + 1, frames, "${" + SeenAll(items), "}");
  }

  // ---------------------------------------------------------------- incomplete programs

  /** From `i` on the mask is `shown`. */
  ghost predicate Rest(word: WordClass, text: string, i: nat, shown: string) {
    i <= |text| && MaskFrom(word, text, i, []) == shown
  }

  lemma YieldsToTheEnd(word: WordClass, text: string, i: nat, frames: seq<Frame>, shown: string)
    requires Yields(word, text, i, [], |text|, frames, shown)
    ensures Rest(word, text, i, shown)
  {
    assert text[|text|..] == "";
    assert MaskFrom(word, text, |text|, frames) == "";
  }

  lemma LineEndLast(text: string, i: nat)
    requires i <= |text| && forall k :: i <= k < |text| ==> text[k] != '\n'
    ensures LineEnd(text, i) == |text|
  {
  }

  lemma {:induction false} BlockEndLast(text: string, j: nat)
    requires j <= |text| && forall k :: j <= k < |text| - 1 ==> !(text[k] == '*' && text[k + 1] == '/')
    ensures BlockEnd(text, j) == |text|
    decreases |text| - j
  {
    if j + 1 < |text| { BlockEndLast(text, j + 1); }
  }

  lemma OpenCommentRests(word: WordClass, text: string, i: nat, n: nat)
    requires i + 2 <= i + n == |text| && text[i] == '/'
    requires (text[i + 1] == '/' && LineEnd(text, i + 2) == |text|)
             || (text[i + 1] == '*' && BlockEnd(text, i + 2) == |text|)
    ensures Rest(word, text, i, Spaces(text[i..]))
  {
    hide Yields, LooksLikeRegexStart, RegexClose, LineEnd, BlockEnd, Rest;
    assert Next(word, text, i, []) == Piece(n, true, []);
    YieldsPiece(word, text, i, [], Piece(n, true, []));
    assert text[i..i + n] == text[i..];
    YieldsToTheEnd(word, text, i, [], Spaces(text[i..]));
  }

  lemma OpenLineRests(word: WordClass, text: string, i: nat, note: string)
    requires i <= |text| && text[i..] == "//" + note && '\n' !in note
    ensures Rest(word, text, i, Spaces("//" + note))
  {
    hide Rest, LineEnd;
    var n := |note| + 2;
    assert forall k :: 0 <= k < n ==> text[i..][k] == text[i + k];
    assert text[i] == text[i..][0] && text[i + 1] == text[i..][1];
    forall k | i + 2 <= k < |text| ensures text[k] != '\n' { assert text[k] == text[i..][k - i] == note[k - i - 2]; }
    LineEndLast(text, i + 2);
    OpenCommentRests(word, text, i, n);
  }

  lemma OpenBlockRests(word: WordClass, text: string, i: nat, note: string)
    requires i <= |text| && text[i..] == "/*" + note && Unended(note)
    ensures Rest(word, text, i, Spaces("/*" + note))
  {
    hide Rest, BlockEnd;
    var n := |note| + 2;
    assert forall k :: 0 <= k < n ==> text[i..][k] == text[i + k];
    assert text[i] == text[i..][0] && text[i + 1] == text[i..][1];
    forall k | i + 2 <= k < |text| - 1 ensures !(text[k] == '*' && text[k + 1] == '/') {
      assert text[k] == text[i..][k - i] == note[k - i - 2];
      assert text[k + 1] == text[i..][k + 1 - i] == note[k - i - 1];
    }
    BlockEndLast(text, i + 2);
    OpenCommentRests(word, text, i, n);
  }

  lemma TailRests(word: WordClass, text: string, i: nat, t: Tail)
    requires i <= |text| && text[i..] == RawTail(t) && FitsTail(t)
    ensures Rest(word, text, i, SeenTail(t))
  {
    hide Yields, Rest, AtomsFit, FitsParts, Apart, Unended;
    match t
    case Complete =>
      Nothing(word, text, i, []);
      YieldsToTheEnd(word, text, i, [], "");
    case OpenLine(note) => OpenLineRests(word, text, i, note);
    case OpenBlock(note) => OpenBlockRests(word, text, i, note);
    case OpenString(q, body) => StringRests(word, text, i, q, body);
    case OpenTemplate(parts) => TemplateRests(word, text, i, parts);
  }

  lemma StringRests(word: WordClass, text: string, i: nat, q: char, body: seq<Atom>)
    requires i <= |text| && text[i..] == [q] + RawAtoms(body) && q in {'\'', '"'} && AtomsFit(body, q)
    ensures Rest(word, text, i, [q] + Spaces(RawAtoms(body)))
  {
    hide *;
    var raw, inside := RawAtoms(body), [Str(q)];
    TailParts(text, i, [q], raw, q);
    EmptyStack();
    OpensString(word, text, i, []);
    InsideIsNested(word, text, i, [], i + 1, inside, [q]);
    Atoms(word, text, i + 1, inside, q, body);
    Chain(word, text, i, [], i + 1, inside, |text|, inside, [q], Spaces(raw));
    YieldsToTheEnd(word, text, i, inside, [q] + Spaces(raw));
  }

  lemma TailParts(text: string, i: nat, a: string, raw: string, q: char)
    requires i <= |text| && text[i..] == a + raw && |a| == 1
    ensures i < |text| && text[i] == a[0] && Stands(text, i + 1, raw) && i + 1 + |raw| == |text|
    ensures [] + [Str(q)] == [Str(q)] && InString([Str(q)], q)
  {
    assert text[i] == text[i..][0];
    assert text[i + 1..i + 1 + |raw|] == text[i..][1..];
  }

  lemma TemplateRests(word: WordClass, text: string, i: nat, parts: seq<Part>)
    requires i <= |text| && text[i..] == "`" + RawParts(parts) && FitsParts(parts) && Apart(parts)
    ensures Rest(word, text, i, "`" + SeenParts(parts))
  {
    hide *;
    var raw, inside := RawParts(parts), [Str('`')];
    TailParts(text, i, "`", raw, '`');
    EmptyStack();
    OpensTemplate(word, text, i, []);
    PartsYield(word, text, i + 1, inside, parts);
    Chain(word, text, i, [], i + 1, inside, |text|, inside, "`", SeenParts(parts));
    YieldsToTheEnd(word, text, i, inside, "`" + SeenParts(parts));
  }

  /** The mask of a program, complete or broken off in a comment, a string or a template, is what is to be seen of its
      tree. */
  lemma MaskOfProgram(word: WordClass, ts: seq<Token>, t: Tail)
    requires FitsAll(ts) && FitsTail(t)
    ensures Mask(word, RawAll(ts) + RawTail(t)) == SeenAll(ts) + SeenTail(t)
  {
    hide *;
    var raw, tail := RawAll(ts), RawTail(t);
    var text, n := raw + tail, |raw|;
    StartsAndEnds(raw, tail);
    EmptyStack();
    AllYield(word, text, 0, [], ts);
    TailRests(word, text, n, t);
    YieldsRest(word, text, 0, n, SeenAll(ts), SeenTail(t));
    RestIsMask(word, text, SeenAll(ts) + SeenTail(t));
  }

  lemma StartsAndEnds(raw: string, tail: string)
    ensures Stands(raw + tail, 0, raw) && (raw + tail)[|raw|..] == tail
  {
  }

  lemma EmptyStack()
    ensures WellNested([]) && InCode([])
  {
  }

  lemma YieldsRest(word: WordClass, text: string, i: nat, j: nat, a: string, b: string)
    requires Yields(word, text, i, [], j, [], a) && Rest(word, text, j, b)
    ensures Rest(word, text, i, a + b)
  {
    hide MaskFrom;
  }

  lemma RestIsMask(word: WordClass, text: string, shown: string)
    requires Rest(word, text, 0, shown)
    ensures Mask(word, text) == shown
  {
    hide Scan;
    assert text[0..] == text;
  }

  // ---------------------------------------------------------------- for instance

  function Plains(s: string): seq<Atom> { if s == "" then [] else [Plain(s[0])] + Plains(s[1..]) }

  function Texts(s: string): seq<Part> { if s == "" then [] else [Text(Plain(s[0]))] + Texts(s[1..]) }

  lemma {:induction false} PlainsAre(s: string)
    ensures RawAtoms(Plains(s)) == s && |Plains(s)| == |s|
    ensures forall k :: 0 <= k < |s| ==> Plains(s)[k] == Plain(s[k])
  {
    if s != "" { PlainsAre(s[1..]); }
  }

  lemma {:induction false} TextsAre(s: string)
    requires forall k :: 0 <= k < |s| ==> AtomFits(Plain(s[k]), '`')
    ensures RawParts(Texts(s)) == s && SeenParts(Texts(s)) == Spaces(s) && FitsParts(Texts(s))
    ensures |Texts(s)| == |s| && forall k :: 0 <= k < |s| ==> Texts(s)[k] == Text(Plain(s[k]))
  {
    if s != "" {
      TextsAre(s[1..]);
      SpacesSplit([s[0]], s[1..]);
      assert [s[0]] + s[1..] == s;
    }
  }

  /** A string or template with nothing special in it keeps its quotes, and everything in it goes blank. */
  lemma LiteralIsBlank(word: WordClass, q: char, s: string)
    requires q in {'\'', '"', '`'} && forall k :: 0 <= k < |s| ==> s[k] != q && s[k] != '\\' && s[k] != '\n'
    requires forall k :: 0 <= k < |s| - 1 ==> !(s[k] == '$' && s[k + 1] == '{')
    ensures Mask(word, [q] + s + [q]) == [q] + Spaces(s) + [q]
  {
    var t := if q == '`' then Template(Texts(s)) else Quoted(q, Plains(s));
    PlainsAre(s);
    if q == '`' { TextsAre(s); }
    assert Fits(t) && Raw(t) == [q] + s + [q] && Seen(t) == [q] + Spaces(s) + [q];
    hide Mask, Fits, Raw, Seen;
    MaskOfProgram(word, [t], Complete);
    assert [t][1..] == [] && Raw(t) + "" + "" == Raw(t) && Seen(t) + "" + "" == Seen(t);
  }
}

/** Measuring, clamping and wrapping the footer (extensions/conversation-metrics/extension.ts).
    A JavaScript string is a sequence of UTF-16 code units. */
module Footer {
  type Unit = u: int | 0 <= u < 0x1_0000
  type Row = seq<Unit>

  const ESC: Unit := 0x1b
  const BRACKET: Unit := 0x5b
  const LETTER_M: Unit := 0x6d
  const ZERO: Unit := 0x30
  const RESET: Row := [ESC, BRACKET, ZERO, LETTER_M]

  // ----- tokens: an SGR escape, a surrogate pair or a single unit -----

  predicate Param(u: Unit) {
    0x30 <= u <= 0x39 || u == 0x3b
  }

  function Params(s: Row): (n: nat)
    ensures n <= |s| && (forall i | 0 <= i < n :: Param(s[i])) && (n < |s| ==> !Param(s[n]))
  {
    if s != [] && Param(s[0]) then 1 + Params(s[1..]) else 0
  }

  /** Exactly the strings the SGR pattern accepts. */
  predicate Sgr(s: Row) {
    && |s| >= 3 && s[0] == ESC && s[1] == BRACKET && s[|s| - 1] == LETTER_M
    && forall i | 2 <= i < |s| - 1 :: Param(s[i])
  }

  /** The length of the escape `s` starts with, or zero. */
  function AnsiLen(s: Row): (n: nat)
    ensures n <= |s| && (n > 0 ==> Sgr(s[..n]))
    ensures n == 0 ==> forall k | 0 <= k <= |s| :: !Sgr(s[..k])
  {
    if |s| < 2 || s[0] != ESC || s[1] != BRACKET then 0
    else
      var n := Params(s[2..]);
      if 2 + n < |s| && s[2 + n] == LETTER_M then n + 3
      else
        assert forall k | 0 <= k <= |s| :: !Sgr(s[..k]) by { NotSgr(s, n); }
        0
  }

  lemma NotSgr(s: Row, n: nat)
    requires 2 <= 2 + n <= |s| && (2 + n < |s| ==> s[2 + n] != LETTER_M && !Param(s[2 + n]))
    requires forall i | 2 <= i < 2 + n :: Param(s[i])
    ensures forall k | 0 <= k <= |s| :: !Sgr(s[..k])
  {
    forall k | 3 <= k <= |s| ensures !Sgr(s[..k]) {
      if k - 1 < 2 + n {
        assert Param(s[k - 1]);
      } else if k - 1 > 2 + n {
        assert s[..k][2 + n] == s[2 + n];
      }
    }
  }

  predicate Pair(s: Row) {
    |s| >= 2 && 0xd800 <= s[0] <= 0xdbff && 0xdc00 <= s[1] <= 0xdfff
  }

  function CodePointAt(s: Row): (code: nat)
    requires s != []
    ensures Pair(s) <==> code > 0xffff
  {
    if Pair(s) then
      var high: int, low: int := s[0], s[1];
      0x1_0000 + (high - 0xd800) * 0x400 + (low - 0xdc00)
    else s[0]
  }

  function FromCodePoint(code: nat): Row
    requires code < 0x11_0000
  {
    if code > 0xffff then [0xd800 + (code - 0x1_0000) / 0x400, 0xdc00 + (code - 0x1_0000) % 0x400] else [code]
  }

  /** Surrogate pairs in order are the code points from 0x10000 on, in order. */
  lemma PairsAreCounted(high: Unit, low: Unit)
    requires 0xd800 <= high <= 0xdbff && 0xdc00 <= low <= 0xdfff
    ensures CodePointAt([0xd800, 0xdc00]) == 0x1_0000
    ensures low < 0xdfff ==> CodePointAt([high, low + 1]) == CodePointAt([high, low]) + 1
    ensures high < 0xdbff ==> CodePointAt([high + 1, 0xdc00]) == CodePointAt([high, 0xdfff]) + 1
  {
  }

  predicate ZeroWidth(code: nat) {
    || 0x0300 <= code <= 0x036f || 0x1ab0 <= code <= 0x1aff || 0x1dc0 <= code <= 0x1dff
    || 0x20d0 <= code <= 0x20ff || 0xfe00 <= code <= 0xfe0f || 0xfe20 <= code <= 0xfe2f
    || code == 0x200b || code == 0x200c || code == 0x200d || code == 0xfeff
    || 0xe_0100 <= code <= 0xe_01ef
  }

  predicate Wide(code: nat) {
    || 0x1100 <= code <= 0x115f || 0x2e80 <= code <= 0x9fff || 0xac00 <= code <= 0xd7a3
    || 0xf900 <= code <= 0xfaff || 0xfe30 <= code <= 0xfe4f || 0xff00 <= code <= 0xff60
    || 0xffe0 <= code <= 0xffe6 || 0x1_f300 <= code <= 0x1_faff || 0x2_0000 <= code <= 0x3_fffd
  }

  function CellWidth(code: nat): nat {
    if ZeroWidth(code) then 0 else if Wide(code) then 2 else 1
  }

  datatype Block = Block(first: nat, last: nat, cells: nat)

  /** The code points that do not take one cell. */
  const CELLS := [
    Block(0x0300, 0x036f, 0), Block(0x1100, 0x115f, 2), Block(0x1ab0, 0x1aff, 0), Block(0x1dc0, 0x1dff, 0), Block(0x200b, 0x200d, 0),
    Block(0x20d0, 0x20ff, 0), Block(0x2e80, 0x9fff, 2), Block(0xac00, 0xd7a3, 2), Block(0xf900, 0xfaff, 2), Block(0xfe00, 0xfe0f, 0),
    Block(0xfe20, 0xfe2f, 0), Block(0xfe30, 0xfe4f, 2), Block(0xfeff, 0xfeff, 0), Block(0xff00, 0xff60, 2), Block(0xffe0, 0xffe6, 2),
    Block(0x1_f300, 0x1_faff, 2), Block(0x2_0000, 0x3_fffd, 2), Block(0xe_0100, 0xe_01ef, 0)]

  /** The width of a code point is the one of its block, and one cell outside them. */
  lemma CellsAreTabled(code: nat)
    ensures forall i | 0 <= i < |CELLS| :: CELLS[i].first <= code <= CELLS[i].last ==> CellWidth(code) == CELLS[i].cells
    ensures (forall i | 0 <= i < |CELLS| :: !(CELLS[i].first <= code <= CELLS[i].last)) ==> CellWidth(code) == 1
  {
    assert CELLS[0].cells == 0 && CELLS[1].cells == 2 && CELLS[2].cells == 0 && CELLS[3].cells == 0 && CELLS[4].cells == 0 && CELLS[5].cells == 0 && CELLS[6].cells == 2 && CELLS[7].cells == 2 && CELLS[8].cells == 2;
    assert CELLS[9].cells == 0 && CELLS[10].cells == 0 && CELLS[11].cells == 2 && CELLS[12].cells == 0 && CELLS[13].cells == 2 && CELLS[14].cells == 2 && CELLS[15].cells == 2 && CELLS[16].cells == 2 && CELLS[17].cells == 0;
  }

  function TokenLen(s: Row): (n: nat)
    requires s != []
    ensures 0 < n <= |s|
  {
    if AnsiLen(s) > 0 then AnsiLen(s) else if Pair(s) then 2 else 1
  }

  function TokenWidth(s: Row): nat
    requires s != []
  {
    if AnsiLen(s) > 0 then 0 else CellWidth(CodePointAt(s))
  }

  /** The cells a row occupies. */
  function VisibleWidth(s: Row): nat {
    if s == [] then 0 else TokenWidth(s) + VisibleWidth(s[TokenLen(s)..])
  }

  method FooterVisibleWidth(text: Row) returns (width: nat)
    ensures width == VisibleWidth(text)
  {
    hide AnsiLen, CellWidth;
    width := 0;
    var i := 0;
    assert text[0..] == text;
    while i < |text|
      invariant i <= |text| && width + VisibleWidth(text[i..]) == VisibleWidth(text)
    {
      var ansi := AnsiLen(text[i..]);
      assert text[i..][TokenLen(text[i..])..] == text[i + TokenLen(text[i..])..];
      if ansi > 0 {
        i := i + ansi;
        continue;
      }
      var code := CodePointAt(text[i..]);
      width := width + CellWidth(code);
      i := i + (if code > 0xffff then 2 else 1);
    }
  }

  // ----- token boundaries -----

  /** `n` falls between two tokens of `s`. */
  predicate Boundary(s: Row, n: nat) {
    n == 0 || (s != [] && TokenLen(s) <= n && Boundary(s[TokenLen(s)..], n - TokenLen(s)))
  }

  /** Some token before `n` is an escape. */
  predicate Styled(s: Row, n: nat) {
    s != [] && n > 0 && (AnsiLen(s) > 0 || (TokenLen(s) <= n && Styled(s[TokenLen(s)..], n - TokenLen(s))))
  }

  /** The cells of the tokens before `n`. */
  function WidthBefore(s: Row, n: nat): nat {
    if s == [] || n < TokenLen(s) then 0 else TokenWidth(s) + WidthBefore(s[TokenLen(s)..], n - TokenLen(s))
  }

  lemma {:induction false} BoundaryInside(s: Row, n: nat)
    requires Boundary(s, n)
    ensures n <= |s|
    decreases |s|
  {
    if n > 0 {
      BoundaryInside(s[TokenLen(s)..], n - TokenLen(s));
    }
  }

  /** What follows a boundary does not change the tokens before it, as long as it starts with an escape or is empty. */
  lemma FirstTokenKept(s: Row, n: nat, tail: Row)
    requires s != [] && TokenLen(s) <= n <= |s| && (tail == [] || tail[0] == ESC)
    ensures TokenLen(s[..n] + tail) == TokenLen(s) && TokenWidth(s[..n] + tail) == TokenWidth(s)
    ensures AnsiLen(s[..n] + tail) == AnsiLen(s)
  {
    hide CellWidth;
    var t := s[..n] + tail;
    assert forall k | 0 <= k <= n :: t[..k] == s[..k];
    assert tail != [] ==> t[n] == ESC;
    if AnsiLen(s) > 0 {
      SgrAt(s, t, AnsiLen(s));
    }
  }

  /** An escape is no prefix of another one. */
  lemma SgrAt(s: Row, t: Row, n: nat)
    requires n <= |s| && n <= |t| && s[..n] == t[..n] && Sgr(s[..n])
    ensures AnsiLen(t) == n
  {
    assert Sgr(t[..n]);
    var k := AnsiLen(t);
    assert k > 0;
    assert t[..k][..if n < k then n else k] == t[..n][..if n < k then n else k];
  }

  lemma {:induction false} WidthOfPrefix(s: Row, n: nat, tail: Row)
    requires Boundary(s, n) && (tail == [] || tail[0] == ESC)
    ensures n <= |s| && VisibleWidth(s[..n] + tail) == WidthBefore(s, n) + VisibleWidth(tail)
    decreases |s|
  {
    hide AnsiLen, Sgr, CellWidth, CodePointAt;
    BoundaryInside(s, n);
    if n == 0 {
      assert s[..0] + tail == tail;
    } else {
      var k := TokenLen(s);
      FirstTokenKept(s, n, tail);
      WidthOfPrefix(s[k..], n - k, tail);
      assert (s[..n] + tail)[k..] == s[k..][..n - k] + tail;
    }
  }

  lemma {:induction false} NextBoundary(s: Row, n: nat)
    requires Boundary(s, n) && n < |s|
    ensures n + TokenLen(s[n..]) <= |s| && Boundary(s, n + TokenLen(s[n..]))
    ensures WidthBefore(s, n + TokenLen(s[n..])) == WidthBefore(s, n) + TokenWidth(s[n..])
    ensures Styled(s, n + TokenLen(s[n..])) == (Styled(s, n) || AnsiLen(s[n..]) > 0)
    decreases |s|
  {
    hide AnsiLen, Sgr, CellWidth, CodePointAt;
    if n == 0 {
      assert s[0..] == s;
    } else {
      var k := TokenLen(s);
      assert s[k..][n - k..] == s[n..];
      NextBoundary(s[k..], n - k);
    }
  }

  lemma {:induction false} WidthGrows(s: Row, n: nat, m: nat)
    requires Boundary(s, n) && Boundary(s, m) && n < m
    ensures n < |s| && n + TokenLen(s[n..]) <= m && WidthBefore(s, n) + TokenWidth(s[n..]) <= WidthBefore(s, m)
    decreases |s|
  {
    hide AnsiLen, Sgr, CellWidth, CodePointAt;
    if n == 0 {
      assert s[0..] == s;
    } else {
      var k := TokenLen(s);
      WidthGrows(s[k..], n - k, m - k);
      assert s[k..][n - k..] == s[n..];
    }
  }

  // ----- clampFooterRow -----

  /** `n` ends the longest run of whole tokens that fits. */
  ghost predicate LongestFit(row: Row, width: nat, n: nat) {
    && Boundary(row, n) && n <= |row| && VisibleWidth(row[..n]) <= width
    && forall m: nat | Boundary(row, m) && n < m <= |row| :: VisibleWidth(row[..m]) > width
  }

  ghost predicate Clamped(row: Row, width: int, clamped: Row) {
    if width <= 0 then clamped == []
    else if VisibleWidth(row) <= width then clamped == row
    else exists n: nat | LongestFit(row, width, n) :: clamped == row[..n] + (if Styled(row, n) then RESET else [])
  }

  method ClampFooterRow(row: Row, width: int) returns (out: Row)
    ensures Clamped(row, width, out)
  {
    hide AnsiLen, Sgr, CellWidth, VisibleWidth;
    if width <= 0 {
      return [];
    }
    var total := FooterVisibleWidth(row);
    if total <= width {
      return row;
    }
    out := [];
    var used, hadAnsi := 0, false;
    var i := 0;
    while i < |row|
      invariant i <= |row| && out == row[..i] && Boundary(row, i)
      invariant used == WidthBefore(row, i) <= width && hadAnsi == Styled(row, i)
    {
      NextBoundary(row, i);
      var ansi := AnsiLen(row[i..]);
      if ansi > 0 {
        out, i, hadAnsi := out + row[i..i + ansi], i + ansi, true;
        continue;
      }
      var code := CodePointAt(row[i..]);
      var cell := CellWidth(code);
      if cell > 0 && used + cell > width {
        break;
      }
      CodePointIsToken(row[i..]);
      out, used, i := out + FromCodePoint(code), used + cell, i + (if code > 0xffff then 2 else 1);
    }
    assert LongestFit(row, width, i) by { StopsAtTheLongest(row, width, i); }
    out := if hadAnsi then out + RESET else out;
    assert out == row[..i] + (if Styled(row, i) then RESET else []);
  }

  lemma CodePointIsToken(s: Row)
    requires s != [] && AnsiLen(s) == 0
    ensures CodePointAt(s) < 0x11_0000 && FromCodePoint(CodePointAt(s)) == s[..TokenLen(s)]
  {
    hide AnsiLen;
  }

  lemma StopsAtTheLongest(row: Row, width: nat, n: nat)
    requires Boundary(row, n) && n <= |row| && WidthBefore(row, n) <= width && VisibleWidth(row) > width
    requires n < |row| ==> WidthBefore(row, n) + TokenWidth(row[n..]) > width
    ensures LongestFit(row, width, n)
  {
    hide AnsiLen, Sgr, CellWidth;
    WidthOfPrefix(row, n, []);
    assert row[..n] + [] == row[..n] && VisibleWidth([]) == 0;
    forall m: nat | Boundary(row, m) && n < m <= |row| ensures VisibleWidth(row[..m]) > width {
      WidthGrows(row, n, m);
      WidthOfPrefix(row, m, []);
      assert row[..m] + [] == row[..m];
    }
  }

  /** Every clamped row fits, measured again by the same measure. */
  lemma ClampFits(row: Row, width: int, clamped: Row)
    requires Clamped(row, width, clamped)
    ensures VisibleWidth(clamped) <= if width <= 0 then 0 else width
  {
    if width > 0 && VisibleWidth(row) > width {
      var n: nat :| LongestFit(row, width, n) && clamped == row[..n] + (if Styled(row, n) then RESET else []);
      WidthOfPrefix(row, n, if Styled(row, n) then RESET else []);
      WidthOfPrefix(row, n, []);
      assert row[..n] + [] == row[..n];
      ResetIsInvisible();
    }
  }

  lemma ResetIsInvisible()
    ensures VisibleWidth(RESET) == 0 && Sgr(RESET)
  {
    SgrAt(RESET, RESET, 4);
    assert RESET[..4] == RESET && RESET[4..] == [];
  }

  /** Clamping again changes nothing, at the same width or a larger one. */
  lemma ClampAgain(row: Row, width: int, wider: int, once: Row, again: Row)
    requires Clamped(row, width, once) && width <= wider && Clamped(once, wider, again)
    ensures again == once
  {
    ClampFits(row, width, once);
    assert VisibleWidth([]) == 0;
  }

  /** The clamped row is determined. */
  lemma ClampIsUnique(row: Row, width: int, a: Row, b: Row)
    requires Clamped(row, width, a) && Clamped(row, width, b)
    ensures a == b
  {
    if width > 0 && VisibleWidth(row) > width {
      var n: nat :| LongestFit(row, width, n) && a == row[..n] + (if Styled(row, n) then RESET else []);
      var m: nat :| LongestFit(row, width, m) && b == row[..m] + (if Styled(row, m) then RESET else []);
      assert n == m;
    }
  }

  /** An escape is kept whole or dropped whole: no boundary falls inside one. */
  lemma EscapesStayWhole(row: Row, width: nat, n: nat, i: nat)
    requires LongestFit(row, width, n) && Boundary(row, i) && i < |row| && AnsiLen(row[i..]) > 0
    ensures n <= i || i + AnsiLen(row[i..]) <= n
  {
    if i < n {
      WidthGrows(row, i, n);
    }
  }

  // ----- wrapFooterText -----

  /** White space and line terminators: what `\s` matches and `trimEnd` removes. */
  predicate Space(u: Unit) {
    || 0x09 <= u <= 0x0d || u == 0x20 || u == 0xa0 || u == 0x1680 || 0x2000 <= u <= 0x200a
    || u == 0x2028 || u == 0x2029 || u == 0x202f || u == 0x205f || u == 0x3000 || u == 0xfeff
  }

  predicate AllSpace(s: Row) {
    forall u | u in s :: Space(u)
  }

  function TrimEnd(s: Row): (r: Row)
    ensures r <= s && AllSpace(s[|r|..]) && (r != [] ==> !Space(r[|r| - 1]))
  {
    if s != [] && Space(s[|s| - 1]) then TrimEnd(s[..|s| - 1]) else s
  }

  /** How many units at the start of `s` are space, or are not. */
  function Span(s: Row, space: bool): (n: nat)
    ensures n <= |s| && (forall i | 0 <= i < n :: Space(s[i]) == space) && (n < |s| ==> Space(s[n]) != space)
  {
    if s != [] && Space(s[0]) == space then 1 + Span(s[1..], space) else 0
  }

  /** The text cut around its runs of white space, which are kept: word, space, word, ..., word. */
  function Split(s: Row): (words: seq<Row>)
    ensures words != []
    decreases |s|
  {
    var n := Span(s, false);
    if n == |s| then [s]
    else
      var rest := s[n..];
      var k := Span(rest, true);
      [s[..n], rest[..k]] + Split(rest[k..])
  }

  function Concat(words: seq<Row>): Row {
    if words == [] then [] else words[0] + Concat(words[1..])
  }

  lemma {:induction false} ConcatSnoc(words: seq<Row>, word: Row)
    ensures Concat(words + [word]) == Concat(words) + word
  {
    if words == [] {
      assert words + [word] == [word] && Concat([]) == [] && [word][1..] == [];
    } else {
      ConcatSnoc(words[1..], word);
      assert (words + [word])[1..] == words[1..] + [word];
    }
  }

  lemma {:induction false} ConcatSplit(words: seq<Row>, n: nat)
    requires n <= |words|
    ensures Concat(words) == Concat(words[..n]) + Concat(words[n..])
  {
    if n == 0 {
      assert words[0..] == words;
    } else {
      ConcatSplit(words[1..], n - 1);
      assert words[..n][1..] == words[1..][..n - 1] && words[1..][n - 1..] == words[n..];
    }
  }

  /** Cutting a text into words loses nothing. */
  lemma {:induction false} SplitConcat(s: Row)
    ensures Concat(Split(s)) == s
    decreases |s|
  {
    hide Concat, Span;
    var n := Span(s, false);
    if n < |s| {
      SpanParts(s);
      var rest := s[n..];
      var k := Span(rest, true);
      SplitConcat(rest[k..]);
      ConcatTwo(s[..n], rest[..k], Split(rest[k..]));
      assert s == s[..n] + rest && rest == rest[..k] + rest[k..];
    } else {
      ConcatOne(s);
    }
  }

  lemma ConcatOne(word: Row)
    ensures Concat([word]) == word
  {
    assert Concat([word]) == word + [];
  }

  lemma ConcatTwo(a: Row, b: Row, words: seq<Row>)
    ensures Concat([a, b] + words) == a + (b + Concat(words))
  {
    assert ([a, b] + words)[1..] == [b] + words && ([b] + words)[1..] == words;
  }

  /** How many of the words fit on one line. */
  function Fitting(words: seq<Row>, room: nat): (n: nat)
    ensures n <= |words| && |Concat(words[..n])| <= room
    ensures n < |words| ==> |Concat(words[..n])| + |words[n]| > room
  {
    if words == [] || |words[0]| > room then
      assert words[..0] == [];
      0
    else
      var n := Fitting(words[1..], room - |words[0]|);
      assert words[..n + 1][1..] == words[1..][..n];
      n + 1
  }

  /** A word too long for a line, in pieces of `width`. */
  function Pieces(word: Row, width: nat): seq<Row>
    requires width > 0
  {
    if |word| <= width then (if word == [] then [] else [word])
    else [word[..width]] + Pieces(word[width..], width)
  }

  function Line(s: Row): seq<Row> {
    if s == [] then [] else [TrimEnd(s)]
  }

  /** Greedy filling: as many words as fit on each line, a word too long for any line cut in pieces of its own. */
  function Fill(words: seq<Row>, width: nat): seq<Row>
    requires width > 0
    decreases |words|
  {
    if words == [] then []
    else if |words[0]| > width then Pieces(words[0], width) + Fill(words[1..], width)
    else
      var n := Fitting(words, width);
      Line(Concat(words[..n])) + Fill(words[n..], width)
  }

  function Wrapped(text: Row, width: int): seq<Row> {
    if width <= 0 || |text| <= width then [text] else Fill(Split(text), width)
  }

  function Min(a: nat, b: nat): nat {
    if a < b then a else b
  }

  lemma PieceEnds(word: Row, at: nat, width: nat)
    requires at <= |word| && width > 0
    ensures at < |word| ==> Pieces(word[at..], width) == [word[at..Min(at + width, |word|)]] + Pieces(word[Min(at + width, |word|)..], width)
    ensures at == |word| ==> Pieces(word[at..], width) == []
  {
    var rest := word[at..];
    if |rest| > width {
      assert rest[..width] == word[at..at + width] && rest[width..] == word[at + width..];
    } else {
      assert word[at..|word|] == rest && word[|word|..] == [];
    }
  }

  lemma {:induction false} FittingIs(words: seq<Row>, room: nat, n: nat)
    requires n <= |words| && |Concat(words[..n])| <= room
    requires n < |words| ==> |Concat(words[..n])| + |words[n]| > room
    ensures Fitting(words, room) == n
  {
    if n > 0 {
      assert words[..n][1..] == words[1..][..n - 1];
      FittingIs(words[1..], room - |words[0]|, n - 1);
    }
  }

  /** The group of words collected so far ends before word `i`. */
  lemma LineEnds(words: seq<Row>, j: nat, i: nat, width: nat)
    requires width > 0 && j <= i < |words| && |Concat(words[j..i])| <= width < |Concat(words[j..i])| + |words[i]|
    ensures Fill(words[j..], width) == Line(Concat(words[j..i])) + Fill(words[i..], width)
  {
    if j == i {
      assert words[j..i] == [] && Line([]) == [];
    } else {
      var rest := words[j..];
      assert rest[..i - j] == words[j..i] && rest[i - j..] == words[i..] && rest[i - j] == words[i];
      FittingIs(rest, width, i - j);
    }
  }

  lemma LastLine(words: seq<Row>, j: nat, width: nat)
    requires width > 0 && j <= |words| && |Concat(words[j..])| <= width
    ensures Fill(words[j..], width) == Line(Concat(words[j..]))
  {
    var rest := words[j..];
    if rest != [] {
      assert rest[..|rest|] == rest && rest[|rest|..] == [];
      FittingIs(rest, width, |rest|);
    }
  }

  lemma {:induction false} NeverWithoutLines(words: seq<Row>, width: nat)
    requires width > 0 && Concat(words) != []
    ensures Fill(words, width) != []
    decreases |words|
  {
    if |words[0]| <= width {
      var n := Fitting(words, width);
      ConcatSplit(words, n);
      if Concat(words[..n]) == [] {
        NeverWithoutLines(words[n..], width);
      }
    }
  }

  method AppendPieces(before: seq<Row>, word: Row, width: nat) returns (lines: seq<Row>)
    requires width > 0
    ensures lines == before + Pieces(word, width)
  {
    hide Pieces;
    lines := before;
    var at := 0;
    assert word[0..] == word;
    while at < |word|
      invariant lines + Pieces(word[Min(at, |word|)..], width) == before + Pieces(word, width)
    {
      PieceEnds(word, at, width);
      lines, at := lines + [word[at..Min(at + width, |word|)]], at + width;
    }
    PieceEnds(word, |word|, width);
  }

  /** The lines so far, and a line begun with the words from `j` to `i`. */
  ghost predicate Filling(words: seq<Row>, width: nat, lines: seq<Row>, j: nat, i: nat, current: Row)
    requires width > 0
  {
    && j <= i <= |words| && current == Concat(words[j..i]) && |current| <= width
    && lines + Fill(words[j..], width) == Fill(words, width)
  }

  lemma FillingEndsLine(words: seq<Row>, width: nat, lines: seq<Row>, j: nat, i: nat, current: Row)
    requires width > 0 && Filling(words, width, lines, j, i, current) && i < |words| && |current| + |words[i]| > width
    ensures |current| == 0 ==> Filling(words, width, lines, i, i, [])
    ensures |current| > 0 ==> Filling(words, width, lines + [TrimEnd(current)], i, i, [])
  {
    hide Fill, TrimEnd;
    LineEnds(words, j, i, width);
    assert words[i..i] == [] && lines + [] == lines;
    assert (lines + Line(current)) + Fill(words[i..], width) == lines + (Line(current) + Fill(words[i..], width));
  }

  lemma FillingCutsWord(words: seq<Row>, width: nat, lines: seq<Row>, i: nat)
    requires width > 0 && Filling(words, width, lines, i, i, []) && i < |words| && |words[i]| > width
    ensures Filling(words, width, lines + Pieces(words[i], width), i + 1, i + 1, [])
  {
    hide Pieces;
    var pieces, rest := Pieces(words[i], width), Fill(words[i + 1..], width);
    assert words[i..][0] == words[i] && words[i..][1..] == words[i + 1..] && words[i + 1..i + 1] == [];
    assert (lines + pieces) + rest == lines + (pieces + rest);
  }

  lemma FillingTakesWord(words: seq<Row>, width: nat, lines: seq<Row>, j: nat, i: nat, current: Row)
    requires width > 0 && Filling(words, width, lines, j, i, current) && i < |words| && |current| + |words[i]| <= width
    ensures Filling(words, width, lines, j, i + 1, current + words[i])
  {
    hide Fill;
    ConcatSnoc(words[j..i], words[i]);
    assert words[j..i] + [words[i]] == words[j..i + 1];
  }

  lemma FillingDone(words: seq<Row>, width: nat, lines: seq<Row>, j: nat, current: Row)
    requires width > 0 && Filling(words, width, lines, j, |words|, current)
    ensures (if |current| > 0 then lines + [TrimEnd(current)] else lines) == Fill(words, width)
  {
    hide Fill, TrimEnd;
    assert lines + [] == lines;
    assert words[j..|words|] == words[j..];
    LastLine(words, j, width);
  }

  method WrapFooterText(text: Row, width: int) returns (lines: seq<Row>)
    ensures lines == Wrapped(text, width)
  {
    WrappedHasLines(text, width);
    if width <= 0 || |text| <= width {
      return [text];
    }
    hide Split, Fill, Fitting, Pieces, TrimEnd, Span, Concat, Filling, Wrapped, Line, AllSpace, Space, Min, LosesOnlySpace, Woven;
    lines := [];
    var current: Row := [];
    var words := Split(text);
    ghost var j := 0;
    var i := 0;
    FillingBegins(words, width);
    while i < |words|
      invariant i <= |words| && Filling(words, width, lines, j, i, current)
    {
      var word := words[i];
      if |current| + |word| > width {
        FillingEndsLine(words, width, lines, j, i, current);
        j := i;
      }
      if |current| > 0 && |current| + |word| > width {
        lines, current := lines + [TrimEnd(current)], [];
      }
      if |word| > width {
        if |current| > 0 {
          lines, current := lines + [TrimEnd(current)], [];
        }
        FillingCutsWord(words, width, lines, i);
        lines := AppendPieces(lines, word, width);
        j := i + 1;
      } else {
        FillingTakesWord(words, width, lines, j, i, current);
        current := current + word;
      }
      i := i + 1;
    }
    FillingDone(words, width, lines, j, current);
    if |current| > 0 {
      lines := lines + [TrimEnd(current)];
    }
    lines := if |lines| > 0 then lines else [[]];
  }

  lemma WrappedHasLines(text: Row, width: int)
    ensures |text| > width > 0 ==> Wrapped(text, width) == Fill(Split(text), width) != []
    ensures |text| <= width || width <= 0 ==> Wrapped(text, width) == [text]
  {
    hide Fill, Split;
    if |text| > width > 0 {
      SplitConcat(text);
      NeverWithoutLines(Split(text), width);
    }
  }

  lemma FillingBegins(words: seq<Row>, width: nat)
    requires width > 0
    ensures Filling(words, width, [], 0, 0, [])
  {
    assert words[0..] == words && words[0..0] == [];
  }

  // ----- no line could take more -----

  /** The words from `j` to `i` make up one line as long as can be, or are one word longer than any line. */
  predicate Full(words: seq<Row>, width: nat, j: nat, i: nat) {
    && j < i <= |words|
    && if |words[j]| > width then i == j + 1
       else |Concat(words[j..i])| <= width && (i < |words| ==> |Concat(words[j..i])| + |words[i]| > width)
  }

  /** Cuts between words, from `j` to the end. */
  predicate Cuts(words: seq<Row>, width: nat, j: nat, cuts: seq<nat>) {
    && cuts != [] && cuts[0] == j && cuts[|cuts| - 1] == |words| && (forall k | 0 <= k < |cuts| :: cuts[k] <= |words|)
    && forall k | 0 <= k < |cuts| - 1 :: Full(words, width, cuts[k], cuts[k + 1])
  }

  /** The lines between two cuts. */
  function LinesBetween(words: seq<Row>, width: nat, j: nat, i: nat): seq<Row>
    requires width > 0
  {
    if !(j < i <= |words|) then [] else if |words[j]| > width then Pieces(words[j], width) else Line(Concat(words[j..i]))
  }

  function LinesOf(words: seq<Row>, width: nat, cuts: seq<nat>): seq<Row>
    requires width > 0
  {
    if |cuts| < 2 then [] else LinesBetween(words, width, cuts[0], cuts[1]) + LinesOf(words, width, cuts[1..])
  }

  lemma {:induction false} FillCuts(words: seq<Row>, width: nat, j: nat) returns (cuts: seq<nat>)
    requires width > 0 && j <= |words|
    ensures Cuts(words, width, j, cuts) && Fill(words[j..], width) == LinesOf(words, width, cuts)
    decreases |words| - j
  {
    hide Pieces, Line, Fitting, Concat;
    var rest := words[j..];
    if j == |words| {
      cuts := [j];
    } else {
      var i := if |words[j]| > width then j + 1 else j + Fitting(rest, width);
      if |words[j]| <= width {
        FirstFits(rest, width);
      }
      assert rest[..i - j] == words[j..i] && rest[i - j..] == words[i..];
      var more := FillCuts(words, width, i);
      cuts := [j] + more;
      assert Full(words, width, j, i);
      assert cuts[1..] == more;
      forall k | 0 <= k < |cuts| - 1 ensures Full(words, width, cuts[k], cuts[k + 1]) {
        assert k > 0 ==> cuts[k] == more[k - 1] && cuts[k + 1] == more[k];
      }
    }
  }

  lemma FirstFits(words: seq<Row>, width: nat)
    requires words != [] && |words[0]| <= width
    ensures Fitting(words, width) > 0
  {
  }

  /** Every line takes as many words as fit: a line break, with no word cut, stands only where the next word would not fit,
      and only a word longer than any line is cut, in pieces of its own. */
  lemma WrapsOnlyWhenFull(text: Row, width: nat)
    requires 0 < width < |text|
    ensures exists cuts :: Cuts(Split(text), width, 0, cuts) && Wrapped(text, width) == LinesOf(Split(text), width, cuts)
  {
    hide Split, Fill, LinesOf, Cuts;
    var cuts := FillCuts(Split(text), width, 0);
    assert Split(text)[0..] == Split(text);
  }

  // ----- what wrapping keeps -----

  /** No wrapped line is longer than the width; a text that fits, or a width of zero, is not wrapped. */
  lemma WrappedLinesFit(text: Row, width: int, line: Row)
    requires width > 0 && line in Wrapped(text, width)
    ensures |line| <= width
  {
    if |text| > width {
      FilledLinesFit(Split(text), width, line);
    }
  }

  lemma {:induction false} FilledLinesFit(words: seq<Row>, width: nat, line: Row)
    requires width > 0 && line in Fill(words, width)
    ensures |line| <= width
    decreases |words|
  {
    if |words[0]| > width {
      if line in Pieces(words[0], width) {
        PiecesFit(words[0], width, line);
      } else {
        FilledLinesFit(words[1..], width, line);
      }
    } else {
      var n := Fitting(words, width);
      if line !in Line(Concat(words[..n])) {
        FilledLinesFit(words[n..], width, line);
      }
    }
  }

  lemma {:induction false} PiecesFit(word: Row, width: nat, piece: Row)
    requires width > 0 && piece in Pieces(word, width)
    ensures |piece| <= width
    decreases |word|
  {
    if |word| > width && piece != word[..width] {
      PiecesFit(word[width..], width, piece);
    }
  }

  /** The lines, each followed by its gap. */
  function Woven(lines: seq<Row>, gaps: seq<Row>): Row
    requires |lines| == |gaps|
  {
    if lines == [] then [] else lines[0] + gaps[0] + Woven(lines[1..], gaps[1..])
  }

  /** The text is the lines in order with nothing but white space between and behind them. */
  ghost predicate LosesOnlySpace(lines: seq<Row>, text: Row) {
    exists gaps: seq<Row> | |gaps| == |lines| && (forall gap | gap in gaps :: AllSpace(gap)) :: Woven(lines, gaps) == text
  }

  lemma LosesNothing(line: Row)
    ensures LosesOnlySpace([], []) && LosesOnlySpace([line], line) && LosesOnlySpace([TrimEnd(line)], line)
  {
    hide LosesOnlySpace, TrimEnd;
    var none: Row := [];
    assert line + none == line && line == TrimEnd(line) + line[|TrimEnd(line)|..];
    LosesGap(line, none);
    LosesGap(TrimEnd(line), line[|TrimEnd(line)|..]);
    LosesInNoLines();
  }

  lemma LosesGap(line: Row, gap: Row)
    requires AllSpace(gap)
    ensures LosesOnlySpace([line], line + gap)
  {
    hide AllSpace;
    var gaps := [gap];
    assert |gaps| == 1 && forall g | g in gaps :: AllSpace(g);
    assert Woven([line], gaps) == line + gap + [] == line + gap;
  }

  lemma LosesInNoLines()
    ensures LosesOnlySpace([], [])
  {
    assert Woven([], []) == [];
  }

  lemma {:induction false} WovenJoins(a: seq<Row>, g: seq<Row>, b: seq<Row>, h: seq<Row>)
    requires |a| == |g| && |b| == |h|
    ensures Woven(a + b, g + h) == Woven(a, g) + Woven(b, h)
  {
    if a == [] {
      assert a + b == b && g + h == h;
    } else {
      WovenJoins(a[1..], g[1..], b, h);
      assert (a + b)[1..] == a[1..] + b && (g + h)[1..] == g[1..] + h;
    }
  }

  lemma LossesJoin(a: seq<Row>, s: Row, b: seq<Row>, t: Row)
    requires LosesOnlySpace(a, s) && LosesOnlySpace(b, t)
    ensures LosesOnlySpace(a + b, s + t)
  {
    var g :| |g| == |a| && (forall gap | gap in g :: AllSpace(gap)) && Woven(a, g) == s;
    var h :| |h| == |b| && (forall gap | gap in h :: AllSpace(gap)) && Woven(b, h) == t;
    WovenJoins(a, g, b, h);
    assert |g + h| == |a + b| && forall gap | gap in g + h :: AllSpace(gap);
  }

  /** Wrapping loses nothing but white space at the ends of lines. */
  lemma WrappingLosesOnlySpace(text: Row, width: int)
    ensures LosesOnlySpace(Wrapped(text, width), text)
  {
    LosesNothing(text);
    if width > 0 && |text| > width {
      SplitConcat(text);
      FillingLosesOnlySpace(Split(text), width);
    }
  }

  lemma {:induction false} FillingLosesOnlySpace(words: seq<Row>, width: nat)
    requires width > 0
    ensures LosesOnlySpace(Fill(words, width), Concat(words))
    decreases |words|
  {
    hide Fitting, LosesOnlySpace, Pieces, TrimEnd;
    LosesNothing([]);
    if words != [] {
      if |words[0]| > width {
        PiecesLoseNothing(words[0], width);
        FillingLosesOnlySpace(words[1..], width);
        LossesJoin(Pieces(words[0], width), words[0], Fill(words[1..], width), Concat(words[1..]));
      } else {
        var n := Fitting(words, width);
        assert n > 0 by { FittingStarts(words, width); }
        ConcatSplit(words, n);
        LosesNothing(Concat(words[..n]));
        FillingLosesOnlySpace(words[n..], width);
        LossesJoin(Line(Concat(words[..n])), Concat(words[..n]), Fill(words[n..], width), Concat(words[n..]));
      }
    }
  }

  lemma FittingStarts(words: seq<Row>, width: nat)
    requires words != [] && |words[0]| <= width
    ensures Fitting(words, width) > 0
  {
  }

  lemma {:induction false} PiecesLoseNothing(word: Row, width: nat)
    requires width > 0
    ensures LosesOnlySpace(Pieces(word, width), word)
    decreases |word|
  {
    hide LosesOnlySpace, TrimEnd;
    LosesNothing(word);
    if |word| > width {
      LosesNothing(word[..width]);
      PiecesLoseNothing(word[width..], width);
      LossesJoin([word[..width]], word[..width], Pieces(word[width..], width), word[width..]);
      assert word == word[..width] + word[width..];
    }
  }

  /** The words of a text alternate: without white space, then nothing but white space. */
  lemma {:induction false} SplitAlternates(s: Row, i: nat)
    requires i < |Split(s)|
    ensures i % 2 == 0 ==> forall u | u in Split(s)[i] :: !Space(u)
    ensures i % 2 == 1 ==> Split(s)[i] != [] && AllSpace(Split(s)[i])
    decreases i
  {
    hide Span, Concat, Space, AllSpace, Split;
    SpanParts(s);
    SplitAt(s, i);
    var n := Span(s, false);
    if n < |s| && i >= 2 {
      SplitAlternates(s[n..][Span(s[n..], true)..], i - 2);
    }
  }

  lemma SplitAt(s: Row, i: nat)
    requires i < |Split(s)|
    ensures var n := Span(s, false);
            if n == |s| then i == 0 && Split(s)[i] == s[..n]
            else if i == 0 then Split(s)[i] == s[..n]
            else
              var k := Span(s[n..], true);
              if i == 1 then Split(s)[i] == s[n..][..k]
              else var rest := Split(s[n..][k..]); i - 2 < |rest| && Split(s)[i] == rest[i - 2]
  {
    hide Span, Concat;
    var n := Span(s, false);
    if n == |s| {
      assert s[..n] == s;
    } else {
      var rest := s[n..];
      var k := Span(rest, true);
      var parts := [s[..n], rest[..k]];
      assert Split(s) == parts + Split(rest[k..]);
      assert |parts| == 2 && parts[0] == s[..n] && parts[1] == rest[..k];
    }
  }

  lemma SpanParts(s: Row)
    ensures var n := Span(s, false);
            && (forall u | u in s[..n] :: !Space(u))
            && (n < |s| ==> Span(s[n..], true) > 0 && AllSpace(s[n..][..Span(s[n..], true)]))
  {
  }

  /** Wrapping counts units, not cells: two wide characters pass as two and occupy four. */
  lemma WrappedLineMayBeTooWide()
    ensures var text: Row := [0x6c49, 0x5b57]; Wrapped(text, 3) == [text] && VisibleWidth(text) == 4
  {
    var text: Row := [0x6c49, 0x5b57];
    assert text[1..] == [0x5b57] && text[1..][1..] == [];
    assert TokenLen(text) == 1 && TokenWidth(text) == 2 && TokenLen(text[1..]) == 1 && TokenWidth(text[1..]) == 2;
  }
}

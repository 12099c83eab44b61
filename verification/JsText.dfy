/** The string operations the source relies on: search, trimming, line splitting and joining.
    A string is a sequence of code points; the algebra below never looks inside one. */
module JsText {
  import opened Wrappers

  // ----- searching -----

  predicate At(s: string, pat: string, i: nat) {
    i + |pat| <= |s| && s[i..i + |pat|] == pat
  }

  function IndexFrom(s: string, pat: string, from: nat): (r: Option<nat>)
    requires from <= |s|
    ensures r.Some? ==> from <= r.value && r.value + |pat| <= |s|
    decreases |s| - from
  {
    if At(s, pat, from) then Some(from)
    else if from == |s| then None
    else IndexFrom(s, pat, from + 1)
  }

  /** `indexOf`: the first occurrence, or None where the source has -1. */
  function IndexOf(s: string, pat: string): (r: Option<nat>)
    ensures r.Some? ==> r.value + |pat| <= |s|
  {
    IndexFrom(s, pat, 0)
  }

  predicate Contains(s: string, pat: string) {
    IndexOf(s, pat).Some?
  }

  lemma {:induction false} IndexFromIsFirst(s: string, pat: string, from: nat)
    requires from <= |s|
    ensures match IndexFrom(s, pat, from)
            case Some(i) => from <= i && At(s, pat, i) && forall j: nat :: from <= j < i ==> !At(s, pat, j)
            case None => forall j: nat :: from <= j ==> !At(s, pat, j)
    decreases |s| - from
  {
    if !At(s, pat, from) && from < |s| {
      IndexFromIsFirst(s, pat, from + 1);
    }
  }

  /** `IndexOf` finds the first occurrence, and finds one whenever there is one. */
  lemma IndexIsFirst(s: string, pat: string)
    ensures match IndexOf(s, pat)
            case Some(i) => At(s, pat, i) && forall j: nat :: j < i ==> !At(s, pat, j)
            case None => forall j: nat :: !At(s, pat, j)
  {
    IndexFromIsFirst(s, pat, 0);
  }

  lemma IndexIs(s: string, pat: string, i: nat)
    requires At(s, pat, i)
    requires forall j: nat :: j < i ==> !At(s, pat, j)
    ensures IndexOf(s, pat) == Some(i)
  {
    IndexIsFirst(s, pat);
  }

  /** An occurrence inside a concatenation lies in the left part, in the right part, or across the seam. */
  lemma AtConcat(a: string, b: string, pat: string, i: nat)
    ensures i + |pat| <= |a| ==> At(a + b, pat, i) == At(a, pat, i)
    ensures i >= |a| ==> At(a + b, pat, i) == At(b, pat, i - |a|)
  {
    if i + |pat| <= |a| {
      assert (a + b)[i..i + |pat|] == a[i..i + |pat|];
    }
    if i >= |a| && i + |pat| <= |a| + |b| {
      assert (a + b)[i..i + |pat|] == b[i - |a|..i - |a| + |pat|];
    }
  }

  /** No occurrence crosses a character the pattern does not contain. */
  lemma NoStraddle(a: string, b: string, pat: string, i: nat)
    requires a != [] && a[|a| - 1] !in pat
    requires i < |a| < i + |pat|
    ensures !At(a + b, pat, i)
  {
    var k := |a| - 1 - i;
    assert i + |pat| <= |a + b| ==> (a + b)[i..i + |pat|][k] == a[|a| - 1];
  }

  /** A character outside the pattern separates its occurrences. */
  lemma ContainsAcross(a: string, c: char, b: string, pat: string)
    requires c !in pat && pat != ""
    ensures Contains(a + [c] + b, pat) <==> Contains(a, pat) || Contains(b, pat)
  {
    var ac := a + [c];
    IndexIsFirst(a, pat);
    IndexIsFirst(b, pat);
    IndexIsFirst(ac + b, pat);
    forall i: nat ensures At(ac + b, pat, i) <==> At(a, pat, i) || (i >= |ac| && At(b, pat, i - |ac|)) {
      AtConcat(ac, b, pat, i);
      AtConcat(a, [c], pat, i);
      if i < |ac| < i + |pat| {
        NoStraddle(ac, b, pat, i);
      } else if i + |pat| == |ac| {
        assert ac[i..i + |pat|][|pat| - 1] == c;
      }
    }
    if Contains(b, pat) {
      var j := IndexOf(b, pat).value;
      assert At(b, pat, |ac| + j - |ac|);
      assert At(ac + b, pat, |ac| + j);
    }
  }

  /** A prefix without the pattern's first character adds no occurrence. */
  lemma ContainsAfter(a: string, b: string, pat: string)
    requires pat != "" && pat[0] !in a
    ensures Contains(a + b, pat) <==> Contains(b, pat)
  {
    IndexIsFirst(b, pat);
    IndexIsFirst(a + b, pat);
    forall i: nat ensures At(a + b, pat, i) <==> i >= |a| && At(b, pat, i - |a|) {
      AtConcat(a, b, pat, i);
      if i < |a| && i + |pat| <= |a + b| {
        assert (a + b)[i..i + |pat|][0] == a[i];
      }
    }
    if Contains(b, pat) {
      var j := IndexOf(b, pat).value;
      assert At(b, pat, |a| + j - |a|);
      assert At(a + b, pat, |a| + j);
    }
  }

  // ----- trimming -----

  predicate IsSpace(c: char) {
    || '\t' <= c <= '\r'
    || c == ' ' || c == '\U{a0}' || c == '\U{1680}'
    || '\U{2000}' <= c <= '\U{200a}'
    || c == '\U{2028}' || c == '\U{2029}' || c == '\U{202f}' || c == '\U{205f}' || c == '\U{3000}' || c == '\U{feff}'
  }

  function TrimEnd(s: string): string {
    if s != [] && IsSpace(s[|s| - 1]) then TrimEnd(s[..|s| - 1]) else s
  }

  function TrimStart(s: string): string {
    if s != [] && IsSpace(s[0]) then TrimStart(s[1..]) else s
  }

  function Trim(s: string): string {
    TrimStart(TrimEnd(s))
  }

  // ----- lines -----

  function DropCr(line: string): string {
    if line != [] && line[|line| - 1] == '\r' then line[..|line| - 1] else line
  }

  /** Where the first line ends: the index of its newline, or the end of the text. */
  function LineEnd(s: string): (k: nat)
    ensures k <= |s| && (forall i :: 0 <= i < k ==> s[i] != '\n')
    ensures k < |s| ==> s[k] == '\n'
  {
    if s == "" || s[0] == '\n' then 0 else 1 + LineEnd(s[1..])
  }

  /** `split(/\r?\n/)`. */
  function Lines(s: string): seq<string>
    decreases |s|
  {
    var k := LineEnd(s);
    if k == |s| then [s] else [DropCr(s[..k])] + Lines(s[k + 1..])
  }

  /** Some line, once trimmed, is exactly `wanted`. */
  predicate HasLine(s: string, wanted: string)
    decreases |s|
  {
    var k := LineEnd(s);
    Trim(s[..k]) == wanted || (k < |s| && HasLine(s[k + 1..], wanted))
  }

  /** Trimming removes the carriage return that `\r?` would have consumed, so both readings of a line agree. */
  lemma TrimDropsCr(line: string)
    ensures Trim(DropCr(line)) == Trim(line)
  {
  }

  function TrimAll(lines: seq<string>): seq<string> {
    if lines == [] then [] else [Trim(lines[0])] + TrimAll(lines[1..])
  }

  lemma TrimAllCons(line: string, rest: seq<string>)
    ensures TrimAll([line] + rest) == [Trim(line)] + TrimAll(rest)
  {
    assert ([line] + rest)[1..] == rest;
  }

  lemma InCons(x: string, rest: seq<string>, wanted: string)
    ensures wanted in [x] + rest <==> x == wanted || wanted in rest
  {
  }

  lemma TrimmedLinesStep(s: string, k: nat)
    requires k == LineEnd(s) < |s|
    ensures TrimAll(Lines(s)) == [Trim(s[..k])] + TrimAll(Lines(s[k + 1..]))
  {
    hide Trim, DropCr, TrimAll, LineEnd;
    TrimDropsCr(s[..k]);
    TrimAllCons(DropCr(s[..k]), Lines(s[k + 1..]));
  }

  lemma TrimmedLinesEnd(s: string)
    requires LineEnd(s) == |s|
    ensures TrimAll(Lines(s)) == [Trim(s[..LineEnd(s)])]
  {
    assert s[..|s|] == s;
    TrimAllCons(s, []);
    assert [s] + [] == [s];
  }

  /** The recursive reading is the source's `split(...).some(line => line.trim() === wanted)`. */
  lemma {:induction false} HasLineIsSome(s: string, wanted: string)
    ensures HasLine(s, wanted) <==> wanted in TrimAll(Lines(s))
    decreases |s|
  {
    var k := LineEnd(s);
    if k == |s| {
      TrimmedLinesEnd(s);
    } else {
      TrimmedLinesStep(s, k);
      HasLineIsSome(s[k + 1..], wanted);
      InCons(Trim(s[..k]), TrimAll(Lines(s[k + 1..])), wanted);
    }
  }

  lemma LineEndIs(s: string, k: nat)
    requires k <= |s| && forall i :: 0 <= i < k ==> s[i] != '\n'
    requires k < |s| ==> s[k] == '\n'
    ensures LineEnd(s) == k
  {
  }

  /** A newline separates: the lines of `a \n b` are those of `a` and those of `b`. */
  lemma {:induction false} HasLineSplit(a: string, b: string, wanted: string)
    ensures HasLine(a + "\n" + b, wanted) <==> HasLine(a, wanted) || HasLine(b, wanted)
    decreases |a|
  {
    var s, k := a + "\n" + b, LineEnd(a);
    assert s[..k] == a[..k];
    LineEndIs(s, k);
    if k == |a| {
      assert s[k + 1..] == b;
    } else {
      assert s[k + 1..] == a[k + 1..] + "\n" + b;
      HasLineSplit(a[k + 1..], b, wanted);
    }
  }

  // ----- joining -----

  function Join(parts: seq<string>, sep: string): string {
    if |parts| == 0 then ""
    else if |parts| == 1 then parts[0]
    else parts[0] + sep + Join(parts[1..], sep)
  }

  lemma {:induction false} JoinSnoc(parts: seq<string>, last: string, sep: string)
    requires parts != []
    ensures Join(parts + [last], sep) == Join(parts, sep) + sep + last
  {
    if |parts| == 1 {
      assert (parts + [last])[1..] == [last];
    } else {
      assert (parts + [last])[1..] == parts[1..] + [last];
      JoinSnoc(parts[1..], last, sep);
    }
  }

  lemma {:induction false} JoinAppend(p: seq<string>, q: seq<string>, sep: string)
    requires p != [] && q != []
    ensures Join(p + q, sep) == Join(p, sep) + sep + Join(q, sep)
  {
    assert (p + q)[1..] == p[1..] + q;
    if |p| > 1 {
      JoinAppend(p[1..], q, sep);
    }
  }

  /** A separator that neither left part holds cuts a text in one way only. */
  lemma CutsOnce(a: string, b: string, a': string, b': string, c: char)
    requires a + [c] + b == a' + [c] + b'
    requires c !in a && c !in a'
    ensures a == a' && b == b'
  {
    var s := a + [c] + b;
    forall i | 0 <= i < |a| ensures s[i] != c {
      assert s[i] == a[i];
    }
    forall i | 0 <= i < |a'| ensures s[i] != c {
      assert s[i] == a'[i];
    }
    assert s[|a|] == c && s[|a'|] == c;
    assert s[..|a|] == a && s[..|a'|] == a' && s[|a| + 1..] == b && s[|a'| + 1..] == b';
  }

  lemma JoinHoldsSeparator(parts: seq<string>, c: char)
    ensures |parts| > 1 ==> c in Join(parts, [c])
  {
    if |parts| > 1 {
      assert (parts[0] + [c] + Join(parts[1..], [c]))[|parts[0]|] == c;
    }
  }

  /** Joining separator-free parts loses nothing. */
  lemma {:induction false} JoinDetermines(p: seq<string>, q: seq<string>, c: char)
    requires p != [] && q != []
    requires forall x | x in p :: c !in x
    requires forall x | x in q :: c !in x
    requires Join(p, [c]) == Join(q, [c])
    ensures p == q
  {
    var ps, qs := Join(p[1..], [c]), Join(q[1..], [c]);
    assert p[0] in p && q[0] in q;
    if |p| == 1 || |q| == 1 {
      JoinHoldsSeparator(p, c);
      JoinHoldsSeparator(q, c);
      assert p == [p[0]] && q == [q[0]];
    } else {
      CutsOnce(p[0], ps, q[0], qs, c);
      JoinDetermines(p[1..], q[1..], c);
      assert p == [p[0]] + p[1..] && q == [q[0]] + q[1..];
    }
  }

  predicate SomeContains(parts: seq<string>, pat: string) {
    parts != [] && (Contains(parts[0], pat) || SomeContains(parts[1..], pat))
  }

  lemma {:induction false} SomeContainsConcat(a: seq<string>, b: seq<string>, pat: string)
    ensures SomeContains(a + b, pat) <==> SomeContains(a, pat) || SomeContains(b, pat)
  {
    if a == [] {
      assert a + b == b;
    } else {
      assert (a + b)[1..] == a[1..] + b;
      SomeContainsConcat(a[1..], b, pat);
    }
  }

  /** A one-line pattern occurs in joined lines exactly when it occurs in one of them. */
  lemma {:induction false} ContainsJoin(parts: seq<string>, pat: string)
    requires parts != [] && '\n' !in pat && pat != ""
    ensures Contains(Join(parts, "\n"), pat) <==> SomeContains(parts, pat)
  {
    if |parts| > 1 {
      var rest := Join(parts[1..], "\n");
      assert parts[0] + "\n" + rest == parts[0] + ['\n'] + rest;
      ContainsAcross(parts[0], '\n', rest, pat);
      ContainsJoin(parts[1..], pat);
    }
  }

  /** `filter(Boolean)` on strings. */
  function NonEmpty(parts: seq<string>): seq<string> {
    if parts == [] then [] else (if parts[0] == "" then [] else [parts[0]]) + NonEmpty(parts[1..])
  }

  // ----- case folding, exact on ASCII -----

  function LowerChar(c: char): char {
    if 'A' <= c <= 'Z' then (c as int + 32) as char else c
  }

  function Lower(s: string): (r: string)
    ensures |r| == |s|
  {
    seq(|s|, i requires 0 <= i < |s| => LowerChar(s[i]))
  }

  function UpperChar(c: char): char {
    if 'a' <= c <= 'z' then (c as int - 32) as char else c
  }

  function Upper(s: string): (r: string)
    ensures |r| == |s|
  {
    seq(|s|, i requires 0 <= i < |s| => UpperChar(s[i]))
  }
}

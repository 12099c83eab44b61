/** Parsing and comparing versions (extensions/swarm-update/extension.ts), against section 11 of Semantic Versioning 2.0.0. */
module SemVer {
  import opened Wrappers

  datatype Version = Version(major: nat, minor: nat, patch: nat, prerelease: seq<string>)

  // ----- characters and numbers -----

  predicate Digit(c: char) {
    '0' <= c <= '9'
  }

  predicate Digits(s: string) {
    forall i | 0 <= i < |s| :: Digit(s[i])
  }

  /** `/^\d+$/` */
  predicate Numeric(s: string) {
    s != [] && Digits(s)
  }

  function Value(s: string): nat
    requires Digits(s)
  {
    if s == [] then 0 else Value(s[..|s| - 1]) * 10 + (s[|s| - 1] as int - '0' as int)
  }

  /** A numeric identifier without a leading zero (section 9 of Semantic Versioning 2.0.0). */
  predicate Canonical(s: string) {
    Numeric(s) && (s[0] == '0' ==> |s| == 1)
  }

  predicate IdentifierChar(c: char) {
    Digit(c) || 'A' <= c <= 'Z' || 'a' <= c <= 'z' || c == '-'
  }

  predicate PrereleaseChar(c: char) {
    IdentifierChar(c) || c == '.'
  }

  // ----- parseVersion -----

  function DigitRun(s: string): (n: nat)
    ensures n <= |s| && Digits(s[..n]) && (n < |s| ==> !Digit(s[n]))
  {
    if s != [] && Digit(s[0]) then
      var n := DigitRun(s[1..]);
      assert s[..n + 1] == [s[0]] + s[1..][..n];
      n + 1
    else 0
  }

  /** The number a text starts with, `0` or without a leading zero, and what follows it. */
  function TakeNumber(s: string): Option<(nat, string)> {
    var n := DigitRun(s);
    if Canonical(s[..n]) then Some((Value(s[..n]), s[n..])) else None
  }

  function SplitDots(s: string): (ids: seq<string>)
    ensures ids != []
  {
    if s == [] then [""]
    else
      var rest := SplitDots(s[1..]);
      if s[0] == '.' then [""] + rest else [[s[0]] + rest[0]] + rest[1..]
  }

  function TakePrerelease(s: string): Option<seq<string>> {
    if s == [] then Some([])
    else if s[0] == '-' && |s| > 1 && forall c | c in s[1..] :: PrereleaseChar(c) then Some(SplitDots(s[1..]))
    else None
  }

  function TakeTwoNumbers(s: string): Option<(nat, nat, string)> {
    match TakeNumber(s)
    case None => None
    case Some((first, rest)) =>
      if rest == [] || rest[0] != '.' then None
      else
        match TakeNumber(rest[1..])
        case None => None
        case Some((second, after)) => Some((first, second, after))
  }

  function ParseVersion(s: string): Option<Version> {
    match TakeTwoNumbers(s)
    case None => None
    case Some((major, minor, rest)) =>
      if rest == [] || rest[0] != '.' then None
      else
        match TakeNumber(rest[1..])
        case None => None
        case Some((patch, tail)) =>
          match TakePrerelease(tail)
          case None => None
          case Some(ids) => Some(Version(major, minor, patch, ids))
  }

  // ----- what parsing accepts -----

  /** The text has the shape of the pattern: three numbers with dots between them, then perhaps a dash and a prerelease. */
  predicate Spells(s: string, major: string, minor: string, patch: string, tail: string) {
    && Canonical(major) && Canonical(minor) && Canonical(patch)
    && s == major + (['.'] + (minor + (['.'] + (patch + tail))))
    && (tail == [] || (|tail| > 1 && tail[0] == '-' && forall c | c in tail[1..] :: PrereleaseChar(c)))
  }

  ghost predicate Denotes(s: string, v: Version) {
    exists major, minor, patch, tail | Spells(s, major, minor, patch, tail) ::
      v == Version(Value(major), Value(minor), Value(patch), if tail == [] then [] else SplitDots(tail[1..]))
  }

  function Render(v: Version): string {
    Decimal(v.major) + "." + Decimal(v.minor) + "." + Decimal(v.patch) + (if v.prerelease == [] then "" else "-" + JoinDots(v.prerelease))
  }

  /** A version that can be written: its prerelease is absent, or spells something with identifier characters only. */
  predicate Writable(v: Version) {
    WritablePrerelease(v.prerelease)
  }

  predicate WritablePrerelease(pre: seq<string>) {
    pre == [] || (JoinDots(pre) != "" && forall id | id in pre :: forall c | c in id :: c in IDENTIFIER_CHARS)
  }

  const LETTERS := "ABCDEFGHIJKLMNOPQRSTUVWXYZ"
  const SMALL_LETTERS := "abcdefghijklmnopqrstuvwxyz"
  const IDENTIFIER_CHARS := DIGITS + LETTERS + SMALL_LETTERS + "-"

  lemma DigitsAreListed(c: char)
    ensures Digit(c) <==> c in DIGITS
  {
    if Digit(c) {
      assert DIGITS[c as int - '0' as int] == c;
    }
  }

  lemma LettersAreListed(c: char)
    ensures 'A' <= c <= 'Z' <==> c in LETTERS
  {
    LetterAt();
    if 'A' <= c <= 'Z' {
      assert LETTERS[c as int - 'A' as int] == c;
    }
  }

  lemma LetterAt()
    ensures |LETTERS| == 26 && forall i | 0 <= i < 26 :: LETTERS[i] as int == 'A' as int + i
  {
  }

  lemma SmallLettersAreListed(c: char)
    ensures 'a' <= c <= 'z' <==> c in SMALL_LETTERS
  {
    SmallLetterAt();
    if 'a' <= c <= 'z' {
      assert SMALL_LETTERS[c as int - 'a' as int] == c;
    }
  }

  lemma SmallLetterAt()
    ensures |SMALL_LETTERS| == 26 && forall i | 0 <= i < 26 :: SMALL_LETTERS[i] as int == 'a' as int + i
  {
  }

  lemma IdentifierCharsAreListed(c: char)
    ensures IdentifierChar(c) <==> c in IDENTIFIER_CHARS
  {
    hide LETTERS, SMALL_LETTERS;
    DigitsAreListed(c);
    LettersAreListed(c);
    SmallLettersAreListed(c);
  }

  lemma {:induction false} DigitRunIs(digits: string, rest: string)
    requires Digits(digits) && (rest == [] || !Digit(rest[0]))
    ensures DigitRun(digits + rest) == |digits|
  {
    if digits == [] {
      assert digits + rest == rest;
    } else {
      assert (digits + rest)[1..] == digits[1..] + rest;
      DigitRunIs(digits[1..], rest);
    }
  }

  lemma TakeNumberIs(number: string, rest: string)
    requires Canonical(number) && (rest == [] || !Digit(rest[0]))
    ensures TakeNumber(number + rest) == Some((Value(number), rest))
  {
    DigitRunIs(number, rest);
    assert (number + rest)[..|number|] == number && (number + rest)[|number|..] == rest;
  }

  /** Parsing succeeds exactly on the texts the pattern describes. */
  lemma ParsesThePattern(s: string, v: Version)
    ensures ParseVersion(s) == Some(v) <==> Denotes(s, v)
  {
    if Denotes(s, v) {
      var major, minor, patch, tail :| Spells(s, major, minor, patch, tail)
        && v == Version(Value(major), Value(minor), Value(patch), if tail == [] then [] else SplitDots(tail[1..]));
      SpelledParses(s, major, minor, patch, tail);
    }
    if ParseVersion(s) == Some(v) {
      ParsedIsSpelled(s);
    }
  }

  lemma SpelledParses(s: string, major: string, minor: string, patch: string, tail: string)
    requires Spells(s, major, minor, patch, tail)
    ensures ParseVersion(s) == Some(Version(Value(major), Value(minor), Value(patch), if tail == [] then [] else SplitDots(tail[1..])))
  {
    hide TakeNumber, Canonical, Value, SplitDots;
    TakeNumberIs(patch, tail);
    var third := patch + tail;
    TakeNumberIs(minor, ['.'] + third);
    assert (['.'] + third)[1..] == third;
    var second := minor + (['.'] + third);
    TakeNumberIs(major, ['.'] + second);
    assert (['.'] + second)[1..] == second;
  }

  lemma TakenNumberSpelled(s: string) returns (number: string)
    requires TakeNumber(s).Some?
    ensures Canonical(number) && TakeNumber(s).value.0 == Value(number) && s == number + TakeNumber(s).value.1
  {
    number := s[..DigitRun(s)];
  }

  lemma ParsedIsSpelled(s: string)
    requires ParseVersion(s).Some?
    ensures Denotes(s, ParseVersion(s).value)
  {
    hide Value, SplitDots, Canonical, TakeNumber;
    var major := TakenNumberSpelled(s);
    var rest := TakeNumber(s).value.1;
    var minor := TakenNumberSpelled(rest[1..]);
    var after := TakeNumber(rest[1..]).value.1;
    var patch := TakenNumberSpelled(after[1..]);
    var tail := TakeNumber(after[1..]).value.1;
    assert rest == ['.'] + rest[1..] && after == ['.'] + after[1..];
    assert Spells(s, major, minor, patch, tail);
  }

  function JoinDots(ids: seq<string>): string
    requires ids != []
  {
    if |ids| == 1 then ids[0] else ids[0] + ['.'] + JoinDots(ids[1..])
  }

  /** Splitting loses nothing, and leaves no dot in an identifier. */
  lemma {:induction false} SplitDotsJoins(s: string)
    ensures JoinDots(SplitDots(s)) == s && forall id | id in SplitDots(s) :: '.' !in id
  {
    if s != [] {
      var rest := SplitDots(s[1..]);
      SplitDotsJoins(s[1..]);
      assert s == [s[0]] + s[1..];
      if s[0] == '.' {
        assert ([""] + rest)[1..] == rest;
      } else {
        var ids := [[s[0]] + rest[0]] + rest[1..];
        assert ids[1..] == rest[1..];
        assert forall id | id in ids :: id == ids[0] || id in rest;
      }
    }
  }

  lemma SplitCons(c: char, s: string)
    requires c != '.'
    ensures var rest := SplitDots(s); SplitDots([c] + s) == [[c] + rest[0]] + rest[1..]
  {
    assert ([c] + s)[1..] == s;
  }

  /** Identifiers without dots are recovered from the prerelease they make. */
  lemma {:induction false} JoinDotsSplits(ids: seq<string>)
    requires ids != [] && forall id | id in ids :: '.' !in id
    ensures SplitDots(JoinDots(ids)) == ids
    decreases |ids|
  {
    if |ids| == 1 {
      NoDots(ids[0]);
    } else {
      assert ids[0] in ids && forall id | id in ids[1..] :: id in ids;
      JoinDotsSplits(ids[1..]);
      SplitAfter(ids[0], JoinDots(ids[1..]));
      assert ids == [ids[0]] + ids[1..];
    }
  }

  lemma {:induction false} SplitAfter(id: string, rest: string)
    requires '.' !in id
    ensures SplitDots(id + ['.'] + rest) == [id] + SplitDots(rest)
    decreases |id|
  {
    var s := id + ['.'] + rest;
    if id == [] {
      assert s == ['.'] + rest && s[1..] == rest;
    } else {
      assert id[0] in id && s == [id[0]] + (id[1..] + ['.'] + rest);
      SplitAfter(id[1..], rest);
      SplitCons(id[0], id[1..] + ['.'] + rest);
      assert id == [id[0]] + id[1..];
    }
  }

  predicate AllPrerelease(id: string) {
    forall c | c in id :: PrereleaseChar(c)
  }

  lemma {:induction false} JoinedChars(ids: seq<string>)
    requires ids != []
    ensures (forall c | c in JoinDots(ids) :: PrereleaseChar(c)) <==> (forall id | id in ids :: AllPrerelease(id))
    decreases |ids|
  {
    assert ids[0] in ids;
    if |ids| == 1 {
      assert ids == [ids[0]];
    } else {
      JoinedChars(ids[1..]);
      assert ids == [ids[0]] + ids[1..];
      var rest := JoinDots(ids[1..]);
      assert forall c :: c in ids[0] + ['.'] + rest <==> c in ids[0] || c == '.' || c in rest;
      assert AllPrerelease(ids[0] + ['.'] + rest) <==> AllPrerelease(ids[0]) && AllPrerelease(rest);
    }
  }

  /** What is spelled is what is written: the prerelease of a spelled version, and nothing else, has that text. */
  lemma TailIsRendered(tail: string, pre: seq<string>)
    ensures (tail == [] || (|tail| > 1 && tail[0] == '-' && forall c | c in tail[1..] :: PrereleaseChar(c)))
            && pre == (if tail == [] then [] else SplitDots(tail[1..]))
      <==> tail == (if pre == [] then "" else "-" + JoinDots(pre)) && WritablePrerelease(pre)
  {
    forall c ensures IdentifierChar(c) <==> c in IDENTIFIER_CHARS {
      IdentifierCharsAreListed(c);
    }
    if pre != [] {
      var text := "-" + JoinDots(pre);
      assert text[1..] == JoinDots(pre);
      JoinedChars(pre);
      if tail == text && WritablePrerelease(pre) {
        forall id | id in pre ensures '.' !in id {
        }
        JoinDotsSplits(pre);
      }
      if tail != [] && pre == SplitDots(tail[1..]) {
        SplitDotsJoins(tail[1..]);
        if tail[0] == '-' {
          assert tail == "-" + tail[1..];
        }
      }
    }
  }

  /** Parsing succeeds exactly on the texts that some version is written as, in decimal notation and with its identifiers
      joined by dots, and yields that version. */
  lemma ParsesWhatItDenotes(s: string, v: Version)
    ensures ParseVersion(s) == Some(v) <==> Writable(v) && s == Render(v)
  {
    hide ParseVersion, Denotes, Render, Writable;
    ParsesThePattern(s, v);
    DenotedIsRendered(s, v);
    RenderedIsDenoted(s, v);
  }

  lemma DenotedIsRendered(s: string, v: Version)
    ensures Denotes(s, v) ==> Writable(v) && s == Render(v)
  {
    if Denotes(s, v) {
      var major, minor, patch, tail :| Spells(s, major, minor, patch, tail)
        && v == Version(Value(major), Value(minor), Value(patch), if tail == [] then [] else SplitDots(tail[1..]));
      SpelledIsRendered(s, major, minor, patch, tail, v);
    }
  }

  lemma SpelledIsRendered(s: string, major: string, minor: string, patch: string, tail: string, v: Version)
    requires Spells(s, major, minor, patch, tail)
    requires v == Version(Value(major), Value(minor), Value(patch), if tail == [] then [] else SplitDots(tail[1..]))
    ensures Writable(v) && s == Render(v)
  {
    hide Value, SplitDots, JoinDots, Decimal, PrereleaseChar, Canonical, WritablePrerelease;
    SpelledIsDecimal(major);
    SpelledIsDecimal(minor);
    SpelledIsDecimal(patch);
    TailIsRendered(tail, v.prerelease);
    assert s == major + "." + minor + "." + patch + tail;
  }

  lemma RenderedIsDenoted(s: string, v: Version)
    ensures Writable(v) && s == Render(v) ==> Denotes(s, v)
  {
    hide Value, SplitDots, JoinDots, Decimal, Spells, Writable, Render;
    if Writable(v) && s == Render(v) {
      var tail := TailOf(v);
      RenderedSpells(v);
      assert Spells(s, Decimal(v.major), Decimal(v.minor), Decimal(v.patch), tail);
    }
  }

  function TailOf(v: Version): string {
    if v.prerelease == [] then "" else "-" + JoinDots(v.prerelease)
  }

  lemma RenderedSpells(v: Version)
    requires Writable(v)
    ensures Spells(Render(v), Decimal(v.major), Decimal(v.minor), Decimal(v.patch), TailOf(v))
    ensures var tail := TailOf(v);
            v == Version(Value(Decimal(v.major)), Value(Decimal(v.minor)), Value(Decimal(v.patch)), if tail == [] then [] else SplitDots(tail[1..]))
  {
    hide Value, SplitDots, JoinDots, Decimal, PrereleaseChar, WritablePrerelease, Canonical;
    DecimalSpells(v.major);
    DecimalSpells(v.minor);
    DecimalSpells(v.patch);
    TailIsRendered(TailOf(v), v.prerelease);
    Regroup(Decimal(v.major), Decimal(v.minor), Decimal(v.patch), TailOf(v));
  }

  lemma Regroup(major: string, minor: string, patch: string, tail: string)
    ensures major + "." + minor + "." + patch + tail == major + (['.'] + (minor + (['.'] + (patch + tail))))
  {
  }

  // ----- compareVersions -----

  /** Native string comparison: by code unit, a proper prefix first. */
  predicate TextLess(x: string, y: string) {
    y != [] && (x == [] || x[0] < y[0] || (x[0] == y[0] && TextLess(x[1..], y[1..])))
  }

  datatype Compared = Order(order: int) | NotStrict

  /** Two identifiers that differ. */
  function CompareIdentifiers(x: string, y: string): (order: int)
    ensures order == 1 || order == -1
  {
    if Numeric(x) && Numeric(y) then (if Value(x) > Value(y) then 1 else -1)
    else if Numeric(x) != Numeric(y) then (if Numeric(x) then -1 else 1)
    else if TextLess(y, x) then 1 else -1
  }

  function CompareLists(a: seq<string>, b: seq<string>): (order: int)
    ensures -1 <= order <= 1
  {
    if a == [] && b == [] then 0
    else if a == [] then -1
    else if b == [] then 1
    else if a[0] == b[0] then CompareLists(a[1..], b[1..])
    else CompareIdentifiers(a[0], b[0])
  }

  function Compare(a: Version, b: Version): (order: int)
    ensures -1 <= order <= 1
  {
    if a.major != b.major then (if a.major > b.major then 1 else -1)
    else if a.minor != b.minor then (if a.minor > b.minor then 1 else -1)
    else if a.patch != b.patch then (if a.patch > b.patch then 1 else -1)
    else if a.prerelease == [] && b.prerelease == [] then 0
    else if a.prerelease == [] then 1
    else if b.prerelease == [] then -1
    else CompareLists(a.prerelease, b.prerelease)
  }

  method CompareVersions(left: string, right: string) returns (order: Compared)
    ensures order == match (ParseVersion(left), ParseVersion(right))
            case (Some(a), Some(b)) => Order(Compare(a, b))
            case _ => NotStrict
  {
    var l, r := ParseVersion(left), ParseVersion(right);
    if l.None? || r.None? {
      return NotStrict;
    }
    var a, b := l.value, r.value;
    var numbers, others := [a.major, a.minor, a.patch], [b.major, b.minor, b.patch];
    for i := 0 to 3
      invariant (i > 0 ==> a.major == b.major) && (i > 1 ==> a.minor == b.minor) && (i > 2 ==> a.patch == b.patch)
    {
      if numbers[i] != others[i] {
        return Order(if numbers[i] > others[i] then 1 else -1);
      }
    }
    if a.prerelease == [] && b.prerelease == [] {
      return Order(0);
    }
    if a.prerelease == [] {
      return Order(1);
    }
    if b.prerelease == [] {
      return Order(-1);
    }
    var result := CompareInOrder(a.prerelease, b.prerelease);
    order := Order(result);
  }

  method CompareInOrder(a: seq<string>, b: seq<string>) returns (order: int)
    ensures order == CompareLists(a, b)
  {
    var most := if |a| > |b| then |a| else |b|;
    assert a[0..] == a && b[0..] == b;
    for i := 0 to most
      invariant i <= |a| && i <= |b| && CompareLists(a, b) == CompareLists(a[i..], b[i..])
    {
      if i == |a| {
        return -1;
      }
      if i == |b| {
        return 1;
      }
      assert a[i..][1..] == a[i + 1..] && b[i..][1..] == b[i + 1..];
      var av, bv := a[i], b[i];
      if av == bv {
        continue;
      }
      var an, bn := Numeric(av), Numeric(bv);
      if an && bn {
        return if Value(av) > Value(bv) then 1 else -1;
      }
      if an != bn {
        return if an then -1 else 1;
      }
      return if TextLess(bv, av) then 1 else -1;
    }
    order := 0;
  }

  // ----- precedence (section 11 of Semantic Versioning 2.0.0) -----

  /** Identifiers: numeric ones numerically, others in ASCII order, and numeric ones before the others. */
  predicate IdentifierPrecedes(x: string, y: string) {
    if Numeric(x) then (Numeric(y) ==> NumberPrecedes(x, y)) else !Numeric(y) && TextPrecedes(x, y)
  }

  /** A numeral without its leading zeros. */
  function StripZeros(s: string): string {
    if s != [] && s[0] == '0' then StripZeros(s[1..]) else s
  }

  /** Numerals by the numbers they spell: without leading zeros the shorter first, and equally long ones in text order. */
  predicate NumberPrecedes(x: string, y: string) {
    var a, b := StripZeros(x), StripZeros(y);
    |a| < |b| || (|a| == |b| && TextPrecedes(a, b))
  }

  predicate TextPrecedes(x: string, y: string) {
    exists n | 0 <= n <= |x| :: PrecedesAt(x, y, n)
  }

  /** The texts agree up to `n`, where the first ends or has the smaller code unit. */
  predicate PrecedesAt(x: string, y: string, n: nat) {
    n <= |x| && n < |y| && x[..n] == y[..n] && (n == |x| || x[n] < y[n])
  }

  /** Prereleases: by the first identifier that differs; when none does, the shorter list first. */
  predicate PrereleasePrecedes(a: seq<string>, b: seq<string>) {
    exists n: nat | n <= |a| && n <= |b| && a[..n] == b[..n] ::
      n < |b| && (n == |a| || (a[n] != b[n] && IdentifierPrecedes(a[n], b[n])))
  }

  predicate Precedes(a: Version, b: Version) {
    || a.major < b.major
    || (a.major == b.major && a.minor < b.minor)
    || (a.major == b.major && a.minor == b.minor && a.patch < b.patch)
    || (a.major == b.major && a.minor == b.minor && a.patch == b.patch && a.prerelease != []
        && (b.prerelease == [] || PrereleasePrecedes(a.prerelease, b.prerelease)))
  }

  /** No numeric identifier has a leading zero. */
  predicate Strict(v: Version) {
    forall x | x in v.prerelease :: Numeric(x) ==> Canonical(x)
  }

  // ----- text order -----

  lemma {:induction false} TextLessMeans(x: string, y: string)
    ensures TextLess(x, y) <==> TextPrecedes(x, y)
    decreases |x|
  {
    if x == [] || y == [] {
      assert x[..0] == y[..0];
      assert PrecedesAt(x, y, 0) <==> x == [] && y != [];
    } else if x[0] == y[0] {
      TextLessMeans(x[1..], y[1..]);
      TextStep(x, y);
    } else {
      assert x[..0] == y[..0];
      assert PrecedesAt(x, y, 0) <==> x[0] < y[0];
      assert forall n | 1 <= n <= |x| && n <= |y| :: x[..n][0] == x[0] && y[..n][0] == y[0];
    }
  }

  lemma TextStep(x: string, y: string)
    requires x != [] && y != [] && x[0] == y[0]
    ensures TextPrecedes(x, y) <==> TextPrecedes(x[1..], y[1..])
  {
    hide TextPrecedes;
    if TextPrecedes(x, y) {
      TextStepIn(x, y);
    }
    if TextPrecedes(x[1..], y[1..]) {
      TextStepOut(x, y);
    }
  }

  lemma TextStepIn(x: string, y: string)
    requires x != [] && y != [] && x[0] == y[0] && TextPrecedes(x, y)
    ensures TextPrecedes(x[1..], y[1..])
  {
    var n: nat :| n <= |x| && PrecedesAt(x, y, n);
    assert n > 0 && x[1..][..n - 1] == x[..n][1..] && y[1..][..n - 1] == y[..n][1..];
    assert PrecedesAt(x[1..], y[1..], n - 1);
  }

  lemma TextStepOut(x: string, y: string)
    requires x != [] && y != [] && x[0] == y[0] && TextPrecedes(x[1..], y[1..])
    ensures TextPrecedes(x, y)
  {
    var s, t := x[1..], y[1..];
    var n: nat :| n <= |s| && PrecedesAt(s, t, n);
    assert x[..n + 1] == [x[0]] + s[..n] && y[..n + 1] == [y[0]] + t[..n];
    assert PrecedesAt(x, y, n + 1);
  }

  lemma {:induction false} TextOrder(x: string, y: string, z: string)
    ensures !(TextLess(x, y) && TextLess(y, x)) && (TextLess(x, y) || TextLess(y, x) || x == y)
    ensures TextLess(x, y) && TextLess(y, z) ==> TextLess(x, z)
    decreases |x|
  {
    if x != [] && y != [] {
      TextOrder(x[1..], y[1..], if z == [] then z else z[1..]);
      assert x[0] == y[0] && x[1..] == y[1..] ==> x == [x[0]] + x[1..] == y;
    }
  }

  // ----- numeric identifiers -----

  /** Without leading zeros a numeric identifier is determined by its value. */
  lemma {:induction false} CanonicalDetermines(x: string, y: string)
    requires Canonical(x) && Canonical(y) && Value(x) == Value(y)
    ensures x == y
    decreases |x|
  {
    var front, other := x[..|x| - 1], y[..|y| - 1];
    assert x == front + [x[|x| - 1]] && y == other + [y[|y| - 1]];
    if |x| > 1 {
      PositiveValue(front);
    }
    if |y| > 1 {
      PositiveValue(other);
    }
    if |x| > 1 && |y| > 1 {
      CanonicalDetermines(front, other);
    }
  }

  lemma {:induction false} PositiveValue(s: string)
    requires Numeric(s) && s[0] != '0'
    ensures Value(s) > 0
  {
    if |s| > 1 {
      PositiveValue(s[..|s| - 1]);
    } else {
      assert s[..|s| - 1] == [];
    }
  }

  /** Decimal notation. */
  const DIGITS := "0123456789"

  function Decimal(n: nat): string {
    if n < 10 then [DIGITS[n]] else Decimal(n / 10) + [DIGITS[n % 10]]
  }

  lemma DigitIs(n: nat)
    requires n < 10
    ensures Digit(DIGITS[n]) && DIGITS[n] as int - '0' as int == n && (DIGITS[n] == '0' <==> n == 0)
  {
  }

  /** A number's decimal notation is the numeral without a leading zero that spells it. */
  lemma {:induction false} DecimalSpells(n: nat)
    ensures Canonical(Decimal(n)) && Value(Decimal(n)) == n && (Decimal(n)[0] == '0' <==> n == 0)
  {
    DigitIs(n % 10);
    if n < 10 {
      assert [DIGITS[n]][..0] == [];
    } else {
      DecimalSpells(n / 10);
      var front := Decimal(n / 10);
      assert Decimal(n)[..|front|] == front && Decimal(n)[0] == front[0];
    }
  }

  /** And every such numeral is the decimal notation of the number it spells. */
  lemma SpelledIsDecimal(s: string)
    requires Canonical(s)
    ensures Decimal(Value(s)) == s
  {
    DecimalSpells(Value(s));
    CanonicalDetermines(Decimal(Value(s)), s);
  }

  function Pow10(n: nat): nat {
    if n == 0 then 1 else 10 * Pow10(n - 1)
  }

  function DigitOf(c: char): nat
    requires Digit(c)
  {
    c as int - '0' as int
  }

  lemma {:induction false} ValueFits(s: string)
    requires Digits(s)
    ensures Value(s) < Pow10(|s|)
  {
    if s != [] {
      ValueFits(s[..|s| - 1]);
    }
  }

  lemma {:induction false} LeadingDigit(s: string)
    requires Numeric(s)
    ensures Digits(s[1..]) && Value(s) == DigitOf(s[0]) * Pow10(|s| - 1) + Value(s[1..])
    ensures Value(s) < Pow10(|s|)
    decreases |s|
  {
    ValueFits(s);
    var front, tail := s[..|s| - 1], s[1..];
    if |s| == 1 {
      assert front == [] && tail == [];
    } else {
      LeadingDigit(front);
      assert front[1..] == tail[..|tail| - 1];
      ShiftsUp(DigitOf(s[0]), Pow10(|s| - 2), Value(front[1..]), DigitOf(s[|s| - 1]));
    }
  }

  lemma ShiftsUp(d: nat, p: nat, v: nat, e: nat)
    ensures (d * p + v) * 10 + e == d * (10 * p) + (v * 10 + e)
  {
  }

  lemma {:induction false} StrippedValue(s: string)
    requires Digits(s)
    ensures Digits(StripZeros(s)) && Value(StripZeros(s)) == Value(s) && (StripZeros(s) != [] ==> StripZeros(s)[0] != '0')
    decreases |s|
  {
    if s != [] && s[0] == '0' {
      LeadingDigit(s);
      StrippedValue(s[1..]);
    }
  }

  /** Equally long numerals are ordered as texts. */
  lemma {:induction false} SameLengthOrder(x: string, y: string)
    requires Digits(x) && Digits(y) && |x| == |y|
    ensures Value(x) < Value(y) <==> TextLess(x, y)
    ensures Value(x) == Value(y) <==> x == y
    decreases |x|
  {
    if x != [] {
      LeadingDigit(x);
      LeadingDigit(y);
      SameLengthOrder(x[1..], y[1..]);
      assert x == [x[0]] + x[1..] && y == [y[0]] + y[1..];
      hide Value;
      TailFits(x);
      TailFits(y);
      if x[0] < y[0] {
        HighDigitDecides(DigitOf(x[0]), DigitOf(y[0]), Pow10(|x| - 1), Value(x[1..]), Value(y[1..]));
      } else if y[0] < x[0] {
        HighDigitDecides(DigitOf(y[0]), DigitOf(x[0]), Pow10(|x| - 1), Value(y[1..]), Value(x[1..]));
      }
    }
  }

  lemma HighDigitDecides(d: nat, e: nat, p: nat, v: nat, w: nat)
    requires d < e && v < p
    ensures d * p + v < e * p + w
  {
    TimesGrows(d + 1, e, p);
    assert (d + 1) * p == d * p + p;
  }

  lemma {:induction false} TimesGrows(a: nat, b: nat, p: nat)
    requires a <= b
    ensures a * p <= b * p
    decreases b
  {
    if a < b {
      TimesGrows(a, b - 1, p);
      assert b * p == (b - 1) * p + p;
    }
  }

  lemma TailFits(s: string)
    requires Numeric(s)
    ensures Digits(s[1..]) && Value(s[1..]) < Pow10(|s| - 1)
  {
    if |s| > 1 {
      LeadingDigit(s[1..]);
    } else {
      assert s[1..] == [];
    }
  }

  /** A numeral without a leading zero is at least the power of ten of its length. */
  lemma LongIsLarge(s: string)
    requires Digits(s) && (s != [] ==> s[0] != '0')
    ensures Value(s) < Pow10(|s|) && (s != [] ==> Pow10(|s| - 1) <= Value(s))
  {
    if s != [] {
      hide Value;
      LeadingDigit(s);
      PowersArePositive(|s| - 1);
      HighDigitDecides(0, DigitOf(s[0]), Pow10(|s| - 1), Pow10(|s| - 1) - 1, 0);
    }
  }

  lemma {:induction false} PowersArePositive(n: nat)
    ensures Pow10(n) > 0
  {
    if n > 0 {
      PowersArePositive(n - 1);
    }
  }

  lemma {:induction false} PowersGrow(m: nat, n: nat)
    requires m <= n
    ensures Pow10(m) <= Pow10(n)
    decreases n
  {
    if m < n {
      PowersGrow(m, n - 1);
    }
  }

  lemma ShorterIsLess(a: string, b: string)
    requires Digits(a) && Digits(b) && (a != [] ==> a[0] != '0') && (b != [] ==> b[0] != '0') && |a| < |b|
    ensures Value(a) < Value(b)
  {
    LongIsLarge(a);
    LongIsLarge(b);
    PowersGrow(|a|, |b| - 1);
  }

  /** The order of the numbers is read off the numerals. */
  lemma ValuesPrecede(x: string, y: string)
    requires Numeric(x) && Numeric(y)
    ensures Value(x) < Value(y) <==> NumberPrecedes(x, y)
    ensures Value(x) == Value(y) <==> StripZeros(x) == StripZeros(y)
  {
    hide Value;
    var a, b := StripZeros(x), StripZeros(y);
    StrippedValue(x);
    StrippedValue(y);
    if |a| < |b| {
      ShorterIsLess(a, b);
    } else if |b| < |a| {
      ShorterIsLess(b, a);
    } else {
      SameLengthOrder(a, b);
      TextLessMeans(a, b);
    }
  }

  /** Both numeric with the same value, written differently. */
  predicate SameNumber(x: string, y: string) {
    x != y && Numeric(x) && Numeric(y) && StripZeros(x) == StripZeros(y)
  }

  /** For different identifiers the comparison is the one of section 11, unless they spell one number in two ways. */
  lemma IdentifiersAgree(x: string, y: string)
    requires x != y && !SameNumber(x, y)
    ensures CompareIdentifiers(x, y) == -1 <==> IdentifierPrecedes(x, y)
    ensures CompareIdentifiers(x, y) == 1 <==> IdentifierPrecedes(y, x)
  {
    hide Value, NumberPrecedes, StripZeros;
    TextLessMeans(x, y);
    TextLessMeans(y, x);
    TextOrder(x, y, x);
    if Numeric(x) && Numeric(y) {
      ValuesPrecede(x, y);
      ValuesPrecede(y, x);
    }
  }

  // ----- lists of identifiers -----

  /** How many identifiers two lists share. */
  function Shared(a: seq<string>, b: seq<string>): (n: nat)
    ensures n <= |a| && n <= |b| && a[..n] == b[..n] && (n < |a| && n < |b| ==> a[n] != b[n])
  {
    if a == [] || b == [] || a[0] != b[0] then 0
    else
      var n := Shared(a[1..], b[1..]);
      assert a[..n + 1] == [a[0]] + a[1..][..n] && b[..n + 1] == [b[0]] + b[1..][..n];
      n + 1
  }

  lemma {:induction false} CompareAtFirstDifference(a: seq<string>, b: seq<string>)
    ensures var n := Shared(a, b);
            CompareLists(a, b) ==
              if n == |a| && n == |b| then 0 else if n == |a| then -1 else if n == |b| then 1
              else CompareIdentifiers(a[n], b[n])
    decreases |a|
  {
    hide CompareIdentifiers;
    if a != [] && b != [] && a[0] == b[0] {
      CompareAtFirstDifference(a[1..], b[1..]);
    }
  }

  lemma PrecedesAtFirstDifference(a: seq<string>, b: seq<string>)
    ensures var n := Shared(a, b);
            PrereleasePrecedes(a, b) <==> n < |b| && (n == |a| || IdentifierPrecedes(a[n], b[n]))
  {
    hide IdentifierPrecedes;
    var n := Shared(a, b);
    if PrereleasePrecedes(a, b) {
      var m: nat :| m <= |a| && m <= |b| && a[..m] == b[..m] && m < |b| && (m == |a| || (a[m] != b[m] && IdentifierPrecedes(a[m], b[m])));
      SharedAtLeast(a, b, m);
    }
  }

  /** The first identifiers that differ spell one number in two ways. */
  predicate Clash(a: seq<string>, b: seq<string>) {
    var n := Shared(a, b);
    n < |a| && n < |b| && SameNumber(a[n], b[n])
  }

  lemma {:induction false} SharedIsSymmetric(a: seq<string>, b: seq<string>)
    ensures Shared(a, b) == Shared(b, a)
    decreases |a|
  {
    if a != [] && b != [] && a[0] == b[0] {
      SharedIsSymmetric(a[1..], b[1..]);
    }
  }

  lemma ListsAgree(a: seq<string>, b: seq<string>)
    requires !Clash(a, b)
    ensures CompareLists(a, b) == -1 <==> PrereleasePrecedes(a, b)
    ensures CompareLists(a, b) == 1 <==> PrereleasePrecedes(b, a)
    ensures CompareLists(a, b) == 0 <==> a == b
  {
    hide CompareIdentifiers, IdentifierPrecedes, PrereleasePrecedes, CompareLists;
    var n := Shared(a, b);
    SharedIsSymmetric(a, b);
    CompareAtFirstDifference(a, b);
    PrecedesAtFirstDifference(a, b);
    PrecedesAtFirstDifference(b, a);
    if n < |a| && n < |b| {
      IdentifiersAgree(a[n], b[n]);
    } else {
      assert a[..|a|] == a && b[..|b|] == b;
    }
  }

  // ----- the main results -----

  /** The versions compare by their prereleases, whose first difference is one number spelled in two ways. */
  predicate Clashes(a: Version, b: Version) {
    a.major == b.major && a.minor == b.minor && a.patch == b.patch && Clash(a.prerelease, b.prerelease)
  }

  /** The comparison is the precedence of section 11 exactly when the versions do not clash; then it is also
      antisymmetric, and zero on equal versions only. */
  lemma ComparesBySection11Iff(a: Version, b: Version)
    ensures !Clashes(a, b) <==>
      && (Compare(a, b) == -1 <==> Precedes(a, b)) && (Compare(a, b) == 1 <==> Precedes(b, a))
      && (Compare(b, a) == -1 <==> Precedes(b, a)) && (Compare(b, a) == 1 <==> Precedes(a, b))
    ensures !Clashes(a, b) <==> Compare(b, a) == -Compare(a, b)
    ensures Compare(a, b) == 0 <==> a == b
  {
    hide PrereleasePrecedes, CompareLists, CompareIdentifiers;
    var x, y := a.prerelease, b.prerelease;
    SharedIsSymmetric(x, y);
    if Clash(x, y) {
      ClashComparesDownwards(x, y);
    } else {
      ListsAgree(x, y);
      ListsAgree(y, x);
    }
  }

  /** Whichever of two spellings of one number comes first compares as the lesser. */
  lemma ClashComparesDownwards(a: seq<string>, b: seq<string>)
    requires Clash(a, b)
    ensures CompareLists(a, b) == -1 && CompareLists(b, a) == -1 && a != b
    ensures !PrereleasePrecedes(a, b) && !PrereleasePrecedes(b, a)
  {
    hide PrereleasePrecedes, CompareLists, Value, NumberPrecedes, StripZeros;
    SharedIsSymmetric(a, b);
    var n := Shared(a, b);
    ValuesPrecede(a[n], b[n]);
    ValuesPrecede(b[n], a[n]);
    CompareAtFirstDifference(a, b);
    CompareAtFirstDifference(b, a);
    PrecedesAtFirstDifference(a, b);
    PrecedesAtFirstDifference(b, a);
  }

  lemma StrictNeverClash(a: Version, b: Version)
    requires Strict(a) && Strict(b)
    ensures !Clashes(a, b)
  {
    var n := Shared(a.prerelease, b.prerelease);
    if n < |a.prerelease| && n < |b.prerelease| && SameNumber(a.prerelease[n], b.prerelease[n]) {
      ValuesPrecede(a.prerelease[n], b.prerelease[n]);
      CanonicalDetermines(a.prerelease[n], b.prerelease[n]);
    }
  }

  lemma NumbersTransit(x: string, y: string, z: string)
    ensures Numeric(x) && Numeric(y) && NumberPrecedes(x, y) ==> x != y
    ensures Numeric(x) && Numeric(y) && Numeric(z) && NumberPrecedes(x, y) && NumberPrecedes(y, z) ==> NumberPrecedes(x, z) && x != z
  {
    hide Value, NumberPrecedes;
    if Numeric(x) && Numeric(y) {
      ValuesPrecede(x, y);
      if Numeric(z) {
        ValuesPrecede(y, z);
        ValuesPrecede(x, z);
      }
    }
  }

  lemma IdentifierOrder(x: string, y: string, z: string)
    requires IdentifierPrecedes(x, y) && IdentifierPrecedes(y, z)
    ensures IdentifierPrecedes(x, z) && x != z
  {
    hide Value, NumberPrecedes, StripZeros;
    NumbersTransit(x, y, z);
    TextLessMeans(x, y);
    TextLessMeans(y, z);
    TextLessMeans(x, z);
    TextOrder(x, y, z);
    TextOrder(y, x, z);
  }

  lemma {:induction false} ListOrder(a: seq<string>, b: seq<string>, c: seq<string>)
    requires PrereleasePrecedes(a, b) && PrereleasePrecedes(b, c)
    ensures PrereleasePrecedes(a, c)
  {
    hide IdentifierPrecedes, PrereleasePrecedes;
    PrecedesAtFirstDifference(a, b);
    PrecedesAtFirstDifference(b, c);
    PrecedesAtFirstDifference(a, c);
    var n, m := Shared(a, b), Shared(b, c);
    var k := if n < m then n else m;
    assert a[..k] == a[..n][..k] == b[..k] && c[..k] == c[..m][..k] == b[..k];
    SharedAtLeast(a, c, k);
    if n < m {
      assert b[..m][n] == c[..m][n];
    } else if m < n {
      assert a[..n][m] == b[..n][m];
    } else if n < |a| {
      IdentifierOrder(a[n], b[n], c[n]);
    }
  }

  lemma {:induction false} SharedAtLeast(a: seq<string>, b: seq<string>, k: nat)
    requires k <= |a| && k <= |b| && a[..k] == b[..k]
    ensures k <= Shared(a, b) && (k < |a| && k < |b| && a[k] != b[k] ==> Shared(a, b) == k)
    decreases k
  {
    if k > 0 {
      assert a[0] == a[..k][0] && b[0] == b[..k][0];
      assert a[1..][..k - 1] == a[..k][1..] && b[1..][..k - 1] == b[..k][1..];
      SharedAtLeast(a[1..], b[1..], k - 1);
    }
  }

  /** Precedence is transitive, with or without leading zeros. */
  lemma PrecedesIsTransitive(a: Version, b: Version, c: Version)
    requires Precedes(a, b) && Precedes(b, c)
    ensures Precedes(a, c)
  {
    hide PrereleasePrecedes;
    if PrereleasePrecedes(a.prerelease, b.prerelease) && PrereleasePrecedes(b.prerelease, c.prerelease) {
      ListOrder(a.prerelease, b.prerelease, c.prerelease);
    }
  }

  /** On versions without leading zeros the comparison is a total order. */
  lemma StrictVersionsAreTotallyOrdered(a: Version, b: Version, c: Version)
    requires Strict(a) && Strict(b) && Strict(c)
    ensures Compare(b, a) == -Compare(a, b) && (Compare(a, b) == 0 <==> a == b)
    ensures Compare(a, b) == -1 <==> Precedes(a, b)
    ensures Compare(a, b) <= 0 && Compare(b, c) <= 0 ==> Compare(a, c) <= 0
  {
    hide Compare, Precedes;
    StrictNeverClash(a, b);
    StrictNeverClash(b, c);
    StrictNeverClash(a, c);
    ComparesBySection11Iff(a, b);
    ComparesBySection11Iff(b, c);
    ComparesBySection11Iff(a, c);
    if Precedes(a, b) && Precedes(b, c) {
      PrecedesIsTransitive(a, b, c);
    }
  }

  lemma {:induction false} NoDots(s: string)
    requires '.' !in s
    ensures SplitDots(s) == [s]
  {
    if s != [] {
      NoDots(s[1..]);
      assert s == [s[0]] + s[1..];
    }
  }

  lemma ParsesRelease(tail: string)
    requires |tail| > 1 && tail[0] == '-' && forall c | c in tail[1..] :: PrereleaseChar(c)
    requires Value("0") == 0 && Value("1") == 1
    ensures ParseVersion("1.0.0" + tail) == Some(Version(1, 0, 0, SplitDots(tail[1..])))
  {
    hide ParseVersion, SplitDots, Value;
    var s := "1.0.0" + tail;
    assert s == "1" + (['.'] + ("0" + (['.'] + ("0" + tail))));
    SpelledParses(s, "1", "0", "0", tail);
  }

  lemma ZeroOne()
    ensures Value("0") == 0 && Value("1") == 1 && Value("01") == 1 && Canonical("0") && Canonical("1") && Numeric("01")
  {
    assert "0"[..0] == [] && "1"[..0] == [] && "01"[..1] == "0";
  }

  /** The clash that breaks antisymmetry: `1.0.0-01` and `1.0.0-1` each compare as less than the other. */
  lemma LeadingZeroIsNotAntisymmetric()
    ensures var a, b := Version(1, 0, 0, ["01"]), Version(1, 0, 0, ["1"]);
            ParseVersion("1.0.0" + "-01") == Some(a) && ParseVersion("1.0.0" + "-1") == Some(b)
            && Clashes(a, b) && Compare(a, b) == -1 && Compare(b, a) == -1
  {
    hide ParseVersion, Value, Canonical, Numeric, CompareLists, CompareIdentifiers;
    ZeroOne();
    NoDots("01");
    NoDots("1");
    assert "-01"[1..] == "01" && "-1"[1..] == "1";
    ParsesRelease("-01");
    ParsesRelease("-1");
    ClashComparesDownwards(["01"], ["1"]);
  }
}

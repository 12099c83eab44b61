/** The content revision of a task's answers: FNV-1a over the canonical answer text, printed as eight hex digits
    (extensions/hoja-mode/lifecycle.ts, answerRevision). */
module AnswerRevision {
  import opened Wrappers
  import opened JsText
  import opened ManagedBlock
  import opened Markers

  const UNIT_SEPARATOR := '\U{1f}'
  const RECORD_SEPARATOR := '\U{1e}'
  const FNV_OFFSET := 0x811c9dc5
  const FNV_PRIME := 0x01000193
  const FNV_PRIME_INVERSE := 0x359c449b
  const WORD := 0x1_0000_0000

  type Word = w: int | 0 <= w < WORD

  // ----- the canonical text -----

  function Fields(q: Question): seq<string> {
    [q.id, q.text, q.answer.GetOr(""), q.evidence.GetOr("")]
  }

  function CanonicalQuestions(qs: seq<Question>): seq<string> {
    if qs == [] then [] else [Join(Fields(qs[0]), [UNIT_SEPARATOR])] + CanonicalQuestions(qs[1..])
  }

  function Canonical(facts: TaskFacts): string {
    Join(CanonicalQuestions(facts.questions), [RECORD_SEPARATOR])
  }

  // ----- FNV-1a on 32-bit words -----

  function Pow2(n: nat): nat {
    if n == 0 then 1 else 2 * Pow2(n - 1)
  }

  /** Exclusive or of the low `n` bits. */
  function Xor(a: nat, b: nat, n: nat): nat {
    if n == 0 then 0 else 2 * Xor(a / 2, b / 2, n - 1) + (a % 2 + b % 2) % 2
  }

  lemma {:induction false} XorFits(a: nat, b: nat, n: nat)
    ensures Xor(a, b, n) < Pow2(n)
  {
    if n > 0 {
      XorFits(a / 2, b / 2, n - 1);
    }
  }

  lemma XorHalves(a: nat, b: nat, n: nat)
    requires n > 0
    ensures Xor(a, b, n) / 2 == Xor(a / 2, b / 2, n - 1) && Xor(a, b, n) % 2 == (a % 2 + b % 2) % 2
  {
  }

  /** Xor with a fixed word undoes itself. */
  lemma {:induction false} XorUndoes(a: nat, b: nat, n: nat)
    requires a < Pow2(n)
    ensures Xor(Xor(a, b, n), b, n) == a
  {
    if n > 0 {
      XorUndoes(a / 2, b / 2, n - 1);
      XorUndoesBit(a, b, n);
    }
  }

  lemma XorUndoesBit(a: nat, b: nat, n: nat)
    requires n > 0 && Xor(Xor(a / 2, b / 2, n - 1), b / 2, n - 1) == a / 2
    ensures Xor(Xor(a, b, n), b, n) == a
  {
    hide Xor;
    XorHalves(a, b, n);
    XorHalves(Xor(a, b, n), b, n);
  }

  lemma {:induction false} XorCommutes(a: nat, b: nat, n: nat)
    ensures Xor(a, b, n) == Xor(b, a, n)
  {
    if n > 0 {
      XorCommutes(a / 2, b / 2, n - 1);
    }
  }

  lemma WordHas32Bits()
    ensures Pow2(32) == WORD
  {
    assert Pow2(8) == 256;
    assert Pow2(16) == 65536;
    assert Pow2(24) == 0x100_0000;
  }

  function Times(h: Word): Word {
    (h * FNV_PRIME) % WORD
  }

  /** Multiplying by the prime is undone by its inverse modulo 2^32. */
  lemma TimesUndoes(h: Word)
    ensures (Times(h) * FNV_PRIME_INVERSE) % WORD == h
  {
    var k := (h * FNV_PRIME) / WORD;
    assert h * FNV_PRIME == k * WORD + Times(h);
    assert FNV_PRIME * FNV_PRIME_INVERSE == 1 + WORD * 3513497;
    assert Times(h) * FNV_PRIME_INVERSE == h + WORD * (h * 3513497 - k * FNV_PRIME_INVERSE);
  }

  function Mix(h: Word, code: nat): Word {
    WordHas32Bits();
    XorFits(h, code, 32);
    Times(Xor(h, code, 32))
  }

  function Fold(step: (Word, char) -> Word, h: Word, s: string): Word
    decreases |s|
  {
    if s == "" then h else Fold(step, step(h, s[0]), s[1..])
  }

  function FnvFrom(h: Word, s: string): Word {
    Fold((w, c) => Mix(w, c as int), h, s)
  }

  // ----- eight hex digits -----

  function HexDigit(d: nat): char
    requires d < 16
  {
    if d < 10 then ('0' as int + d) as char else ('a' as int + d - 10) as char
  }

  /** `toString(16)`. */
  function ToHex(h: nat): string {
    if h < 16 then [HexDigit(h)] else ToHex(h / 16) + [HexDigit(h % 16)]
  }

  function PadStart(s: string, n: nat): string {
    if |s| < n then seq(n - |s|, _ => '0') + s else s
  }

  function Hex8(h: Word): string {
    PadStart(ToHex(h), 8)
  }

  /** The same digits, most significant first, with their number fixed in advance. */
  function Digits(h: nat, n: nat): string {
    if n == 0 then "" else Digits(h / 16, n - 1) + [HexDigit(h % 16)]
  }

  function Pow16(n: nat): nat {
    if n == 0 then 1 else 16 * Pow16(n - 1)
  }

  lemma {:induction false} ZeroDigits(n: nat)
    ensures Digits(0, n) == seq(n, _ => '0')
  {
    if n > 0 {
      ZeroDigits(n - 1);
    }
  }

  lemma {:induction false} PaddedIsDigits(h: nat, n: nat)
    requires n > 0 && h < Pow16(n)
    ensures PadStart(ToHex(h), n) == Digits(h, n)
  {
    if h < 16 {
      ZeroDigits(n - 1);
    } else {
      PaddedIsDigits(h / 16, n - 1);
    }
  }

  lemma {:induction false} DigitsDetermine(g: nat, h: nat, n: nat)
    requires g < Pow16(n) && h < Pow16(n) && Digits(g, n) == Digits(h, n)
    ensures g == h
  {
    if n > 0 {
      var a, b := Digits(g / 16, n - 1), Digits(h / 16, n - 1);
      assert (a + [HexDigit(g % 16)])[|a|] == HexDigit(g % 16);
      DigitsLength(g / 16, n - 1);
      DigitsLength(h / 16, n - 1);
      assert (a + [HexDigit(g % 16)])[..n - 1] == a && (b + [HexDigit(h % 16)])[..n - 1] == b;
      DigitsDetermine(g / 16, h / 16, n - 1);
    }
  }

  lemma {:induction false} DigitsLength(h: nat, n: nat)
    ensures |Digits(h, n)| == n && forall c | c in Digits(h, n) :: SafeChar(c)
  {
    if n > 0 {
      DigitsLength(h / 16, n - 1);
    }
  }

  lemma Hex8Determines(g: Word, h: Word)
    ensures Hex8(g) == Hex8(h) <==> g == h
    ensures |Hex8(h)| == 8 && forall c | c in Hex8(h) :: SafeChar(c)
  {
    assert Pow16(4) == 65536;
    assert Pow16(8) == WORD;
    PaddedIsDigits(g, 8);
    PaddedIsDigits(h, 8);
    DigitsLength(h, 8);
    if Hex8(g) == Hex8(h) {
      DigitsDetermine(g, h, 8);
    }
  }

  // ----- the revision -----

  function RevisionOf(facts: TaskFacts): string {
    Hex8(FnvFrom(FNV_OFFSET, Canonical(facts)))
  }

  lemma {:induction false} FoldConcat(step: (Word, char) -> Word, h: Word, a: string, b: string)
    ensures Fold(step, h, a + b) == Fold(step, Fold(step, h, a), b)
    decreases |a|
  {
    if a == "" {
      assert a + b == b;
    } else {
      assert (a + b)[1..] == a[1..] + b;
      FoldConcat(step, step(h, a[0]), a[1..], b);
    }
  }

  lemma FnvConcat(h: Word, a: string, b: string)
    ensures FnvFrom(h, a + b) == FnvFrom(FnvFrom(h, a), b)
  {
    FoldConcat((w, c) => Mix(w, c as int), h, a, b);
  }

  lemma FnvOne(h: Word, c: char)
    ensures FnvFrom(h, [c]) == Mix(h, c as int)
  {
    var step := (w: Word, c: char) => Mix(w, c as int);
    assert Fold(step, h, [c]) == Fold(step, step(h, c), [c][1..]);
  }

  method AnswerRevision(facts: TaskFacts) returns (revision: string)
    ensures revision == RevisionOf(facts)
  {
    var canonical := Canonical(facts);
    var hash: Word := FNV_OFFSET;
    for i := 0 to |canonical|
      invariant hash == FnvFrom(FNV_OFFSET, canonical[..i])
    {
      assert canonical[..i + 1] == canonical[..i] + [canonical[i]];
      FnvConcat(FNV_OFFSET, canonical[..i], [canonical[i]]);
      FnvOne(FnvFrom(FNV_OFFSET, canonical[..i]), canonical[i]);
      hash := Mix(hash, canonical[i] as int);
    }
    assert canonical[..|canonical|] == canonical;
    revision := Hex8(hash);
  }

  lemma MixUndoes(h: Word, code: Word)
    ensures var x := (Mix(h, code) * FNV_PRIME_INVERSE) % WORD;
            Xor(x, code, 32) == h && Xor(x, h, 32) == code
  {
    WordHas32Bits();
    XorFits(h, code, 32);
    TimesUndoes(Xor(h, code, 32));
    XorUndoes(h, code, 32);
    XorUndoes(code, h, 32);
    XorCommutes(h, code, 32);
  }

  /** One step loses nothing: neither the word it started from nor the code point it took in. */
  lemma MixDetermines(g: Word, h: Word, c: Word, d: Word)
    ensures Mix(g, c) == Mix(h, c) <==> g == h
    ensures Mix(g, c) == Mix(g, d) <==> c == d
  {
    MixUndoes(g, c);
    MixUndoes(h, c);
    MixUndoes(g, d);
  }

  lemma {:induction false} FoldDetermines(step: (Word, char) -> Word, g: Word, h: Word, s: string)
    requires forall v, w, c :: step(v, c) == step(w, c) ==> v == w
    ensures Fold(step, g, s) == Fold(step, h, s) <==> g == h
    decreases |s|
  {
    if s != "" {
      FoldDetermines(step, step(g, s[0]), step(h, s[0]), s[1..]);
    }
  }

  lemma FnvDetermines(g: Word, h: Word, s: string)
    ensures FnvFrom(g, s) == FnvFrom(h, s) <==> g == h
  {
    var step := (w: Word, c: char) => Mix(w, c as int);
    forall v, w, c | step(v, c) == step(w, c) ensures v == w {
      MixDetermines(v, w, c as int, c as int);
    }
    FoldDetermines(step, g, h, s);
  }

  /** Answer texts of equal length that differ in exactly one code point always have different revisions. */
  lemma OneCodePointChangesTheRevision(f1: TaskFacts, f2: TaskFacts, k: nat)
    requires |Canonical(f1)| == |Canonical(f2)| && k < |Canonical(f1)|
    requires forall i | 0 <= i < |Canonical(f1)| :: Canonical(f1)[i] == Canonical(f2)[i] <==> i != k
    ensures RevisionOf(f1) != RevisionOf(f2)
  {
    var s, t := Canonical(f1), Canonical(f2);
    var a, b := s[..k], s[k + 1..];
    var h := FnvFrom(FNV_OFFSET, a);
    assert s == a + [s[k]] + b && t == a + [t[k]] + b;
    FnvConcat(FNV_OFFSET, a + [s[k]], b);
    FnvConcat(FNV_OFFSET, a + [t[k]], b);
    FnvConcat(FNV_OFFSET, a, [s[k]]);
    FnvConcat(FNV_OFFSET, a, [t[k]]);
    FnvOne(h, s[k]);
    FnvOne(h, t[k]);
    MixDetermines(h, h, s[k] as int, t[k] as int);
    FnvDetermines(Mix(h, s[k] as int), Mix(h, t[k] as int), b);
    Hex8Determines(FnvFrom(FNV_OFFSET, s), FnvFrom(FNV_OFFSET, t));
  }

  // ----- what the canonical text distinguishes -----

  predicate SeparatorFree(s: string) {
    UNIT_SEPARATOR !in s && RECORD_SEPARATOR !in s
  }

  predicate CleanQuestion(q: Question) {
    forall field | field in Fields(q) :: SeparatorFree(field)
  }

  predicate CleanQuestions(qs: seq<Question>) {
    forall q | q in qs :: CleanQuestion(q)
  }

  function AllFields(qs: seq<Question>): seq<seq<string>> {
    if qs == [] then [] else [Fields(qs[0])] + AllFields(qs[1..])
  }

  lemma {:induction false} JoinedFree(parts: seq<string>, sep: string, c: char)
    requires c !in sep && forall x | x in parts :: c !in x
    ensures c !in Join(parts, sep)
  {
    if |parts| > 1 {
      JoinedFree(parts[1..], sep, c);
    }
  }

  lemma {:induction false} CanonicalQuestionsDetermine(p: seq<Question>, q: seq<Question>)
    requires CleanQuestions(p) && CleanQuestions(q)
    requires CanonicalQuestions(p) == CanonicalQuestions(q)
    ensures AllFields(p) == AllFields(q)
  {
    if p != [] && q != [] {
      assert CleanQuestion(p[0]) && CleanQuestion(q[0]);
      assert CanonicalQuestions(p)[0] == CanonicalQuestions(q)[0];
      assert CanonicalQuestions(p)[1..] == CanonicalQuestions(p[1..]) && CanonicalQuestions(q)[1..] == CanonicalQuestions(q[1..]);
      JoinDetermines(Fields(p[0]), Fields(q[0]), UNIT_SEPARATOR);
      CanonicalQuestionsDetermine(p[1..], q[1..]);
    }
  }

  lemma {:induction false} CanonicalQuestionsAreRecordFree(qs: seq<Question>)
    requires CleanQuestions(qs)
    ensures |CanonicalQuestions(qs)| == |qs|
    ensures forall x | x in CanonicalQuestions(qs) :: x != "" && RECORD_SEPARATOR !in x
  {
    if qs != [] {
      assert CleanQuestion(qs[0]);
      JoinedFree(Fields(qs[0]), [UNIT_SEPARATOR], RECORD_SEPARATOR);
      assert Fields(qs[0])[1..] != [];
      CanonicalQuestionsAreRecordFree(qs[1..]);
    }
  }

  lemma JoinStartsWithFirst(parts: seq<string>, sep: string)
    requires forall x | x in parts :: x != ""
    ensures Join(parts, sep) == "" <==> parts == []
  {
    if parts != [] {
      assert parts[0] in parts;
    }
  }

  /** Without separator characters inside the fields, the canonical text tells any two answer sets apart. */
  lemma CanonicalDetermines(f1: TaskFacts, f2: TaskFacts)
    requires CleanQuestions(f1.questions) && CleanQuestions(f2.questions)
    ensures Canonical(f1) == Canonical(f2) <==> AllFields(f1.questions) == AllFields(f2.questions)
  {
    var p, q := CanonicalQuestions(f1.questions), CanonicalQuestions(f2.questions);
    CanonicalQuestionsAreRecordFree(f1.questions);
    CanonicalQuestionsAreRecordFree(f2.questions);
    JoinStartsWithFirst(p, [RECORD_SEPARATOR]);
    JoinStartsWithFirst(q, [RECORD_SEPARATOR]);
    if Canonical(f1) == Canonical(f2) {
      if p != [] && q != [] {
        JoinDetermines(p, q, RECORD_SEPARATOR);
      }
      CanonicalQuestionsDetermine(f1.questions, f2.questions);
    }
    if AllFields(f1.questions) == AllFields(f2.questions) {
      FieldsDetermineCanonical(f1.questions, f2.questions);
    }
  }

  lemma {:induction false} FieldsDetermineCanonical(p: seq<Question>, q: seq<Question>)
    requires AllFields(p) == AllFields(q)
    ensures CanonicalQuestions(p) == CanonicalQuestions(q)
  {
    if p != [] && q != [] {
      assert AllFields(p)[0] == AllFields(q)[0];
      assert AllFields(p)[1..] == AllFields(p[1..]) && AllFields(q)[1..] == AllFields(q[1..]);
      FieldsDetermineCanonical(p[1..], q[1..]);
    }
  }

  /** With a separator inside a field it does not: two different questions, one canonical text, one revision. */
  lemma SeparatorsCollide(taskId: string)
    ensures var u := [UNIT_SEPARATOR];
            var q1, q2 := Question("a" + u + "b", "c", None, None), Question("a", "b" + u + "c", None, None);
            var f1, f2 := TaskFacts(taskId, "", "", None, [q1]), TaskFacts(taskId, "", "", None, [q2]);
            Fields(q1) != Fields(q2) && RevisionOf(f1) == RevisionOf(f2)
  {
    var u := [UNIT_SEPARATOR];
    var q1, q2 := Question("a" + u + "b", "c", None, None), Question("a", "b" + u + "c", None, None);
    var f1, f2 := TaskFacts(taskId, "", "", None, [q1]), TaskFacts(taskId, "", "", None, [q2]);
    assert Fields(q1)[0] != Fields(q2)[0];
    JoinFour(Fields(q1), u);
    JoinFour(Fields(q2), u);
    assert Join(Fields(q1), u) == Join(Fields(q2), u);
    assert [q1][1..] == [] && [q2][1..] == [];
    assert CanonicalQuestions([q1]) == CanonicalQuestions([q2]);
  }

  lemma JoinFour(parts: seq<string>, sep: string)
    requires |parts| == 4
    ensures Join(parts, sep) == parts[0] + sep + (parts[1] + sep + (parts[2] + sep + parts[3]))
  {
    assert Join(parts[1..][1..], sep) == parts[2] + sep + parts[3];
    assert Join(parts[1..], sep) == parts[1] + sep + Join(parts[1..][1..], sep);
  }
}

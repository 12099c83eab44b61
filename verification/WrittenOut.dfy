/** What the texts of the Hoja extension look like when written out, and the plain facts about characters they rest on.
    Everything here is stated in literal text, beside the line-by-line renderings of the other modules. */
module WrittenOut {
  import opened Wrappers
  import opened JsText
  import opened ManagedBlock
  import opened Markers
  import opened AnswerRevision

  // ----- the managed section -----

  /** A question as the section shows it: its box is ticked, and its answer and evidence follow, exactly when it has them. */
  function ShownQuestion(q: Question): seq<string> {
    [(if q.answer.Some? && q.answer.value != "" then "- [x] `" else "- [ ] `") + q.id + "` " + q.text]
    + (if q.answer.Some? && q.answer.value != "" then ["  - Answer: " + q.answer.value] else [])
    + (if q.evidence.Some? && q.evidence.value != "" then ["  - Evidence: " + q.evidence.value] else [])
  }

  function ShownQuestions(qs: seq<Question>): seq<string> {
    if qs == [] then [] else ShownQuestion(qs[0]) + ShownQuestions(qs[1..])
  }

  lemma QuestionIsShown(q: Question)
    ensures QuestionLines(q) == ShownQuestion(q)
  {
    assert "- [" + "x" + "] `" == "- [x] `" && "- [" + " " + "] `" == "- [ ] `";
  }

  lemma {:induction false} ShownQuestionsSnoc(qs: seq<Question>, q: Question)
    ensures ShownQuestions(qs + [q]) == ShownQuestions(qs) + ShownQuestion(q)
    decreases |qs|
  {
    hide ShownQuestion;
    if qs == [] {
      assert (qs + [q])[1..] == [];
    } else {
      assert (qs + [q])[1..] == qs[1..] + [q];
      ShownQuestionsSnoc(qs[1..], q);
    }
  }

  lemma {:induction false} QuestionsAreShown(qs: seq<Question>)
    ensures AllQuestionLines(qs) == ShownQuestions(qs)
  {
    hide ShownQuestion, QuestionLines;
    if qs != [] {
      QuestionsAreShown(qs[..|qs| - 1]);
      QuestionIsShown(qs[|qs| - 1]);
      ShownQuestionsSnoc(qs[..|qs| - 1], qs[|qs| - 1]);
      assert qs == qs[..|qs| - 1] + [qs[|qs| - 1]];
    }
  }

  /** The managed section of any task, line by line. */
  lemma SectionWrittenOut(facts: TaskFacts)
    ensures ManagedSection(facts) ==
              Join(["<!-- hoja-managed:start -->", "Status: " + facts.status]
                   + (if facts.questions == [] then []
                      else ["", "Acceptance questions " + "(tracked here, not as separate issues):"] + ShownQuestions(facts.questions))
                   + ["<!-- hoja-managed:end -->"], "\n")
  {
    hide ShownQuestions, AllQuestionLines;
    QuestionsAreShown(facts.questions);
  }

  // ----- the completion comment -----

  /** A question as the comment shows it. */
  function ShownAnswer(q: Question): seq<string> {
    ["- `" + q.id + "` " + q.text, "  - Answer: " + (if q.answer.Some? then q.answer.value else "(unanswered)")]
    + (if q.evidence.Some? && q.evidence.value != "" then ["  - Evidence: " + q.evidence.value] else [])
  }

  function ShownAnswers(qs: seq<Question>): seq<string> {
    if qs == [] then [] else ShownAnswer(qs[0]) + ShownAnswers(qs[1..])
  }

  lemma {:induction false} ShownAnswersSnoc(qs: seq<Question>, q: Question)
    ensures ShownAnswers(qs + [q]) == ShownAnswers(qs) + ShownAnswer(q)
    decreases |qs|
  {
    hide ShownAnswer;
    if qs == [] {
      assert (qs + [q])[1..] == [];
    } else {
      assert (qs + [q])[1..] == qs[1..] + [q];
      ShownAnswersSnoc(qs[1..], q);
    }
  }

  lemma {:induction false} AnswersAreShown(qs: seq<Question>)
    ensures AnswerLines(qs) == ShownAnswers(qs)
  {
    if qs != [] {
      AnswersAreShown(qs[..|qs| - 1]);
      ShownAnswersSnoc(qs[..|qs| - 1], qs[|qs| - 1]);
      assert qs == qs[..|qs| - 1] + [qs[|qs| - 1]];
    }
  }

  /** The completion comment of any task, line by line. */
  lemma CommentWrittenOut(facts: TaskFacts, marker: string)
    ensures CompletionComment(facts, marker) ==
              Join(["TaskManage task #" + facts.taskId + " completed: " + facts.subject, "", "Answer marker: " + marker]
                   + (if facts.questions == [] then ["", "This task recorded no acceptance questions."]
                      else ["", "Answers:"] + ShownAnswers(facts.questions)), "\n")
  {
    hide ShownAnswers, AnswerLines;
    AnswersAreShown(facts.questions);
  }

  // ----- descriptions and markers -----

  /** The description of a new issue, paragraph by paragraph: what the user wrote, where it comes from, its marker line, the
      managed section. */
  lemma DescriptionWrittenOut(description: Option<string>, taskId: string, sessionKey: string, marker: string, managed: string)
    requires managed != ""
    ensures var body := Trim(description.GetOr(""));
            IssueDescription(description, taskId, sessionKey, marker, managed) ==
              Join((if body == "" then [] else [body])
                   + ["Tracked by TaskManage task #" + taskId + " in session " + Prefix(KeepSafe(sessionKey), 8) + ".", "Link marker: " + marker, managed],
                   "\n\n")
  {
    hide Trim, KeepSafe;
    var body, tracked, line := Trim(description.GetOr("")), TrackedLine(taskId, sessionKey), LinkLine(marker);
    assert [body, tracked, line, managed] == [body] + ([tracked] + ([line] + ([managed] + [])));
    NonEmptyCons(body, [tracked] + ([line] + ([managed] + [])));
    NonEmptyCons(tracked, [line] + ([managed] + []));
    NonEmptyCons(line, [managed] + []);
    NonEmptyCons(managed, []);
    assert NonEmpty([body, tracked, line, managed]) == (if body == "" then [] else [body]) + [tracked, line, managed];
  }

  /** The description of a sub-issue. */
  lemma SubissueWrittenOut(facts: TaskFacts, marker: string)
    requires ManagedSection(facts) != ""
    ensures SubissueDescription(facts, marker) ==
              Join((if facts.description.Some? && facts.description.value != "" then [facts.description.value] else [])
                   + ["Link marker: " + marker, ManagedSection(facts)], "\n\n")
  {
    hide ManagedSection;
    var body, line, section := facts.description.GetOr(""), LinkLine(marker), ManagedSection(facts);
    assert [body, line, section] == [body] + ([line] + ([section] + []));
    NonEmptyCons(body, [line] + ([section] + []));
    NonEmptyCons(line, [section] + []);
    NonEmptyCons(section, []);
    assert NonEmpty([body, line, section]) == (if body == "" then [] else [body]) + [line, section];
  }

  /** Markers are made of the safe characters of the session and the task: at most 64 of the one and 32 of the other. */
  lemma MarkersWrittenOut(sessionKey: string, taskId: string, revision: string)
    ensures var s, t := KeepSafe(sessionKey), KeepSafe(taskId);
            var session := if s == "" then "session" else if |s| <= 64 then s else s[..64];
            var task := if t == "" then "task" else if |t| <= 32 then t else t[..32];
            && TaskMarker(sessionKey, taskId) == "hoja-task:" + session + ":" + task
            && AnswerMarker(sessionKey, taskId, revision) == "hoja-answer:" + session + ":" + task + ":" + revision
  {
  }

  // ----- the canonical answers and their hash -----

  function CanonicalField(o: Option<string>): string {
    match o
    case None => ""
    case Some(text) => text
  }

  /** One question's fields, with unit separators between them. */
  function CanonicalQuestion(q: Question): string {
    q.id + "\U{1f}" + q.text + "\U{1f}" + CanonicalField(q.answer) + "\U{1f}" + CanonicalField(q.evidence)
  }

  function CanonicalText(qs: seq<Question>): string {
    if qs == [] then "" else if |qs| == 1 then CanonicalQuestion(qs[0]) else CanonicalQuestion(qs[0]) + "\U{1e}" + CanonicalText(qs[1..])
  }

  lemma FieldsWrittenOut(q: Question)
    ensures Join(Fields(q), [UNIT_SEPARATOR]) == CanonicalQuestion(q)
  {
    JoinFour(Fields(q), [UNIT_SEPARATOR]);
  }

  lemma {:induction false} CanonicalWrittenOut(facts: TaskFacts)
    ensures Canonical(facts) == CanonicalText(facts.questions)
    decreases |facts.questions|
  {
    var qs := facts.questions;
    if qs != [] {
      FieldsWrittenOut(qs[0]);
      var rest := facts.(questions := qs[1..]);
      CanonicalWrittenOut(rest);
      hide CanonicalQuestion, Fields;
      assert CanonicalQuestions(qs) == [CanonicalQuestion(qs[0])] + CanonicalQuestions(qs[1..]);
      assert ([CanonicalQuestion(qs[0])] + CanonicalQuestions(qs[1..]))[1..] == CanonicalQuestions(qs[1..]);
      if |qs| > 1 {
        assert CanonicalQuestions(qs[1..]) != [];
      }
    }
  }

  lemma {:induction false} XorWithZero(a: nat, n: nat)
    requires a < Pow2(n)
    ensures Xor(a, 0, n) == a
  {
    if n > 0 {
      XorWithZero(a / 2, n - 1);
    }
  }

  /** The published test vectors of 32-bit FNV-1a for the empty text and for `a`. */
  lemma KnownHashes()
    ensures FnvFrom(FNV_OFFSET, "") == 0x811c9dc5 && FnvFrom(FNV_OFFSET, "a") == 0xe40c292c
  {
    hide Mix;
    FnvOne(FNV_OFFSET, 'a');
    MixOfA();
  }

  lemma MixOfA()
    ensures Mix(0x811c9dc5, 97) == 0xe40c292c
  {
    hide Xor;
    LowByteOfA();
  }

  /** A task without questions has the revision of the empty text. */
  lemma EmptyRevision(facts: TaskFacts)
    requires facts.questions == []
    ensures RevisionOf(facts) == "811c9dc5"
  {
    hide Mix, ToHex, Xor;
    KnownHashes();
    EightDigits();
  }

  /** One more low bit. */
  lemma XorStep(a: nat, b: nat, n: nat, x: nat)
    requires n > 0 && x / 2 == Xor(a / 2, b / 2, n - 1) && x % 2 == (a % 2 + b % 2) % 2
    ensures Xor(a, b, n) == x
  {
  }

  lemma LowByteOfA()
    ensures Xor(0x811c9dc5, 97, 32) == 0x811c9da4
  {
    Pow2Of24();
    hide Xor, Pow2;
    XorWithZero(0x811c9d, 24);
    XorStep(0x102393b, 0, 25, 0x102393b);
    XorStep(0x2047277, 1, 26, 0x2047276);
    XorStep(0x408e4ee, 3, 27, 0x408e4ed);
    XorStep(0x811c9dc, 6, 28, 0x811c9da);
    XorStep(0x102393b8, 12, 29, 0x102393b4);
    XorStep(0x20472771, 24, 30, 0x20472769);
    XorStep(0x408e4ee2, 48, 31, 0x408e4ed2);
    XorStep(0x811c9dc5, 97, 32, 0x811c9da4);
  }

  lemma Pow2Of24()
    ensures Pow2(24) == 0x100_0000
  {
    assert Pow2(8) == 256;
    assert Pow2(16) == 65536;
  }

  lemma EightDigits()
    ensures Hex8(0x811c9dc5) == "811c9dc5"
  {
    assert ToHex(0x8) == "8";
    assert ToHex(0x81) == "81";
    assert ToHex(0x811) == "811";
    assert ToHex(0x811c) == "811c";
    assert ToHex(0x811c9) == "811c9";
    assert ToHex(0x811c9d) == "811c9d";
    assert ToHex(0x811c9dc) == "811c9dc";
    assert ToHex(0x811c9dc5) == "811c9dc5";
  }

  // ----- characters -----

  const WHITE_SPACE := "\t\n\U{b}\U{c}\r \U{a0}\U{1680}\U{2000}\U{2001}\U{2002}\U{2003}\U{2004}\U{2005}\U{2006}\U{2007}\U{2008}\U{2009}\U{200a}"
                       + "\U{2028}\U{2029}\U{202f}\U{205f}\U{3000}\U{feff}"

  /** What the language counts as white space. */
  lemma SpacesAreListed(c: char)
    ensures IsSpace(c) <==> c in WHITE_SPACE
  {
    SpacesAt();
    if '\t' <= c <= '\r' {
      assert WHITE_SPACE[c as int - 9] == c;
    }
    if '\U{2000}' <= c <= '\U{200a}' {
      assert WHITE_SPACE[c as int - 0x2000 + 8] == c;
    }
  }

  lemma SpacesAt()
    ensures |WHITE_SPACE| == 25
    ensures forall i | 0 <= i < 5 :: WHITE_SPACE[i] as int == 9 + i
    ensures WHITE_SPACE[5] == ' ' && WHITE_SPACE[6] == '\U{a0}' && WHITE_SPACE[7] == '\U{1680}'
    ensures forall i | 8 <= i < 19 :: WHITE_SPACE[i] as int == 0x2000 + i - 8
    ensures WHITE_SPACE[19] == '\U{2028}' && WHITE_SPACE[20] == '\U{2029}' && WHITE_SPACE[21] == '\U{202f}'
    ensures WHITE_SPACE[22] == '\U{205f}' && WHITE_SPACE[23] == '\U{3000}' && WHITE_SPACE[24] == '\U{feff}'
  {
  }

  predicate AllSpace(s: string) {
    forall c | c in s :: IsSpace(c)
  }

  /** Trimming takes the white space from both ends, and nothing else. */
  lemma TrimIs(s: string) returns (before: string, after: string)
    ensures s == before + Trim(s) + after && AllSpace(before) && AllSpace(after)
    ensures Trim(s) != "" ==> !IsSpace(Trim(s)[0]) && !IsSpace(Trim(s)[|Trim(s)| - 1])
  {
    after := TrimEndIs(s);
    before := TrimStartIs(TrimEnd(s));
  }

  lemma {:induction false} TrimEndIs(s: string) returns (after: string)
    ensures s == TrimEnd(s) + after && AllSpace(after) && (TrimEnd(s) != "" ==> !IsSpace(TrimEnd(s)[|TrimEnd(s)| - 1]))
  {
    after := "";
    if s != [] && IsSpace(s[|s| - 1]) {
      after := TrimEndIs(s[..|s| - 1]);
      after := after + [s[|s| - 1]];
    }
  }

  lemma {:induction false} TrimStartIs(s: string) returns (before: string)
    ensures s == before + TrimStart(s) && AllSpace(before) && (TrimStart(s) != "" ==> !IsSpace(TrimStart(s)[0]))
  {
    before := "";
    if s != [] && IsSpace(s[0]) {
      before := TrimStartIs(s[1..]);
      before := [s[0]] + before;
    }
  }

  // ----- letters -----

  const CAPITALS := "ABCDEFGHIJKLMNOPQRSTUVWXYZ"
  const SMALLS := "abcdefghijklmnopqrstuvwxyz"

  /** Changing case exchanges the letters of one alphabet for those of the other, place by place. */
  lemma CasesAre(c: char)
    ensures |CAPITALS| == |SMALLS| == 26
    ensures forall i | 0 <= i < 26 :: LowerChar(CAPITALS[i]) == SMALLS[i] && UpperChar(SMALLS[i]) == CAPITALS[i]
    ensures (c !in CAPITALS ==> LowerChar(c) == c) && (c !in SMALLS ==> UpperChar(c) == c)
  {
    AlphabetAt();
    if 'A' <= c <= 'Z' {
      assert CAPITALS[c as int - 'A' as int] == c;
    }
    if 'a' <= c <= 'z' {
      assert SMALLS[c as int - 'a' as int] == c;
    }
  }

  lemma AlphabetAt()
    ensures |CAPITALS| == 26 && |SMALLS| == 26
    ensures forall i | 0 <= i < 26 :: CAPITALS[i] as int == 'A' as int + i && SMALLS[i] as int == 'a' as int + i
  {
  }

  /** The characters a marker may hold. */
  lemma SafeCharsAreListed(c: char)
    ensures SafeChar(c) <==> c in CAPITALS || c in SMALLS || c in "0123456789_-"
  {
    AlphabetAt();
    var tail := "0123456789_-";
    assert tail[10] == '_' && tail[11] == '-' && forall i | 0 <= i < 10 :: tail[i] as int == '0' as int + i;
    if 'A' <= c <= 'Z' {
      assert CAPITALS[c as int - 'A' as int] == c;
    }
    if 'a' <= c <= 'z' {
      assert SMALLS[c as int - 'a' as int] == c;
    }
    if '0' <= c <= '9' {
      assert tail[c as int - '0' as int] == c;
    }
  }

  /** Keeping the safe characters keeps exactly those, in order: text by text, and character by character. */
  lemma {:induction false} KeepSafeKeeps(s: string, t: string)
    ensures KeepSafe(s + t) == KeepSafe(s) + KeepSafe(t)
    decreases |s|
  {
    hide SafeChar;
    if s == "" {
      assert s + t == t;
    } else {
      hide KeepSafe;
      KeepSafeKeeps(s[1..], t);
      KeepsFirst(s);
      KeepsFirst(s + t);
      assert (s + t)[1..] == s[1..] + t && (s + t)[0] == s[0];
    }
  }

  lemma KeepsFirst(s: string)
    requires s != ""
    ensures KeepSafe(s) == (if SafeChar(s[0]) then [s[0]] else "") + KeepSafe(s[1..])
  {
  }

  lemma KeepSafeOne(c: char)
    ensures KeepSafe([c]) == if SafeChar(c) then [c] else ""
  {
    assert [c][1..] == "";
    KeepsFirst([c]);
  }
}

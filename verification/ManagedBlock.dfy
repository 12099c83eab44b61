/** The text a Hoja issue carries for a task: the managed block inside a description that otherwise belongs to
    humans, and the line-anchored markers that prove ownership (extensions/hoja-mode/lifecycle.ts). */
module ManagedBlock {
  import opened Wrappers
  import opened JsText

  const MANAGED_START := "<!-- hoja-managed:start -->"
  const MANAGED_END := "<!-- hoja-managed:end -->"
  const QUESTIONS_INTRO := "Acceptance questions " + "(tracked here, not as separate issues):"

  datatype Question = Question(id: string, text: string, answer: Option<string>, evidence: Option<string>)
  datatype TaskFacts = TaskFacts(taskId: string, subject: string, status: string, description: Option<string>, questions: seq<Question>)

  /** JavaScript truthiness of an optional string. */
  predicate Truthy(o: Option<string>) {
    o.Some? && o.value != ""
  }

  predicate AcceptedCompletion(facts: TaskFacts) {
    facts.status == "completed" && forall q | q in facts.questions :: Truthy(q.answer)
  }

  // ----- the managed block -----

  function QuestionLines(q: Question): seq<string> {
    ["- [" + (if Truthy(q.answer) then "x" else " ") + "] `" + q.id + "` " + q.text]
    + (if Truthy(q.answer) then ["  - Answer: " + q.answer.value] else [])
    + (if Truthy(q.evidence) then ["  - Evidence: " + q.evidence.value] else [])
  }

  function AllQuestionLines(qs: seq<Question>): seq<string> {
    if qs == [] then [] else AllQuestionLines(qs[..|qs| - 1]) + QuestionLines(qs[|qs| - 1])
  }

  /** The lines of the block before its end marker. */
  function SectionBody(facts: TaskFacts): seq<string> {
    [MANAGED_START, "Status: " + facts.status]
    + (if facts.questions == [] then []
       else ["", QUESTIONS_INTRO] + AllQuestionLines(facts.questions))
  }

  function ManagedSection(facts: TaskFacts): string {
    Join(SectionBody(facts) + [MANAGED_END], "\n")
  }

  method RenderManagedSection(facts: TaskFacts) returns (section: string)
    ensures section == ManagedSection(facts)
  {
    var lines := [MANAGED_START, "Status: " + facts.status];
    if |facts.questions| > 0 {
      lines := lines + ["", QUESTIONS_INTRO];
      ghost var head := lines;
      for i := 0 to |facts.questions|
        invariant lines == head + AllQuestionLines(facts.questions[..i])
      {
        var question := facts.questions[i];
        assert facts.questions[..i + 1][..i] == facts.questions[..i];
        lines := lines + ["- [" + (if Truthy(question.answer) then "x" else " ") + "] `" + question.id + "` " + question.text];
        if Truthy(question.answer) {
          lines := lines + ["  - Answer: " + question.answer.value];
        }
        if Truthy(question.evidence) {
          lines := lines + ["  - Evidence: " + question.evidence.value];
        }
      }
      assert facts.questions[..|facts.questions|] == facts.questions;
    }
    assert lines == SectionBody(facts);
    section := Join(lines + [MANAGED_END], "\n");
  }

  // ----- merging the block into a description -----

  /** A pair of block markers. The source has one pair, `MANAGED`; the laws below need only what `Fencing` says. */
  datatype Fence = Fence(start: string, end: string)
  const MANAGED := Fence(MANAGED_START, MANAGED_END)

  predicate Fencing(f: Fence) {
    0 < |f.end| <= |f.start| && '\n' !in f.start && '\n' !in f.end
  }

  /** There is a block: the first end marker comes after the first start marker. */
  predicate HasBlock(text: string, f: Fence) {
    var start, end := IndexOf(text, f.start), IndexOf(text, f.end);
    start.Some? && end.Some? && end.value > start.value
  }

  function Separator(existing: string): string {
    if |existing| >= 2 && existing[|existing| - 2..] == "\n\n" then ""
    else if |existing| >= 1 && existing[|existing| - 1] == '\n' then "\n"
    else "\n\n"
  }

  function Merge(existing: string, section: string, f: Fence): string {
    if HasBlock(existing, f) then
      existing[..IndexOf(existing, f.start).value] + section + existing[IndexOf(existing, f.end).value + |f.end|..]
    else if existing == "" then section
    else existing + Separator(existing) + section
  }

  function MergeManagedDescription(existing: string, section: string): string {
    Merge(existing, section, MANAGED)
  }

  /** The text around the block. */
  function Outside(text: string, f: Fence): (string, string) {
    if !HasBlock(text, f) then (text, "")
    else (text[..IndexOf(text, f.start).value], text[IndexOf(text, f.end).value + |f.end|..])
  }

  function OutsideManaged(text: string): (string, string) {
    Outside(text, MANAGED)
  }

  /** A description the merge treats stably: no marker at all, or a start marker followed by an end marker. */
  predicate WellFormed(text: string, f: Fence) {
    HasBlock(text, f) || (!Contains(text, f.start) && !Contains(text, f.end))
  }

  /** A section opens with the start marker and holds the end marker only at its end. */
  predicate Proper(section: string, f: Fence) {
    && |section| >= |f.start| + |f.end|
    && At(section, f.start, 0)
    && IndexOf(section, f.end) == Some(|section| - |f.end|)
  }

  /** What a merge keeps in front of the section, and behind it. */
  function Before(e: string, f: Fence): string {
    if HasBlock(e, f) then Outside(e, f).0 else if e == "" then "" else e + Separator(e)
  }

  function After(e: string, f: Fence): string {
    if HasBlock(e, f) then Outside(e, f).1 else ""
  }

  function Newlines(n: nat): string {
    seq(n, _ => '\n')
  }

  /** Text is set off from what follows by a blank line. */
  predicate SetOff(text: string) {
    |text| >= 2 && text[|text| - 2] == '\n' && text[|text| - 1] == '\n'
  }

  /** An appended section is set off by a blank line, with no more newlines than that takes. */
  lemma SeparatorSetsOff(existing: string)
    requires existing != ""
    ensures SetOff(existing + Separator(existing)) && Separator(existing) == Newlines(|Separator(existing)|)
    ensures forall n: nat :: n < |Separator(existing)| ==> !SetOff(existing + Newlines(n))
  {
  }

  /** Nothing new starts inside `e` or its separator when a section is appended. */
  lemma AppendedOccurrences(e: string, section: string, pat: string, i: nat)
    requires e != "" && pat != "" && '\n' !in pat
    requires i < |e + Separator(e)|
    ensures At(e + Separator(e) + section, pat, i) <==> At(e, pat, i)
  {
    var a := e + Separator(e);
    assert a[|a| - 1] == '\n';
    AtConcat(a, section, pat, i);
    AtConcat(e, Separator(e), pat, i);
    if i + |pat| > |a| {
      NoStraddle(a, section, pat, i);
    } else if i + |pat| > |e| {
      assert a[i..i + |pat|][|pat| - 1] == a[i + |pat| - 1] == '\n';
    }
  }

  /** The first occurrence in `m`, given where `m` agrees with `e` and where the next one is. */
  lemma FirstOf(m: string, e: string, pat: string, at: nat)
    requires |e| <= at && pat != ""
    requires forall i: nat :: i < at ==> At(m, pat, i) == At(e, pat, i)
    requires At(m, pat, at)
    ensures IndexOf(m, pat) == if Contains(e, pat) then IndexOf(e, pat) else Some(at)
  {
    IndexIsFirst(e, pat);
    match IndexOf(e, pat)
    case Some(i) =>
      IndexIs(m, pat, i);
    case None =>
      IndexIs(m, pat, at);
  }

  /** Where a marker is first found once a section is appended: where it was, or else where the section has it. */
  lemma AppendedMarker(e: string, section: string, pat: string)
    requires e != "" && pat != "" && '\n' !in pat && Contains(section, pat)
    ensures IndexOf(e + Separator(e) + section, pat)
         == if Contains(e, pat) then IndexOf(e, pat) else Some(|e + Separator(e)| + IndexOf(section, pat).value)
  {
    var a := e + Separator(e);
    var k := IndexOf(section, pat).value;
    forall i: nat ensures i < |a| ==> At(a + section, pat, i) == At(e, pat, i)
                  ensures i >= |a| ==> At(a + section, pat, i) == At(section, pat, i - |a|)
    {
      if i < |a| {
        AppendedOccurrences(e, section, pat, i);
      }
      AtConcat(a, section, pat, i);
    }
    IndexIsFirst(section, pat);
    forall i: nat | i < |a| + k ensures At(a + section, pat, i) == At(e, pat, i) {
      assert i >= |a| ==> !At(section, pat, i - |a|) && !At(e, pat, i);
    }
    FirstOf(a + section, e, pat, |a| + k);
  }

  lemma SamePrefix(m: string, e: string, n: nat, pat: string, i: nat)
    requires n <= |m| && n <= |e| && m[..n] == e[..n] && i + |pat| <= n
    ensures At(m, pat, i) == At(e, pat, i)
  {
    assert m[i..i + |pat|] == m[..n][i..i + |pat|] && e[i..i + |pat|] == e[..n][i..i + |pat|];
  }

  /** A replaced block opens exactly as the old one did. */
  lemma SameOpening(e: string, section: string, x: string, a: nat, st: string)
    requires At(e, st, a) && At(section, st, 0)
    ensures |e[..a] + section + x| >= a + |st| && (e[..a] + section + x)[..a + |st|] == e[..a + |st|]
  {
    var m := e[..a] + section + x;
    forall k | 0 <= k < a + |st| ensures m[k] == e[k] {
      if k >= a {
        assert section[0..0 + |st|][k - a] == st[k - a] == e[a..a + |st|][k - a];
      }
    }
  }

  lemma ReplacedMarkers(e: string, section: string, f: Fence)
    requires Fencing(f) && HasBlock(e, f) && Proper(section, f)
    ensures var (p, x) := Outside(e, f);
            && IndexOf(p + section + x, f.start) == Some(|p|)
            && IndexOf(p + section + x, f.end) == Some(|p| + |section| - |f.end|)
  {
    ReplacedStart(e, section, f);
    ReplacedEnd(e, section, f);
  }

  lemma ReplacedStart(e: string, section: string, f: Fence)
    requires Fencing(f) && HasBlock(e, f) && Proper(section, f)
    ensures var (p, x) := Outside(e, f);
            IndexOf(p + section + x, f.start) == Some(|p|)
  {
    var (p, x) := Outside(e, f);
    var m, n := p + section + x, |p| + |f.start|;
    IndexIsFirst(e, f.start);
    SameOpening(e, section, x, |p|, f.start);
    forall i: nat | i <= |p| ensures At(m, f.start, i) == At(e, f.start, i) {
      SamePrefix(m, e, n, f.start, i);
    }
    IndexIs(m, f.start, |p|);
  }

  lemma ReplacedEnd(e: string, section: string, f: Fence)
    requires Fencing(f) && HasBlock(e, f) && Proper(section, f)
    ensures var (p, x) := Outside(e, f);
            IndexOf(p + section + x, f.end) == Some(|p| + |section| - |f.end|)
  {
    var (p, x) := Outside(e, f);
    var m, n := p + section + x, |p| + |f.start|;
    IndexIsFirst(e, f.start);
    IndexIsFirst(e, f.end);
    SameOpening(e, section, x, |p|, f.start);
    forall i: nat | i < |p| ensures !At(m, f.end, i) {
      SamePrefix(m, e, n, f.end, i);
    }
    FirstInMiddle(p, section, x, f.end);
  }

  lemma AtMiddle(p: string, section: string, x: string, pat: string, i: nat)
    requires i + |pat| <= |section|
    ensures At(p + section + x, pat, |p| + i) == At(section, pat, i)
  {
    assert (p + section + x)[|p| + i..|p| + i + |pat|] == section[i..i + |pat|];
  }

  lemma FirstInMiddle(p: string, section: string, x: string, pat: string)
    requires forall i: nat | i < |p| :: !At(p + section + x, pat, i)
    requires |pat| <= |section| && IndexOf(section, pat) == Some(|section| - |pat|)
    ensures IndexOf(p + section + x, pat) == Some(|p| + |section| - |pat|)
  {
    hide At, IndexOf;
    var m, last := p + section + x, |p| + |section| - |pat|;
    IndexIsFirst(section, pat);
    forall i: nat | i < last ensures !At(m, pat, i) {
      if i >= |p| {
        AtMiddle(p, section, x, pat, i - |p|);
      }
    }
    AtMiddle(p, section, x, pat, last - |p|);
    IndexIs(m, pat, last);
  }

  lemma ProperFindsBoth(section: string, f: Fence)
    requires Fencing(f) && Proper(section, f)
    ensures IndexOf(section, f.start) == Some(0)
  {
    IndexIs(section, f.start, 0);
  }

  /** Where the markers are after a merge into a well-formed description. */
  lemma MergedMarkers(e: string, section: string, f: Fence)
    requires Fencing(f) && WellFormed(e, f) && Proper(section, f)
    ensures var m, p := Merge(e, section, f), Before(e, f);
            && m == p + section + After(e, f)
            && IndexOf(m, f.start) == Some(|p|)
            && IndexOf(m, f.end) == Some(|p| + |section| - |f.end|)
  {
    ProperFindsBoth(section, f);
    hide At, IndexOf;
    if HasBlock(e, f) {
      ReplacedMarkers(e, section, f);
    } else {
      assert Merge(e, section, f) == Before(e, f) + section == Before(e, f) + section + "";
      if e == "" {
        assert Before(e, f) + section == section;
      } else {
        AppendedMarker(e, section, f.start);
        AppendedMarker(e, section, f.end);
      }
    }
  }

  lemma CutAround(m: string, p: string, section: string, x: string)
    requires m == p + section + x
    ensures m[..|p|] == p && m[|p| + |section|..] == x
  {
  }

  /** One merge into a well-formed description: the block is exactly the new section, the text around it is the text
      that was around the old block (or the whole description and its separator), and the result is well formed. */
  lemma MergeReplacesOnlyTheBlock(e: string, section: string, f: Fence)
    requires Fencing(f) && WellFormed(e, f) && Proper(section, f)
    ensures var m := Merge(e, section, f);
            && m == Before(e, f) + section + After(e, f)
            && HasBlock(m, f)
            && Outside(m, f) == (Before(e, f), After(e, f))
            && (HasBlock(e, f) ==> Outside(m, f) == Outside(e, f))
  {
    MergedMarkers(e, section, f);
    CutAround(Merge(e, section, f), Before(e, f), section, After(e, f));
  }

  /** Merging again replaces the earlier section: only the last one counts. */
  lemma LastMergeWins(e: string, s1: string, s2: string, f: Fence)
    requires Fencing(f) && WellFormed(e, f) && Proper(s1, f) && Proper(s2, f)
    ensures Merge(Merge(e, s1, f), s2, f) == Merge(e, s2, f)
  {
    MergeReplacesOnlyTheBlock(e, s1, f);
    MergeReplacesOnlyTheBlock(Merge(e, s1, f), s2, f);
    MergeReplacesOnlyTheBlock(e, s2, f);
  }

  /** An orphan marker: the first merge appends, and the second either eats the text in between or appends again. */
  lemma OrphanBreaksTheMerge(e: string, section: string, f: Fence)
    requires Fencing(f) && !WellFormed(e, f) && Proper(section, f)
    ensures var once := Merge(e, section, f);
            var twice := Merge(once, section, f);
            && once == e + Separator(e) + section
            && if Contains(e, f.start) && !Contains(e, f.end)
               then twice == e[..IndexOf(e, f.start).value] + section && |twice| < |once|
               else twice == once + Separator(once) + section
  {
    assert !At("", f.start, 0) && !At("", f.end, 0);
    IndexIsFirst(e, f.start);
    IndexIsFirst(e, f.end);
    ProperFindsBoth(section, f);
    AppendedMarker(e, section, f.start);
    AppendedMarker(e, section, f.end);
    var once := Merge(e, section, f);
    if Contains(e, f.start) && !Contains(e, f.end) {
      var start := IndexOf(e, f.start).value;
      assert once[..start] == e[..start] && once[|once|..] == "";
    }
  }

  /** The merge is idempotent exactly on well-formed descriptions. */
  lemma MergeIdempotentIffWellFormed(e: string, section: string, f: Fence)
    requires Fencing(f) && Proper(section, f)
    ensures Merge(Merge(e, section, f), section, f) == Merge(e, section, f) <==> WellFormed(e, f)
  {
    if WellFormed(e, f) {
      LastMergeWins(e, section, section, f);
    } else {
      OrphanBreaksTheMerge(e, section, f);
    }
  }

  // ----- the rendered section is a proper one -----

  /** What the end marker has in common with every pattern the lines of a section can only hold inside a field. */
  predicate Fieldwise(pat: string) {
    pat != "" && pat[0] == '<' && '\n' !in pat && '`' !in pat
  }

  predicate QuestionHolds(q: Question, pat: string) {
    || Contains(q.id, pat) || Contains(q.text, pat)
    || (Truthy(q.answer) && Contains(q.answer.value, pat))
    || (Truthy(q.evidence) && Contains(q.evidence.value, pat))
  }

  predicate SomeQuestionHolds(qs: seq<Question>, pat: string) {
    qs != [] && (SomeQuestionHolds(qs[..|qs| - 1], pat) || QuestionHolds(qs[|qs| - 1], pat))
  }

  /** Some text of the task itself holds the pattern. */
  predicate FactsHold(facts: TaskFacts, pat: string) {
    Contains(facts.status, pat) || SomeQuestionHolds(facts.questions, pat)
  }

  lemma QuestionLinesHold(q: Question, pat: string)
    requires Fieldwise(pat)
    ensures SomeContains(QuestionLines(q), pat) <==> QuestionHolds(q, pat)
  {
    var box := "- [" + (if Truthy(q.answer) then "x" else " ") + "] `";
    var head := box + q.id + "` " + q.text;
    assert head == box + (q.id + ['`'] + (" " + q.text));
    ContainsAfter(box, q.id + ['`'] + (" " + q.text), pat);
    ContainsAcross(q.id, '`', " " + q.text, pat);
    ContainsAfter(" ", q.text, pat);
    ContainsAfter("  - Answer: ", q.answer.GetOr(""), pat);
    ContainsAfter("  - Evidence: ", q.evidence.GetOr(""), pat);
    var answer := if Truthy(q.answer) then ["  - Answer: " + q.answer.value] else [];
    var evidence := if Truthy(q.evidence) then ["  - Evidence: " + q.evidence.value] else [];
    assert QuestionLines(q) == [head] + (answer + evidence);
    SomeContainsConcat([head], answer + evidence, pat);
    SomeContainsConcat(answer, evidence, pat);
  }

  lemma {:induction false} AllQuestionLinesHold(qs: seq<Question>, pat: string)
    requires Fieldwise(pat)
    ensures SomeContains(AllQuestionLines(qs), pat) <==> SomeQuestionHolds(qs, pat)
  {
    if qs != [] {
      var n := |qs| - 1;
      AllQuestionLinesHold(qs[..n], pat);
      QuestionLinesHold(qs[n], pat);
      SomeContainsConcat(AllQuestionLines(qs[..n]), QuestionLines(qs[n]), pat);
    }
  }

  lemma SectionBodyHolds(facts: TaskFacts, pat: string)
    requires Fieldwise(pat) && !Contains(MANAGED_START, pat)
    ensures SomeContains(SectionBody(facts), pat) <==> FactsHold(facts, pat)
  {
    var st := MANAGED_START;
    var intro := ["", QUESTIONS_INTRO];
    var tail := if facts.questions == [] then [] else intro + AllQuestionLines(facts.questions);
    var first, second := [st], ["Status: " + facts.status];
    assert SectionBody(facts) == first + (second + tail);
    SomeContainsConcat(first, second + tail, pat);
    SomeContainsConcat(second, tail, pat);
    ContainsAfter("Status: ", facts.status, pat);
    SomeContainsConcat(intro, AllQuestionLines(facts.questions), pat);
    IntroHoldsNothing(pat);
    AllQuestionLinesHold(facts.questions, pat);
  }

  lemma IntroHoldsNothing(pat: string)
    requires Fieldwise(pat)
    ensures !SomeContains(["", QUESTIONS_INTRO], pat)
  {
    IntroLacks(pat);
    IndexIsFirst("", pat);
    TwoContain("", QUESTIONS_INTRO, pat);
  }

  lemma OneContains(a: string, pat: string)
    ensures SomeContains([a], pat) <==> Contains(a, pat)
  {
    assert [a][1..] == [];
  }

  lemma TwoContain(a: string, b: string, pat: string)
    ensures SomeContains([a, b], pat) <==> Contains(a, pat) || Contains(b, pat)
  {
    assert [a, b] == [a] + [b];
    SomeContainsConcat([a], [b], pat);
    OneContains(a, pat);
    OneContains(b, pat);
  }

  lemma LacksFirst(s: string, pat: string)
    requires pat != "" && pat[0] !in s
    ensures !Contains(s, pat)
  {
    ContainsAfter(s, "", pat);
    assert s + "" == s;
    IndexIsFirst("", pat);
  }

  lemma IntroLetters()
    ensures '<' !in QUESTIONS_INTRO
  {
    assert '<' !in "Acceptance questions ";
    assert '<' !in "(tracked here, not as separate issues):";
  }

  lemma IntroLacks(pat: string)
    requires Fieldwise(pat)
    ensures !Contains(QUESTIONS_INTRO, pat)
  {
    IntroLetters();
    LacksFirst(QUESTIONS_INTRO, pat);
  }

  /** The end marker closes a text first at its end exactly when the text before it has none. */
  lemma ClosesOnce(body: string, end: string)
    requires end != "" && '\n' !in end
    ensures IndexOf(body + "\n" + end, end) == Some(|body| + 1) <==> !Contains(body, end)
  {
    var s, a := body + "\n" + end, body + "\n";
    IndexIsFirst(s, end);
    IndexIsFirst(body, end);
    forall i: nat | i < |a| ensures At(s, end, i) <==> At(body, end, i) {
      AtConcat(a, end, end, i);
      AtConcat(body, "\n", end, i);
      if i + |end| > |a| {
        NoStraddle(a, end, end, i);
      } else if i + |end| == |a| {
        assert a[i..i + |end|][|end| - 1] == '\n';
      }
    }
    AtConcat(a, end, end, |a|);
    assert At(end, end, 0);
  }

  lemma ManagedLetters()
    ensures |MANAGED_START| == 27 && |MANAGED_END| == 25
    ensures MANAGED_START[1] == '!' && MANAGED_START[2] == '-' && MANAGED_START[18] == 's'
    ensures MANAGED_END[0] == '<' && MANAGED_END[18] == 'e'
  {
  }

  lemma ManagedIsFencing()
    ensures Fencing(MANAGED) && Fieldwise(MANAGED_END)
  {
    ManagedLetters();
  }

  lemma StartHoldsNoEnd(f: Fence)
    requires |f.start| == 27 && |f.end| == 25
    requires f.start[1] != f.end[0] && f.start[2] != f.end[0] && f.start[18] != f.end[18]
    ensures !Contains(f.start, f.end)
  {
    IndexIsFirst(f.start, f.end);
    forall i: nat ensures !At(f.start, f.end, i) {
      if i <= 2 {
        assert f.start[i..i + 25][0] == f.start[i] && f.start[i..i + 25][18] == f.start[i + 18];
      }
    }
  }

  lemma FramedIsProperIff(parts: seq<string>, f: Fence)
    requires Fencing(f) && parts != [] && parts[0] == f.start
    ensures Proper(Join(parts + [f.end], "\n"), f) <==> !SomeContains(parts, f.end)
  {
    hide Join;
    var body, section := Join(parts, "\n"), Join(parts + [f.end], "\n");
    JoinSnoc(parts, f.end, "\n");
    ContainsJoin(parts, f.end);
    ClosesOnce(body, f.end);
    OpensWithFirst(parts, "\n", "\n" + f.end);
    assert section == body + ("\n" + f.end);
  }

  lemma OpensWithFirst(parts: seq<string>, sep: string, tail: string)
    requires parts != []
    ensures |Join(parts, sep)| >= |parts[0]| && At(Join(parts, sep) + tail, parts[0], 0)
  {
    var rest := if |parts| == 1 then "" else sep + Join(parts[1..], sep);
    assert Join(parts, sep) + tail == parts[0] + (rest + tail);
    AtConcat(parts[0], rest + tail, parts[0], 0);
    assert At(parts[0], parts[0], 0);
  }

  /** What the managed block needs of the task's own texts: none of them holds the end marker. Nothing weaker will do. */
  lemma SectionIsProperIff(facts: TaskFacts)
    ensures Proper(ManagedSection(facts), MANAGED) <==> !FactsHold(facts, MANAGED_END)
  {
    ManagedIsFencing();
    ManagedLetters();
    StartHoldsNoEnd(MANAGED);
    SectionBodyHolds(facts, MANAGED_END);
    assert SectionBody(facts)[0] == MANAGED.start;
    FramedIsProperIff(SectionBody(facts), MANAGED);
  }

  /** A description with a block keeps everything outside it, exactly, whenever no text of the task holds the end
      marker; and so it does over any number of updates. */
  lemma UpdateKeepsTheOutside(e: string, facts: TaskFacts, later: TaskFacts)
    requires HasBlock(e, MANAGED) && !FactsHold(facts, MANAGED_END) && !FactsHold(later, MANAGED_END)
    ensures var once := MergeManagedDescription(e, ManagedSection(facts));
            && OutsideManaged(once) == OutsideManaged(e) && HasBlock(once, MANAGED)
            && MergeManagedDescription(once, ManagedSection(later)) == MergeManagedDescription(e, ManagedSection(later))
  {
    hide ManagedSection, FactsHold, Outside, Merge, HasBlock;
    ManagedIsFencing();
    SectionIsProperIff(facts);
    SectionIsProperIff(later);
    MergeReplacesOnlyTheBlock(e, ManagedSection(facts), MANAGED);
    LastMergeWins(e, ManagedSection(facts), ManagedSection(later), MANAGED);
  }
}

/** The line-anchored markers: who may write to an issue, and which completion comment has already been posted
    (extensions/hoja-mode/lifecycle.ts, extensions/hoja-mode/publish.ts). */
module Markers {
  import opened Wrappers
  import opened JsText
  import opened ManagedBlock

  function LinkLine(marker: string): string {
    "Link marker: " + marker
  }

  function AnswerLine(marker: string): string {
    "Answer marker: " + marker
  }

  /** Ownership and comment dedupe compare a whole trimmed line, never a substring. */
  predicate HasLinkMarker(description: string, marker: string) {
    marker != "" && HasLine(description, LinkLine(marker))
  }

  predicate HasAnswerMarker(comment: string, marker: string) {
    marker != "" && HasLine(comment, AnswerLine(marker))
  }

  // ----- marker tokens -----

  predicate SafeChar(c: char) {
    'A' <= c <= 'Z' || 'a' <= c <= 'z' || '0' <= c <= '9' || c == '_' || c == '-'
  }

  function KeepSafe(s: string): (r: string)
    ensures forall c | c in r :: SafeChar(c)
  {
    if s == "" then "" else (if SafeChar(s[0]) then [s[0]] else []) + KeepSafe(s[1..])
  }

  /** The restricted alphabet, a length bound, and a fallback for a text with no usable character. */
  function Token(s: string, bound: nat, fallback: string): (r: string)
    requires fallback != "" && bound > 0 && forall c | c in fallback :: SafeChar(c)
    ensures r != "" && forall c | c in r :: SafeChar(c)
  {
    var kept := KeepSafe(s);
    var cut := if |kept| > bound then kept[..bound] else kept;
    if cut == "" then fallback else cut
  }

  function SessionToken(sessionKey: string): (r: string)
    ensures r != "" && forall c | c in r :: SafeChar(c)
  {
    Token(sessionKey, 64, "session")
  }

  function TaskToken(taskId: string): (r: string)
    ensures r != "" && forall c | c in r :: SafeChar(c)
  {
    Token(taskId, 32, "task")
  }

  function TaskMarker(sessionKey: string, taskId: string): string {
    "hoja-task:" + SessionToken(sessionKey) + ":" + TaskToken(taskId)
  }

  function AnswerMarker(sessionKey: string, taskId: string, revision: string): string {
    "hoja-answer:" + SessionToken(sessionKey) + ":" + TaskToken(taskId) + ":" + revision
  }

  /** Two tasks share a marker only when both their sanitized names agree: task 1 is never confused with task 10. */
  lemma TaskMarkersAgreeIff(s1: string, t1: string, s2: string, t2: string)
    ensures TaskMarker(s1, t1) == TaskMarker(s2, t2) <==> SessionToken(s1) == SessionToken(s2) && TaskToken(t1) == TaskToken(t2)
  {
    var a, b := SessionToken(s1) + ":" + TaskToken(t1), SessionToken(s2) + ":" + TaskToken(t2);
    assert TaskMarker(s1, t1) == "hoja-task:" + a && TaskMarker(s2, t2) == "hoja-task:" + b;
    assert ("hoja-task:" + a)[10..] == a && ("hoja-task:" + b)[10..] == b;
    if a == b {
      CutsOnce(SessionToken(s1), TaskToken(t1), SessionToken(s2), TaskToken(t2), ':');
    }
  }

  /** A new revision of the answers is a new comment marker. */
  lemma AnswerMarkersAgreeIff(sessionKey: string, taskId: string, r1: string, r2: string)
    ensures AnswerMarker(sessionKey, taskId, r1) == AnswerMarker(sessionKey, taskId, r2) <==> r1 == r2
  {
    var head := "hoja-answer:" + SessionToken(sessionKey) + ":" + TaskToken(taskId) + ":";
    assert (head + r1)[|head|..] == r1 && (head + r2)[|head|..] == r2;
  }

  // ----- the texts that carry the markers -----

  function IssueDescription(description: Option<string>, taskId: string, sessionKey: string, marker: string, managed: string): string {
    Join(NonEmpty([
      Trim(description.GetOr("")),
      "Tracked by TaskManage task #" + taskId + " in session " + Prefix(KeepSafe(sessionKey), 8) + ".",
      LinkLine(marker),
      managed]), "\n\n")
  }

  function Prefix(s: string, n: nat): string {
    if |s| > n then s[..n] else s
  }

  function SubissueDescription(facts: TaskFacts, marker: string): string {
    Join(NonEmpty([facts.description.GetOr(""), LinkLine(marker), ManagedSection(facts)]), "\n\n")
  }

  function AnswerLines(qs: seq<Question>): seq<string> {
    if qs == [] then []
    else
      var q := qs[|qs| - 1];
      AnswerLines(qs[..|qs| - 1])
      + ["- `" + q.id + "` " + q.text, "  - Answer: " + q.answer.GetOr("(unanswered)")]
      + (if Truthy(q.evidence) then ["  - Evidence: " + q.evidence.value] else [])
  }

  function CommentLines(facts: TaskFacts, marker: string): (lines: seq<string>)
    ensures |lines| > 2 && lines[2] == AnswerLine(marker)
  {
    ["TaskManage task #" + facts.taskId + " completed: " + facts.subject, "", AnswerLine(marker)]
    + (if facts.questions == [] then ["", "This task recorded no acceptance questions."]
       else ["", "Answers:"] + AnswerLines(facts.questions))
  }

  function CompletionComment(facts: TaskFacts, marker: string): string {
    Join(CommentLines(facts, marker), "\n")
  }

  method RenderCompletionComment(facts: TaskFacts, marker: string) returns (comment: string)
    ensures comment == CompletionComment(facts, marker)
  {
    var lines := ["TaskManage task #" + facts.taskId + " completed: " + facts.subject, "", AnswerLine(marker)];
    ghost var head := lines;
    if facts.questions == [] {
      lines := lines + ["", "This task recorded no acceptance questions."];
    } else {
      lines := lines + ["", "Answers:"];
      for i := 0 to |facts.questions|
        invariant lines == head + (["", "Answers:"] + AnswerLines(facts.questions[..i]))
      {
        var question := facts.questions[i];
        assert facts.questions[..i + 1][..i] == facts.questions[..i];
        lines := lines + ["- `" + question.id + "` " + question.text, "  - Answer: " + question.answer.GetOr("(unanswered)")];
        if Truthy(question.evidence) {
          lines := lines + ["  - Evidence: " + question.evidence.value];
        }
      }
      assert facts.questions[..|facts.questions|] == facts.questions;
    }
    comment := Join(lines, "\n");
  }

  // ----- what is written is recognized -----

  /** Text that is one line and keeps its ends when trimmed. */
  predicate OneLine(s: string) {
    s != "" && '\n' !in s && !IsSpace(s[0]) && !IsSpace(s[|s| - 1])
  }

  lemma OneLineHasItself(s: string)
    requires OneLine(s)
    ensures HasLine(s, s)
  {
    LineEndIs(s, |s|);
    assert s[..|s|] == s;
  }

  predicate SomeHasLine(parts: seq<string>, wanted: string) {
    parts != [] && (HasLine(parts[0], wanted) || SomeHasLine(parts[1..], wanted))
  }

  lemma {:induction false} SomeHasLineAt(parts: seq<string>, i: nat, wanted: string)
    requires i < |parts| && HasLine(parts[i], wanted)
    ensures SomeHasLine(parts, wanted)
  {
    if i > 0 {
      SomeHasLineAt(parts[1..], i - 1, wanted);
    }
  }

  /** The lines of texts joined by newlines are the lines of the texts. */
  lemma {:induction false} HasLineJoin(parts: seq<string>, wanted: string)
    requires parts != []
    ensures HasLine(Join(parts, "\n"), wanted) <==> SomeHasLine(parts, wanted)
  {
    if |parts| > 1 {
      HasLineSplit(parts[0], Join(parts[1..], "\n"), wanted);
      HasLineJoin(parts[1..], wanted);
    }
  }

  /** A blank line between paragraphs adds no marker. */
  lemma {:induction false} HasLineJoinParagraphs(parts: seq<string>, wanted: string)
    requires parts != [] && wanted != ""
    ensures HasLine(Join(parts, "\n\n"), wanted) <==> SomeHasLine(parts, wanted)
  {
    if |parts| > 1 {
      var rest := Join(parts[1..], "\n\n");
      assert parts[0] + "\n\n" + rest == parts[0] + "\n" + ("" + "\n" + rest);
      HasLineSplit(parts[0], "" + "\n" + rest, wanted);
      HasLineSplit("", rest, wanted);
      EmptyHasNoLine(wanted);
      HasLineJoinParagraphs(parts[1..], wanted);
    }
  }

  lemma EmptyHasNoLine(wanted: string)
    requires wanted != ""
    ensures !HasLine("", wanted)
  {
  }

  lemma SomeHasLineCons(part: string, rest: seq<string>, wanted: string)
    ensures SomeHasLine([part] + rest, wanted) <==> HasLine(part, wanted) || SomeHasLine(rest, wanted)
  {
    assert ([part] + rest)[1..] == rest;
  }

  lemma {:induction false} NonEmptyKeepsLines(parts: seq<string>, wanted: string)
    requires wanted != ""
    ensures SomeHasLine(NonEmpty(parts), wanted) <==> SomeHasLine(parts, wanted)
  {
    if parts != [] {
      NonEmptyKeepsLines(parts[1..], wanted);
      if parts[0] == "" {
        EmptyHasNoLine(wanted);
        assert NonEmpty(parts) == [] + NonEmpty(parts[1..]) == NonEmpty(parts[1..]);
      } else {
        SomeHasLineCons(parts[0], NonEmpty(parts[1..]), wanted);
      }
    }
  }

  // ----- a text closed by a newline keeps its lines apart from what follows -----

  predicate Terminated(s: string) {
    s == "" || s[|s| - 1] == '\n'
  }

  predicate Opened(s: string) {
    s == "" || s[0] == '\n'
  }

  lemma HasLineAfterNewline(a: string, b: string, wanted: string)
    requires Terminated(a) && wanted != ""
    ensures HasLine(a + b, wanted) <==> HasLine(a, wanted) || HasLine(b, wanted)
  {
    hide HasLine;
    EmptyHasNoLine(wanted);
    if a == "" {
      assert a + b == b;
    } else {
      var a' := a[..|a| - 1];
      assert a == a' + "\n" + "" && a + b == a' + "\n" + b;
      HasLineSplit(a', "", wanted);
      HasLineSplit(a', b, wanted);
    }
  }

  lemma HasLineBeforeNewline(a: string, b: string, wanted: string)
    requires Opened(b) && wanted != ""
    ensures HasLine(a + b, wanted) <==> HasLine(a, wanted) || HasLine(b, wanted)
  {
    hide HasLine;
    EmptyHasNoLine(wanted);
    if b == "" {
      assert a + b == a;
    } else {
      var b' := b[1..];
      assert b == "" + "\n" + b' && a + b == a + "\n" + b';
      HasLineSplit("", b', wanted);
      HasLineSplit(a, b', wanted);
    }
  }

  // ----- marker lines and the managed block -----

  /** The block, if there is one, stands on lines of its own. */
  predicate OnOwnLines(e: string, f: Fence) {
    HasBlock(e, f) ==> Terminated(Outside(e, f).0) && Opened(Outside(e, f).1)
  }

  lemma BeforeIsTerminated(e: string, wanted: string, f: Fence)
    requires OnOwnLines(e, f) && wanted != ""
    ensures Terminated(Before(e, f)) && Opened(After(e, f))
    ensures !HasBlock(e, f) ==> (HasLine(Before(e, f), wanted) <==> HasLine(e, wanted))
  {
    hide HasLine;
    if !HasBlock(e, f) && e != "" {
      EmptyHasNoLine(wanted);
      if Separator(e) == "\n\n" {
        assert e + "\n\n" == e + "\n" + ("" + "\n" + "");
        HasLineSplit(e, "" + "\n" + "", wanted);
        HasLineSplit("", "", wanted);
      } else if Separator(e) == "\n" {
        assert e + "\n" == e + "\n" + "";
        HasLineSplit(e, "", wanted);
      } else {
        assert e + "" == e;
      }
    }
  }

  /** The lines of a merged description are the human lines around the block and the lines of the section: a marker
      line outside the block survives every merge, and no merge can invent one outside the section. */
  lemma MergeKeepsMarkerLines(e: string, section: string, wanted: string, f: Fence)
    requires Fencing(f) && WellFormed(e, f) && Proper(section, f) && OnOwnLines(e, f) && wanted != ""
    ensures var m := Merge(e, section, f);
            && (HasLine(m, wanted) <==> HasLine(Before(e, f), wanted) || HasLine(section, wanted) || HasLine(After(e, f), wanted))
            && WellFormed(m, f) && OnOwnLines(m, f)
            && Before(m, f) == Before(e, f) && After(m, f) == After(e, f)
  {
    MergeReplacesOnlyTheBlock(e, section, f);
    BeforeIsTerminated(e, wanted, f);
    var p, x := Before(e, f), After(e, f);
    HasLineBeforeNewline(p + section, x, wanted);
    HasLineAfterNewline(p, section, wanted);
  }

  // ----- recognizing what was written -----

  lemma SafeIsPlain(s: string)
    requires forall c | c in s :: SafeChar(c)
    ensures '\n' !in s && forall i | 0 <= i < |s| :: !IsSpace(s[i])
  {
    forall i | 0 <= i < |s| ensures !IsSpace(s[i]) {
      assert s[i] in s;
    }
  }

  lemma TaggedIsOneLine(tag: string, body: string, token: string)
    requires tag != "" && '\n' !in tag && !IsSpace(tag[0])
    requires '\n' !in body && token != "" && forall c | c in token :: SafeChar(c)
    ensures OneLine(tag + body + token)
  {
    SafeIsPlain(token);
    var s := tag + body + token;
    assert s[0] == tag[0] && s[|s| - 1] == token[|token| - 1];
  }

  lemma LinkLineIsOneLine(sessionKey: string, taskId: string)
    ensures OneLine(LinkLine(TaskMarker(sessionKey, taskId)))
  {
    var body := "hoja-task:" + SessionToken(sessionKey) + ":";
    SafeIsPlain(SessionToken(sessionKey));
    assert '\n' !in "hoja-task:" && '\n' !in ":";
    TaggedIsOneLine("Link marker: ", body, TaskToken(taskId));
    assert LinkLine(TaskMarker(sessionKey, taskId)) == "Link marker: " + body + TaskToken(taskId);
  }

  lemma AnswerLineIsOneLine(sessionKey: string, taskId: string, revision: string)
    requires revision != "" && forall c | c in revision :: SafeChar(c)
    ensures OneLine(AnswerLine(AnswerMarker(sessionKey, taskId, revision)))
  {
    var body := "hoja-answer:" + SessionToken(sessionKey) + ":" + TaskToken(taskId) + ":";
    SafeIsPlain(SessionToken(sessionKey));
    SafeIsPlain(TaskToken(taskId));
    assert '\n' !in "hoja-answer:" && '\n' !in ":";
    TaggedIsOneLine("Answer marker: ", body, revision);
    assert AnswerLine(AnswerMarker(sessionKey, taskId, revision)) == "Answer marker: " + body + revision;
  }

  function TrackedLine(taskId: string, sessionKey: string): string {
    "Tracked by TaskManage task #" + taskId + " in session " + Prefix(KeepSafe(sessionKey), 8) + "."
  }

  /** The lines of a new issue's description: the human body, the two generated lines, the managed section. */
  lemma DescriptionLines(description: Option<string>, taskId: string, sessionKey: string, marker: string, managed: string, wanted: string)
    requires wanted != ""
    ensures HasLine(IssueDescription(description, taskId, sessionKey, marker, managed), wanted)
       <==> || HasLine(Trim(description.GetOr("")), wanted) || HasLine(TrackedLine(taskId, sessionKey), wanted)
            || HasLine(LinkLine(marker), wanted) || HasLine(managed, wanted)
  {
    var body, tracked, link := Trim(description.GetOr("")), TrackedLine(taskId, sessionKey), LinkLine(marker);
    var parts := [body, tracked, link, managed];
    NonEmptyKeepsLines(parts, wanted);
    LinkPartRemains(body, tracked, link, managed);
    HasLineJoinParagraphs(NonEmpty(parts), wanted);
    SomeHasLineOfFour(body, tracked, link, managed, wanted);
  }

  lemma SomeHasLineOfFour(a: string, b: string, c: string, d: string, wanted: string)
    ensures SomeHasLine([a, b, c, d], wanted) <==> HasLine(a, wanted) || HasLine(b, wanted) || HasLine(c, wanted) || HasLine(d, wanted)
  {
    assert [a, b, c, d] == [a] + [b, c, d] && [b, c, d] == [b] + [c, d] && [c, d] == [c] + [d] && [d] == [d] + [];
    SomeHasLineCons(a, [b, c, d], wanted);
    SomeHasLineCons(b, [c, d], wanted);
    SomeHasLineCons(c, [d], wanted);
    SomeHasLineCons(d, [], wanted);
  }

  lemma NonEmptyCons(part: string, rest: seq<string>)
    ensures NonEmpty([part] + rest) == (if part == "" then [] else [part]) + NonEmpty(rest)
  {
    assert ([part] + rest)[1..] == rest;
  }

  lemma LinkPartRemains(a: string, b: string, link: string, d: string)
    requires link != ""
    ensures NonEmpty([a, b, link, d]) != []
  {
    assert [a, b, link, d] == [a] + ([b] + ([link] + [d]));
    NonEmptyCons(a, [b] + ([link] + [d]));
    NonEmptyCons(b, [link] + [d]);
    NonEmptyCons(link, [d]);
  }

  /** Round trip: an issue written for a task carries that task's link marker. */
  lemma OwnDescriptionIsRecognized(description: Option<string>, taskId: string, sessionKey: string, managed: string)
    ensures HasLinkMarker(IssueDescription(description, taskId, sessionKey, TaskMarker(sessionKey, taskId), managed), TaskMarker(sessionKey, taskId))
  {
    var wanted := LinkLine(TaskMarker(sessionKey, taskId));
    DescriptionLines(description, taskId, sessionKey, TaskMarker(sessionKey, taskId), managed, wanted);
    LinkLineIsOneLine(sessionKey, taskId);
    OneLineHasItself(wanted);
  }

  /** The same for a sub-issue beneath a shared issue. */
  lemma OwnSubissueIsRecognized(facts: TaskFacts, sessionKey: string)
    ensures HasLinkMarker(SubissueDescription(facts, TaskMarker(sessionKey, facts.taskId)), TaskMarker(sessionKey, facts.taskId))
  {
    var wanted := LinkLine(TaskMarker(sessionKey, facts.taskId));
    var body, section := facts.description.GetOr(""), ManagedSection(facts);
    LinkLineIsOneLine(sessionKey, facts.taskId);
    OneLineHasItself(wanted);
    var parts := [body, wanted, section];
    assert parts == [body] + ([wanted] + [section]);
    NonEmptyCons(body, [wanted] + [section]);
    NonEmptyCons(wanted, [section]);
    SomeHasLineAt(parts, 1, wanted);
    NonEmptyKeepsLines(parts, wanted);
    HasLineJoinParagraphs(NonEmpty(parts), wanted);
  }

  /** Round trip: a completion comment carries the marker it was written with. */
  lemma OwnCommentIsRecognized(facts: TaskFacts, sessionKey: string, taskId: string, revision: string)
    requires revision != "" && forall c | c in revision :: SafeChar(c)
    ensures HasAnswerMarker(CompletionComment(facts, AnswerMarker(sessionKey, taskId, revision)), AnswerMarker(sessionKey, taskId, revision))
  {
    var wanted := AnswerLine(AnswerMarker(sessionKey, taskId, revision));
    AnswerLineIsOneLine(sessionKey, taskId, revision);
    OneLineHasItself(wanted);
    var parts := CommentLines(facts, AnswerMarker(sessionKey, taskId, revision));
    SomeHasLineAt(parts, 2, wanted);
    HasLineJoin(parts, wanted);
  }

  /** The comment down to its marker line. */
  function CommentHead(facts: TaskFacts, marker: string): string {
    Join(CommentLines(facts, marker)[..3], "\n")
  }

  /** And so does one cut off anywhere below its marker line. */
  lemma CutCommentIsRecognized(facts: TaskFacts, sessionKey: string, taskId: string, revision: string, n: nat)
    requires revision != "" && forall c | c in revision :: SafeChar(c)
    requires var marker := AnswerMarker(sessionKey, taskId, revision);
             |CommentHead(facts, marker)| <= n <= |CompletionComment(facts, marker)|
    ensures var marker := AnswerMarker(sessionKey, taskId, revision);
            HasAnswerMarker(CompletionComment(facts, marker)[..n], marker)
  {
    hide AnswerMarker, CommentLines;
    var marker := AnswerMarker(sessionKey, taskId, revision);
    AnswerLineIsOneLine(sessionKey, taskId, revision);
    MarkerSurvivesCut(CommentLines(facts, marker), AnswerLine(marker), n);
  }

  lemma MarkerSurvivesCut(parts: seq<string>, wanted: string, n: nat)
    requires |parts| > 2 && parts[2] == wanted && OneLine(wanted)
    requires |Join(parts[..3], "\n")| <= n <= |Join(parts, "\n")|
    ensures HasLine(Join(parts, "\n")[..n], wanted)
  {
    hide Join, HasLine, OneLine;
    OneLineHasItself(wanted);
    var head, whole := Join(parts[..3], "\n"), Join(parts, "\n");
    SomeHasLineAt(parts[..3], 2, wanted);
    HasLineJoin(parts[..3], wanted);
    if |parts| > 3 {
      JoinAppend(parts[..3], parts[3..], "\n");
      assert parts[..3] + parts[3..] == parts;
      var tail := Join(parts[3..], "\n");
      if n > |head| {
        assert whole[..n] == head + "\n" + tail[..n - |head| - 1];
        HasLineSplit(head, tail[..n - |head| - 1], wanted);
      } else {
        assert whole[..n] == head;
      }
    } else {
      assert parts[..3] == parts && whole[..n] == head;
    }
  }

  // ----- a freshly created issue -----

  function DescriptionHead(description: Option<string>, taskId: string, sessionKey: string): string {
    IssueDescription(description, taskId, sessionKey, TaskMarker(sessionKey, taskId), "")
  }

  function FreshDescription(description: Option<string>, taskId: string, sessionKey: string, section: string): string {
    IssueDescription(description, taskId, sessionKey, TaskMarker(sessionKey, taskId), section)
  }

  lemma {:induction false} JoinEndsWithLast(parts: seq<string>, sep: string)
    requires parts != [] && parts[|parts| - 1] != ""
    ensures var j, last := Join(parts, sep), parts[|parts| - 1];
            j != "" && j[|j| - 1] == last[|last| - 1]
  {
    if |parts| > 1 {
      JoinEndsWithLast(parts[1..], sep);
    }
  }

  lemma FreshParts(a: string, b: string, link: string, section: string)
    requires link != "" && section != ""
    ensures var front := NonEmpty([a, b, link, ""]);
            && front != [] && front[|front| - 1] == link
            && NonEmpty([a, b, link, section]) == front + [section]
  {
    forall d: string ensures NonEmpty([a, b, link, d]) ==
      (if a == "" then [] else [a]) + (if b == "" then [] else [b]) + [link] + (if d == "" then [] else [d])
    {
      assert [a, b, link, d] == [a] + ([b] + ([link] + ([d] + [])));
      NonEmptyCons(a, [b] + ([link] + ([d] + [])));
      NonEmptyCons(b, [link] + ([d] + []));
      NonEmptyCons(link, [d] + []);
      NonEmptyCons(d, []);
    }
  }

  /** Creating an issue writes exactly what merging the section into the generated head would: a new issue starts in
      the shape every later merge keeps, with its link marker outside the block. */
  lemma CreationIsAMerge(description: Option<string>, taskId: string, sessionKey: string, section: string, f: Fence)
    requires Fencing(f) && Proper(section, f)
    requires !Contains(DescriptionHead(description, taskId, sessionKey), f.start)
    requires !Contains(DescriptionHead(description, taskId, sessionKey), f.end)
    ensures var head, created := DescriptionHead(description, taskId, sessionKey), FreshDescription(description, taskId, sessionKey, section);
            && created == Merge(head, section, f)
            && WellFormed(created, f) && OnOwnLines(created, f)
            && Outside(created, f) == (head + "\n\n", "")
            && HasLinkMarker(Before(created, f), TaskMarker(sessionKey, taskId))
  {
    hide DescriptionHead, FreshDescription, Separator, HasLine, WellFormed, OnOwnLines, Outside, Merge, Proper, Contains, Before, After, TaskMarker;
    var head, wanted := DescriptionHead(description, taskId, sessionKey), LinkLine(TaskMarker(sessionKey, taskId));
    FreshIsHeadAndSection(description, taskId, sessionKey, section, f);
    MergesBehind(head, section, f);
    HeadIsRecognized(description, taskId, sessionKey);
    BeforeIsTerminated(head, wanted, f);
  }

  lemma HeadIsRecognized(description: Option<string>, taskId: string, sessionKey: string)
    ensures HasLinkMarker(DescriptionHead(description, taskId, sessionKey), TaskMarker(sessionKey, taskId))
  {
    OwnDescriptionIsRecognized(description, taskId, sessionKey, "");
  }

  lemma FreshIsHeadAndSection(description: Option<string>, taskId: string, sessionKey: string, section: string, f: Fence)
    requires Fencing(f) && Proper(section, f)
    ensures var head := DescriptionHead(description, taskId, sessionKey);
            && head != "" && head[|head| - 1] != '\n'
            && FreshDescription(description, taskId, sessionKey, section) == head + "\n\n" + section
  {
    var link := LinkLine(TaskMarker(sessionKey, taskId));
    var body, tracked := Trim(description.GetOr("")), TrackedLine(taskId, sessionKey);
    hide Trim, TaskMarker, LinkLine, NonEmpty, Join;
    LinkLineIsOneLine(sessionKey, taskId);
    FreshParts(body, tracked, link, section);
    var front := NonEmpty([body, tracked, link, ""]);
    JoinSnoc(front, section, "\n\n");
    JoinEndsWithLast(front, "\n\n");
  }

  /** Merging into a text without fences that does not end a line puts a blank line between. */
  lemma MergesBehind(head: string, section: string, f: Fence)
    requires Fencing(f) && Proper(section, f) && head != "" && head[|head| - 1] != '\n'
    requires !Contains(head, f.start) && !Contains(head, f.end)
    ensures var m := Merge(head, section, f);
            && m == head + "\n\n" + section && WellFormed(m, f) && OnOwnLines(m, f) && Outside(m, f) == (head + "\n\n", "")
            && Before(m, f) == Before(head, f) && !HasBlock(head, f) && OnOwnLines(head, f)
  {
    assert Separator(head) == "\n\n";
    MergeReplacesOnlyTheBlock(head, section, f);
  }
}

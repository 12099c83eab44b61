/** Why each request left: every write of every run had its reason, wherever the session stops, whatever the operations
    say and whatever memory holds. Nothing here depends on the associations being the journal's. */
module HojaJustified {
  import opened Wrappers
  import opened JsText
  import opened ManagedBlock
  import opened Markers
  import opened AnswerRevision
  import opened HojaRecords
  import opened HojaServer
  import opened HojaWorld
  import opened LifecycleSync
  import opened Publish
  import opened HojaSafety

  predicate OwnedIn(seen: seq<IssueView>, issue: nat, marker: string) {
    exists i | 0 <= i < |seen| :: seen[i].id == issue && HasLinkMarker(seen[i].description, marker)
  }

  predicate LastSeen(seen: seq<IssueView>, view: IssueView) {
    seen != [] && seen[|seen| - 1] == view
  }

  function MarkerFor(sessionKey: string, facts: TaskFacts): string {
    AnswerMarker(sessionKey, facts.taskId, RevisionOf(facts))
  }

  /** The issue a lifecycle write goes to: read in this pass with the task's exact marker line, and read last. */
  predicate ProvenTarget(a: Audit, issue: nat, sessionKey: string) {
    && OwnedIn(a.seen, issue, TaskMarker(sessionKey, a.facts.taskId))
    && a.seen[|a.seen| - 1].id == issue
  }

  /** What a new issue is told: the task's subject, its state, and a description that carries the task's exact marker
      line and closes with its managed section. */
  predicate WrittenFor(a: Audit, title: string, description: string, state: string, sessionKey: string) {
    && title == a.facts.subject && state == (if a.facts.status == "in_progress" then "In Progress" else "Todo")
    && HasLinkMarker(description, TaskMarker(sessionKey, a.facts.taskId)) && EndsWith(description, ManagedSection(a.facts))
  }

  predicate EndsWith(s: string, tail: string) {
    |tail| <= |s| && s[|s| - |tail|..] == tail
  }

  /** A root create leaves only behind its own intent. */
  predicate RootJustified(a: Audit, target: Resolved, parent: Option<nat>, sessionKey: string) {
    && a.key == RootKey(a.facts.taskId)
    && a.intent.Some? && a.intent.value.state == Reconciling && a.intent.value.reason == Some(WriteInFlight)
    && a.intent.value.marker == Some(TaskMarker(sessionKey, a.facts.taskId))
    && a.intent.value.projectId == Some(target.projectId) && a.intent.value.expectedParent == parent
  }

  /** A sub-issue is created only beneath an adopted issue just read without the marker, in that issue's own team,
      behind its own intent, and never for a deleted task. */
  predicate SubissueJustified(a: Audit, target: Resolved, parent: Option<nat>, sessionKey: string) {
    && a.key == SubKey(a.facts.taskId) && a.facts.status != "deleted"
    && IsLinked(a.intent) && Current(a.intent.value).scope == Adopted && Current(a.intent.value).subissue == Some(SubissuePending)
    && parent.Some? && a.intent.value.issueId == parent && a.seen != []
    && var view := a.seen[|a.seen| - 1];
       view.id == parent.value && view.teamId == target.teamId && !HasLinkMarker(view.description, TaskMarker(sessionKey, a.facts.taskId))
  }

  predicate EveryQuestionAnswered(facts: TaskFacts) {
    forall i | 0 <= i < |facts.questions| :: facts.questions[i].answer.Some? && facts.questions[i].answer.value != ""
  }

  /** A comment leaves only behind its own intent, to the proven issue, when that issue was last seen without it. */
  predicate CommentJustified(a: Audit, issue: nat, marker: string, body: string, sessionKey: string) {
    && a.key == CommentKey(a.facts.taskId, issue, marker) && marker == MarkerFor(sessionKey, a.facts)
    && a.facts.status == "completed" && EveryQuestionAnswered(a.facts) && body == CompletionComment(a.facts, marker)
    && IsLinked(a.intent) && a.intent.value.issueId == Some(issue)
    && Current(a.intent.value).comment == Some(CommentPending) && Current(a.intent.value).commentMarker == Some(marker)
    && ProvenTarget(a, issue, sessionKey) && !Visible(a.seen[|a.seen| - 1].comments, marker)
  }

  /** A description write replaces only the managed block of what was last read. */
  predicate DescriptionJustified(a: Audit, issue: nat, description: string, sessionKey: string) {
    && ProvenTarget(a, issue, sessionKey) && a.facts.status != "deleted"
    && description == MergeManagedDescription(a.seen[|a.seen| - 1].description, ManagedSection(a.facts))
  }

  /** A state write stays in the issue's own team and project; Done also needs an accepted completion whose comment
      was visible when the issue was last read. */
  predicate StateJustified(a: Audit, issue: nat, target: Resolved, state: string, sessionKey: string) {
    && ProvenTarget(a, issue, sessionKey)
    && var view := a.seen[|a.seen| - 1];
       && target.teamId == view.teamId && target.projectId == view.projectId
       && if a.facts.status == "completed"
          then EveryQuestionAnswered(a.facts) && state == "Done" && Visible(view.comments, MarkerFor(sessionKey, a.facts))
          else a.facts.status != "deleted" && state == (if a.facts.status == "in_progress" then "In Progress" else "Todo")
  }

  predicate Justified(a: Audit, sessionKey: string) {
    && a.active
    && match a.request
       case CreateIssue(target, title, description, state, parent) =>
         && WrittenFor(a, title, description, state, sessionKey)
         && (RootJustified(a, target, parent, sessionKey) || SubissueJustified(a, target, parent, sessionKey))
       case PostComment(issue, marker, body) => CommentJustified(a, issue, marker, body, sessionKey)
       case SetDescription(issue, description) => DescriptionJustified(a, issue, description, sessionKey)
       case SetState(issue, target, state) => StateJustified(a, issue, target, state, sessionKey)
  }

  predicate AllJustified(asked: seq<Audit>, sessionKey: string) {
    forall i | 0 <= i < |asked| :: Justified(asked[i], sessionKey)
  }

  /** Nothing is on the server, or may still appear there, that was not asked for. */
  ghost predicate AllAsked(s: Server, asked: seq<Audit>) {
    forall k: Key :: k != OtherKey ==> Total(s, k) <= multiset(AskedKeys(asked))[k]
  }

  ghost predicate Audited(w: World, sessionKey: string) {
    AllJustified(w.asked, sessionKey) && AllAsked(w.server, w.asked)
  }

  // ----- what the texts and states are -----

  lemma AcceptedMeans(facts: TaskFacts)
    ensures AcceptedCompletion(facts) <==> facts.status == "completed" && EveryQuestionAnswered(facts)
  {
  }

  lemma {:induction false} JoinClosesWithLast(parts: seq<string>, last: string, sep: string)
    ensures EndsWith(Join(parts + [last], sep), last)
  {
    if parts == [] {
      assert parts + [last] == [last];
    } else {
      JoinSnoc(parts, last, sep);
    }
  }

  lemma SectionIsSomething(facts: TaskFacts)
    ensures ManagedSection(facts) != ""
  {
    var lines := SectionBody(facts) + [MANAGED_END];
    assert lines[0] == MANAGED_START && |lines| > 1;
  }

  lemma SubissueIsWritten(facts: TaskFacts, sessionKey: string)
    ensures var text := SubissueDescription(facts, TaskMarker(sessionKey, facts.taskId));
            HasLinkMarker(text, TaskMarker(sessionKey, facts.taskId)) && EndsWith(text, ManagedSection(facts))
  {
    hide ManagedSection, HasLinkMarker, TaskMarker, Join, EndsWith, LinkLine;
    OwnSubissueIsRecognized(facts, sessionKey);
    SectionIsSomething(facts);
    var body, line, section := facts.description.GetOr(""), LinkLine(TaskMarker(sessionKey, facts.taskId)), ManagedSection(facts);
    assert [body, line, section] == [body] + ([line] + ([section] + []));
    NonEmptyCons(body, [line] + ([section] + []));
    NonEmptyCons(line, [section] + []);
    NonEmptyCons(section, []);
    var front := (if body == "" then [] else [body]) + (if line == "" then [] else [line]);
    assert NonEmpty([body, line, section]) == front + [section];
    JoinClosesWithLast(front, section, "\n\n");
  }

  lemma RootIsWritten(description: Option<string>, facts: TaskFacts, sessionKey: string)
    ensures var text := IssueDescription(description, facts.taskId, sessionKey, TaskMarker(sessionKey, facts.taskId), ManagedSection(facts));
            HasLinkMarker(text, TaskMarker(sessionKey, facts.taskId)) && EndsWith(text, ManagedSection(facts))
  {
    hide ManagedSection, HasLinkMarker, TaskMarker, Join, EndsWith, Trim, KeepSafe;
    OwnDescriptionIsRecognized(description, facts.taskId, sessionKey, ManagedSection(facts));
    SectionIsSomething(facts);
    var body, tracked, line, section := Trim(description.GetOr("")), TrackedLine(facts.taskId, sessionKey), LinkLine(TaskMarker(sessionKey, facts.taskId)), ManagedSection(facts);
    FreshParts(body, tracked, line, section);
    JoinClosesWithLast(NonEmpty([body, tracked, line, ""]), section, "\n\n");
  }

  // ----- elementary steps -----

  lemma AwaitAudited(w: World, sessionKey: string)
    requires Audited(w, sessionKey)
    ensures Audited(Await(w), sessionKey)
  {
    EvolveIsLater(w.server, NextTick(w).others);
    forall k: Key | k != OtherKey ensures Total(Await(w).server, k) <= multiset(AskedKeys(w.asked))[k] {
      assert Total(w.server, k) <= multiset(AskedKeys(w.asked))[k];
    }
  }

  lemma SendAudited(w: World, facts: TaskFacts, key: Key, request: Request, write: Late, sessionKey: string)
    requires Audited(w, sessionKey) && LateKey(write) == key && Justified(AuditNow(w, facts, key, request), sessionKey)
    ensures Audited(Send(w, facts, key, request, write).0, sessionKey)
  {
    hide Justified, Send, Total;
    SendChanges(w, facts, key, request, write);
    var w1, audit := Send(w, facts, key, request, write).0, AuditNow(w, facts, key, request);
    assert AskedKeys(w1.asked) == AskedKeys(w.asked) + [key] by {
      assert audit.key == key && w1.asked == w.asked + [audit];
    }
    forall k: Key | k != OtherKey ensures Total(w1.server, k) <= multiset(AskedKeys(w1.asked))[k] {
      assert Total(w.server, k) <= multiset(AskedKeys(w.asked))[k];
    }
  }

  // ----- where a lifecycle pass stands -----

  /** The pass is about its record's own task, with this session's marker. */
  ghost predicate OwnTask(p: Pass, a: SyncArgs, sessionKey: string) {
    && Audited(p.w, sessionKey) && p.record.taskId == a.facts.taskId && a.facts.taskId != "" && p.record.state == Linked
    && a.sessionKey == sessionKey && a.marker == TaskMarker(sessionKey, a.facts.taskId)
  }

  /** And the task is still there. */
  ghost predicate Own(p: Pass, a: SyncArgs, sessionKey: string) {
    OwnTask(p, a, sessionKey) && a.facts.status != "deleted"
  }

  /** The issue just read is the record's, and was read in this pass with the marker line. */
  ghost predicate On(p: Pass, a: SyncArgs, view: IssueView, sessionKey: string) {
    && Own(p, a, sessionKey) && p.record.issueId == Some(view.id)
    && LastSeen(p.w.seen, view) && OwnedIn(p.w.seen, view.id, a.marker)
  }

  ghost predicate Ends(r: SyncResult, a: SyncArgs, sessionKey: string) {
    Audited(r.w, sessionKey) && r.record.taskId == a.facts.taskId && r.record.state == Linked
  }

  /** Saving a record: the intent is the newest record as long as the session is active. */
  lemma SaveOwn(p: Pass, a: SyncArgs, r: Record, sessionKey: string)
    requires Own(p, a, sessionKey) && r.taskId == p.record.taskId && r.state == Linked
    ensures var p1 := SaveRecord(p, r);
            && Own(p1, a, sessionKey) && p1.w.active == p.w.active && p1.w.seen == p.w.seen
            && (p1.w.active ==> Newest(p1.w, a.facts.taskId) == Some(r))
  {
    hide Audited, TaskMarker;
    assert Audited(SaveRecord(p, r).w, sessionKey) by { SaveAudited(p.w, r, sessionKey); }
    ReplayAppend(p.w.journal, r);
  }

  lemma SaveAudited(w: World, r: Record, sessionKey: string)
    requires Audited(w, sessionKey)
    ensures Audited(Journal(w, r), sessionKey)
  {
  }

  lemma SavedEnds(p: Pass, a: SyncArgs, l: Lifecycle, error: Option<SyncError>, sessionKey: string)
    requires Own(p, a, sessionKey)
    ensures Ends(Finish(Save(p, l), error), a, sessionKey)
  {
    hide Audited, TaskMarker;
    SaveOwn(p, a, p.record.(lifecycle := Some(l)), sessionKey);
  }

  lemma PlainEnds(p: Pass, a: SyncArgs, sessionKey: string)
    requires Own(p, a, sessionKey)
    ensures Ends(Stop(p), a, sessionKey) && Ends(Finish(p, None), a, sessionKey) && Own(p.(writes := p.writes + 1), a, sessionKey)
    ensures forall reason :: Ends(Fail(p, reason), a, sessionKey)
  {
    hide Audited, TaskMarker;
    forall reason ensures Ends(Fail(p, reason), a, sessionKey) {
      SavedEnds(p, a, Current(p.record).(error := Some(reason)), Some(reason), sessionKey);
    }
  }

  lemma ReadOwn(p: Pass, a: SyncArgs, issue: nat, sessionKey: string)
    requires Own(p, a, sessionKey)
    ensures var (w1, read) := ReadIssue(p.w, issue);
            && Own(p.(w := w1), a, sessionKey)
            && (read.Some? ==> read.value.id == issue && w1.seen == p.w.seen + [read.value])
  {
    hide Audited, TaskMarker, Evolve;
    AwaitAudited(p.w, sessionKey);
    SeenAudited(Await(p.w), ReadIssue(p.w, issue).0.seen, sessionKey);
  }

  lemma SeenAudited(w: World, seen: seq<IssueView>, sessionKey: string)
    requires Audited(w, sessionKey)
    ensures Audited(w.(seen := seen), sessionKey)
  {
  }

  lemma OwnedInStays(seen: seq<IssueView>, view: IssueView, issue: nat, marker: string)
    requires OwnedIn(seen, issue, marker)
    ensures OwnedIn(seen + [view], issue, marker)
  {
    var i :| 0 <= i < |seen| && seen[i].id == issue && HasLinkMarker(seen[i].description, marker);
    assert (seen + [view])[i] == seen[i];
  }

  /** Reading the pass's own issue again. */
  lemma ReadOn(p: Pass, a: SyncArgs, issue: nat, sessionKey: string)
    requires Own(p, a, sessionKey) && p.record.issueId == Some(issue) && OwnedIn(p.w.seen, issue, a.marker)
    ensures var (w1, read) := ReadIssue(p.w, issue);
            Own(p.(w := w1), a, sessionKey) && (read.Some? ==> On(p.(w := w1), a, read.value, sessionKey))
  {
    hide Own, OwnedIn, ReadIssue;
    ReadOwn(p, a, issue, sessionKey);
    var (w1, read) := ReadIssue(p.w, issue);
    if read.Some? {
      OwnedInStays(p.w.seen, read.value, issue, a.marker);
    }
  }

  lemma ResolveOn(p: Pass, a: SyncArgs, view: IssueView, project: string, sessionKey: string)
    requires On(p, a, view, sessionKey)
    ensures On(p.(w := Resolve(p.w, project).0), a, view, sessionKey)
  {
    hide Audited, TaskMarker, Evolve;
    AwaitAudited(p.w, sessionKey);
  }

  // ----- one lifecycle pass -----

  lemma DescribeAudited(p: Pass, a: SyncArgs, view: IssueView, sessionKey: string)
    requires On(p, a, view, sessionKey)
    ensures match Describe(p, a, view)
            case Halt(r) => Ends(r, a, sessionKey)
            case Go(d) => On(d.p, a, d.view, sessionKey)
  {
    hide Audited, AllJustified, TaskMarker, MergeManagedDescription, ManagedSection, Contains, OwnedIn, Fail, Stop, ReadIssue, Ends;
    var desired := MergeManagedDescription(view.description, ManagedSection(a.facts));
    PlainEnds(p, a, sessionKey);
    if desired != view.description && p.w.active {
      var (w1, answer) := WriteDescription(p.w, a.facts, view.id, desired);
      var p1 := p.(w := w1);
      DescriptionLeaves(p, a, view, desired, sessionKey);
      PlainEnds(p1, a, sessionKey);
      var p2 := p1.(writes := p1.writes + 1);
      PlainEnds(p2, a, sessionKey);
      ReadOn(p2, a, view.id, sessionKey);
      PlainEnds(p2.(w := ReadIssue(p2.w, view.id).0), a, sessionKey);
    }
  }

  lemma DescriptionLeaves(p: Pass, a: SyncArgs, view: IssueView, desired: string, sessionKey: string)
    requires On(p, a, view, sessionKey) && p.w.active && desired == MergeManagedDescription(view.description, ManagedSection(a.facts))
    ensures var w1 := WriteDescription(p.w, a.facts, view.id, desired).0;
            Own(p.(w := w1), a, sessionKey) && w1.seen == p.w.seen
  {
    hide Audited, TaskMarker, MergeManagedDescription, ManagedSection, OwnedIn, Total, Send;
    var write := LateEdit(view.id, Some(desired), None);
    SendAudited(p.w, a.facts, OtherKey, SetDescription(view.id, desired), write, sessionKey);
    SendChanges(p.w, a.facts, OtherKey, SetDescription(view.id, desired), write);
  }

  /** What a state write needs to be justified. */
  predicate StateWanted(a: SyncArgs, view: IssueView, target: string) {
    if AcceptedCompletion(a.facts) then target == DONE_STATE && Visible(view.comments, CommentMarker(a))
    else target == StateFor(a.facts) && a.facts.status != "completed"
  }

  lemma ApplyStateAudited(p: Pass, a: SyncArgs, view: IssueView, target: string, sessionKey: string)
    requires On(p, a, view, sessionKey) && StateWanted(a, view, target)
    ensures match ApplyState(p, a, view, target)
            case Halt(r) => Ends(r, a, sessionKey)
            case Go(d) => On(d.p, a, d.view, sessionKey)
  {
    hide Audited, TaskMarker, OwnedIn, Fail, Stop, Resolve, Ends, StateWanted, MoveState;
    PlainEnds(p, a, sessionKey);
    if !SameState(view.state, target) && Truthy(ProjectOf(p, a)) && p.w.active {
      var (w1, resolution) := Resolve(p.w, ProjectOf(p, a).value);
      var p1 := p.(w := w1);
      ResolveOn(p, a, view, ProjectOf(p, a).value, sessionKey);
      PlainEnds(p1, a, sessionKey);
      if resolution.ResolvedTo? && resolution.target.teamId == view.teamId && resolution.target.projectId == view.projectId && p1.w.active {
        MoveStateAudited(p1, a, view, resolution.target, target, sessionKey);
      }
    }
  }

  lemma MoveStateAudited(p: Pass, a: SyncArgs, view: IssueView, resolved: Resolved, target: string, sessionKey: string)
    requires On(p, a, view, sessionKey) && StateWanted(a, view, target) && p.w.active
    requires resolved.teamId == view.teamId && resolved.projectId == view.projectId
    ensures match MoveState(p, a, view, resolved, target)
            case Halt(r) => Ends(r, a, sessionKey)
            case Go(d) => On(d.p, a, d.view, sessionKey)
  {
    hide Audited, TaskMarker, OwnedIn, Fail, Stop, ReadIssue, Ends, StateWanted, WriteState;
    var (w1, answer) := WriteState(p.w, a.facts, view.id, resolved, target);
    var p1 := p.(w := w1);
    StateLeaves(p, a, view, resolved, target, sessionKey);
    PlainEnds(p1, a, sessionKey);
    var p2 := p1.(writes := p1.writes + 1);
    PlainEnds(p2, a, sessionKey);
    ReadOn(p2, a, view.id, sessionKey);
    PlainEnds(p2.(w := ReadIssue(p2.w, view.id).0), a, sessionKey);
  }

  lemma StateLeaves(p: Pass, a: SyncArgs, view: IssueView, resolved: Resolved, target: string, sessionKey: string)
    requires On(p, a, view, sessionKey) && StateWanted(a, view, target) && p.w.active
    requires resolved.teamId == view.teamId && resolved.projectId == view.projectId
    ensures var w1 := WriteState(p.w, a.facts, view.id, resolved, target).0;
            Own(p.(w := w1), a, sessionKey) && w1.seen == p.w.seen
  {
    hide Audited, TaskMarker, AnswerMarker, OwnedIn, Total, Send, Visible, AcceptedCompletion, EveryQuestionAnswered, RevisionOf;
    AcceptedMeans(a.facts);
    if Lower(target) in resolved.states {
      var write := LateEdit(view.id, None, Some(target));
      SendAudited(p.w, a.facts, OtherKey, SetState(view.id, resolved, target), write, sessionKey);
      SendChanges(p.w, a.facts, OtherKey, SetState(view.id, resolved, target), write);
    }
  }

  lemma LocateAudited(p: Pass, a: SyncArgs, issue: nat, sessionKey: string)
    requires Own(p, a, sessionKey) && p.record.issueId == Some(issue)
    ensures match Locate(p, a, issue)
            case Halt(r) => Ends(r, a, sessionKey)
            case Go(g) => On(g.p, a, g.view, sessionKey)
  {
    hide Audited, TaskMarker, Fail, Stop, ReadIssue, Ends, WorkBeneath, HasLinkMarker;
    var (w1, read) := ReadIssue(p.w, issue);
    var p1 := p.(w := w1);
    ReadOwn(p, a, issue, sessionKey);
    PlainEnds(p1, a, sessionKey);
    if read.Some? {
      assert w1.seen[|w1.seen| - 1] == read.value;
      if HasLinkMarker(read.value.description, a.marker) {
      } else if Current(p1.record).scope.Adopted? {
        WorkBeneathAudited(p1, a, Current(p1.record), read.value, sessionKey);
      }
    }
  }

  /** Where the pass stands on an adopted issue it may not write to. */
  ghost predicate Beneath(p: Pass, a: SyncArgs, l: Lifecycle, view: IssueView, sessionKey: string) {
    && Own(p, a, sessionKey) && p.record.issueId == Some(view.id) && l.scope == Adopted
    && LastSeen(p.w.seen, view) && !HasLinkMarker(view.description, a.marker)
  }

  lemma WorkBeneathAudited(p: Pass, a: SyncArgs, l: Lifecycle, view: IssueView, sessionKey: string)
    requires Beneath(p, a, l, view, sessionKey)
    ensures match WorkBeneath(p, a, l, view)
            case Halt(r) => Ends(r, a, sessionKey)
            case Go(g) => On(g.p, a, g.view, sessionKey)
  {
    hide Audited, TaskMarker, Fail, Stop, Ends, IntendSubissue, HasLinkMarker, Evolve;
    PlainEnds(p, a, sessionKey);
    if Truthy(ProjectOf(p, a)) {
      var (w1, resolution) := Resolve(p.w, ProjectOf(p, a).value);
      var p1 := p.(w := w1);
      AwaitAudited(p.w, sessionKey);
      PlainEnds(p1, a, sessionKey);
      if resolution.ResolvedTo? {
        IntendSubissueAudited(p1, a, l, view, resolution.target, sessionKey);
      }
    }
  }

  lemma IntendSubissueAudited(p: Pass, a: SyncArgs, l: Lifecycle, view: IssueView, target: Resolved, sessionKey: string)
    requires Beneath(p, a, l, view, sessionKey)
    ensures match IntendSubissue(p, a, l, view, target)
            case Halt(r) => Ends(r, a, sessionKey)
            case Go(g) => On(g.p, a, g.view, sessionKey)
  {
    hide Audited, TaskMarker, Fail, Stop, Ends, FileSubissue, HasLinkMarker;
    PlainEnds(p, a, sessionKey);
    var r := p.record.(lifecycle := Some(PendingSubissue(l, view)));
    SaveOwn(p, a, r, sessionKey);
    var p1 := Save(p, PendingSubissue(l, view));
    PlainEnds(p1, a, sessionKey);
    if target.teamId == view.teamId && p1.w.active {
      FileSubissueAudited(p1, a, l, view, target, sessionKey);
    }
  }

  lemma FileSubissueAudited(p: Pass, a: SyncArgs, l: Lifecycle, view: IssueView, target: Resolved, sessionKey: string)
    requires Beneath(p, a, l, view, sessionKey) && p.w.active && target.teamId == view.teamId
    requires Newest(p.w, a.facts.taskId) == Some(p.record) && Current(p.record) == PendingSubissue(l, view)
    ensures match FileSubissue(p, a, l, view, target)
            case Halt(r) => Ends(r, a, sessionKey)
            case Go(g) => On(g.p, a, g.view, sessionKey)
  {
    hide Audited, TaskMarker, Fail, Stop, Ends, HasLinkMarker, Create, TakeOver, SubissueDescription, StateFor;
    var (w1, answer, child) := Create(p.w, a.facts, SubKey(a.facts.taskId), target, a.facts.subject,
                                      SubissueDescription(a.facts, a.marker), StateFor(a.facts), Some(view.id));
    var p1 := p.(w := w1);
    SubissueLeaves(p, a, l, view, target, sessionKey);
    SavedEnds(p1, a, Current(p1.record).(subissue := Some(SubissueUnconfirmed), error := Some(SubissueAmbiguous)), Some(SubissueAmbiguous), sessionKey);
    PlainEnds(p1, a, sessionKey);
    var p2 := p1.(writes := p1.writes + 1);
    PlainEnds(p2, a, sessionKey);
    TakeOverAudited(p2, a, l, view, child, sessionKey);
  }

  lemma SubissueLeaves(p: Pass, a: SyncArgs, l: Lifecycle, view: IssueView, target: Resolved, sessionKey: string)
    requires Beneath(p, a, l, view, sessionKey) && p.w.active && target.teamId == view.teamId
    requires Newest(p.w, a.facts.taskId) == Some(p.record) && Current(p.record) == PendingSubissue(l, view)
    ensures var w1 := Create(p.w, a.facts, SubKey(a.facts.taskId), target, a.facts.subject,
                             SubissueDescription(a.facts, a.marker), StateFor(a.facts), Some(view.id)).0;
            Own(p.(w := w1), a, sessionKey)
  {
    hide Audited, TaskMarker, HasLinkMarker, SubissueDescription, ManagedSection, EndsWith, Send, Total;
    SubissueIsWritten(a.facts, sessionKey);
    var key, state := SubKey(a.facts.taskId), StateFor(a.facts);
    if Lower(state) in target.states {
      var request := CreateIssue(target, a.facts.subject, SubissueDescription(a.facts, a.marker), state, Some(view.id));
      var write := LateIssue(NewIssue(NextTick(p.w).name, target, SubissueDescription(a.facts, a.marker), state, Some(view.id), key));
      SendAudited(p.w, a.facts, key, request, write, sessionKey);
    }
  }

  lemma TakeOverAudited(p: Pass, a: SyncArgs, l: Lifecycle, view: IssueView, child: nat, sessionKey: string)
    requires Own(p, a, sessionKey)
    ensures match TakeOver(p, a, l, view, child)
            case Halt(r) => Ends(r, a, sessionKey)
            case Go(g) => On(g.p, a, g.view, sessionKey)
  {
    hide Audited, TaskMarker, HasLinkMarker, ReadIssue, Ends;
    var (w1, read) := ReadIssue(p.w, child);
    var p1 := p.(w := w1);
    ReadOwn(p, a, child, sessionKey);
    SavedEnds(p1, a, Current(p1.record).(subissue := Some(SubissueUnconfirmed), error := Some(SubissueUnverified)), Some(SubissueUnverified), sessionKey);
    if read.Some? {
      assert w1.seen[|w1.seen| - 1] == read.value;
      SaveOwn(p1, a, ChildRecord(p1.record, l, view, read.value), sessionKey);
    }
  }

  lemma ReconcileAudited(p: Pass, a: SyncArgs, l: Lifecycle, view: IssueView, sessionKey: string)
    requires On(p, a, view, sessionKey)
    ensures match ReconcileComment(p, l, view)
            case Halt(r) => Ends(r, a, sessionKey)
            case Go(g) => On(g.p, a, view, sessionKey)
  {
    hide Audited, TaskMarker, OwnedIn, Fail, Ends, Visible;
    PlainEnds(p, a, sessionKey);
    SaveOwn(p, a, p.record.(lifecycle := Some(l.(comment := Some(CommentPosted), error := None))), sessionKey);
  }

  lemma PostAudited(p: Pass, a: SyncArgs, l: Lifecycle, view: IssueView, sessionKey: string)
    requires On(p, a, view, sessionKey) && AcceptedCompletion(a.facts) && !Visible(view.comments, CommentMarker(a))
    ensures match PostCompletion(p, a, l, view)
            case Halt(r) => Ends(r, a, sessionKey)
            case Go(g) => On(g.p, a, g.view, sessionKey) && Visible(g.view.comments, CommentMarker(a))
  {
    hide Audited, TaskMarker, OwnedIn, Stop, Ends, Visible, CommentMarker, SendCompletion, AcceptedCompletion;
    var pending := l.(comment := Some(CommentPending), commentMarker := Some(CommentMarker(a)));
    SaveOwn(p, a, p.record.(lifecycle := Some(pending)), sessionKey);
    var p1 := Save(p, pending);
    PlainEnds(p1, a, sessionKey);
    if p1.w.active {
      SendCompletionAudited(p1, a, l, view, sessionKey);
    }
  }

  lemma SendCompletionAudited(p: Pass, a: SyncArgs, l: Lifecycle, view: IssueView, sessionKey: string)
    requires On(p, a, view, sessionKey) && AcceptedCompletion(a.facts) && !Visible(view.comments, CommentMarker(a)) && p.w.active
    requires Newest(p.w, a.facts.taskId) == Some(p.record)
    requires Current(p.record) == l.(comment := Some(CommentPending), commentMarker := Some(CommentMarker(a)))
    ensures match SendCompletion(p, a, l, view)
            case Halt(r) => Ends(r, a, sessionKey)
            case Go(g) => On(g.p, a, g.view, sessionKey) && Visible(g.view.comments, CommentMarker(a))
  {
    hide Audited, TaskMarker, OwnedIn, Stop, Ends, Visible, CommentMarker, Post, ProveCompletion, CompletionComment, AcceptedCompletion;
    var marker := CommentMarker(a);
    var (w1, answer) := Post(p.w, a.facts, view.id, marker, CompletionComment(a.facts, marker));
    var p1 := p.(w := w1);
    CommentLeaves(p, a, l, view, sessionKey);
    SavedEnds(p1, a, Current(p1.record).(comment := Some(CommentUnconfirmed), error := Some(CommentAmbiguous)), Some(CommentAmbiguous), sessionKey);
    SavedEnds(p1, a, Current(p1.record).(comment := Some(CommentFailed), error := Some(CommentRejected)), Some(CommentRejected), sessionKey);
    PlainEnds(p1, a, sessionKey);
    var p2 := p1.(writes := p1.writes + 1);
    PlainEnds(p2, a, sessionKey);
    ProveCompletionAudited(p2, a, l, view.id, marker, sessionKey);
  }

  lemma CommentLeaves(p: Pass, a: SyncArgs, l: Lifecycle, view: IssueView, sessionKey: string)
    requires On(p, a, view, sessionKey) && AcceptedCompletion(a.facts) && !Visible(view.comments, CommentMarker(a)) && p.w.active
    requires Newest(p.w, a.facts.taskId) == Some(p.record)
    requires Current(p.record) == l.(comment := Some(CommentPending), commentMarker := Some(CommentMarker(a)))
    ensures var w1 := Post(p.w, a.facts, view.id, CommentMarker(a), CompletionComment(a.facts, CommentMarker(a))).0;
            Own(p.(w := w1), a, sessionKey) && w1.seen == p.w.seen
  {
    hide Audited, TaskMarker, AnswerMarker, OwnedIn, Visible, CompletionComment, AcceptedCompletion, EveryQuestionAnswered, RevisionOf, Send, Total;
    AcceptedMeans(a.facts);
    var marker, body := CommentMarker(a), CompletionComment(a.facts, CommentMarker(a));
    var key := CommentKey(a.facts.taskId, view.id, marker);
    SendAudited(p.w, a.facts, key, PostComment(view.id, marker, body), LateComment(Comment(view.id, Sent(body), key)), sessionKey);
    SendChanges(p.w, a.facts, key, PostComment(view.id, marker, body), LateComment(Comment(view.id, Sent(body), key)));
  }

  lemma ProveCompletionAudited(p: Pass, a: SyncArgs, l: Lifecycle, issue: nat, marker: string, sessionKey: string)
    requires Own(p, a, sessionKey) && p.record.issueId == Some(issue) && OwnedIn(p.w.seen, issue, a.marker)
    ensures match ProveCompletion(p, l, issue, marker)
            case Halt(r) => Ends(r, a, sessionKey)
            case Go(g) => On(g.p, a, g.view, sessionKey) && Visible(g.view.comments, marker)
  {
    hide Audited, TaskMarker, OwnedIn, Ends, Visible, ReadIssue;
    var (w1, check) := ReadIssue(p.w, issue);
    var p1 := p.(w := w1);
    ReadOn(p, a, issue, sessionKey);
    SavedEnds(p1, a, Current(p1.record).(comment := Some(CommentUnconfirmed), error := Some(CommentUnverified)), Some(CommentUnverified), sessionKey);
    SaveOwn(p1, a, p1.record.(lifecycle := Some(l.(comment := Some(CommentPosted), commentMarker := Some(marker), error := None))), sessionKey);
  }

  lemma FollowAudited(p: Pass, a: SyncArgs, l: Lifecycle, view: IssueView, changed: bool, sessionKey: string)
    requires On(p, a, view, sessionKey) && !AcceptedCompletion(a.facts)
    ensures Ends(FollowTask(p, a, l, view, changed), a, sessionKey)
  {
    hide Audited, TaskMarker, OwnedIn, Ends, ApplyState, AcceptedCompletion, StateFor;
    if a.facts.status == "completed" {
      SavedEnds(p, a, l.(error := Some(CompletionUnaccepted)), Some(CompletionUnaccepted), sessionKey);
    } else {
      ApplyStateAudited(p, a, view, StateFor(a.facts), sessionKey);
      var flow := ApplyState(p, a, view, StateFor(a.facts));
      if flow.Go? {
        SavedEnds(flow.value.p, a, l.(closed := false, error := None), None, sessionKey);
        PlainEnds(flow.value.p, a, sessionKey);
      }
    }
  }

  lemma CloseAudited(p: Pass, a: SyncArgs, l: Lifecycle, view: IssueView, changed: bool, sessionKey: string)
    requires On(p, a, view, sessionKey) && AcceptedCompletion(a.facts) && Visible(view.comments, CommentMarker(a))
    ensures Ends(Close(p, a, l, view, changed), a, sessionKey)
  {
    hide Audited, TaskMarker, OwnedIn, Ends, ApplyState, AcceptedCompletion, CommentMarker, Visible;
    ApplyStateAudited(p, a, view, DONE_STATE, sessionKey);
    var flow := ApplyState(p, a, view, DONE_STATE);
    if flow.Go? {
      var closed := l.(comment := Some(CommentPosted), commentMarker := Some(CommentMarker(a)), closed := true, error := None);
      SavedEnds(flow.value.p, a, closed, None, sessionKey);
      PlainEnds(flow.value.p, a, sessionKey);
    }
  }

  lemma CompleteAudited(p: Pass, a: SyncArgs, l: Lifecycle, view: IssueView, changed: bool, sessionKey: string)
    requires On(p, a, view, sessionKey)
    ensures Ends(Complete(p, a, l, view, changed), a, sessionKey)
  {
    hide On, Ends, ReconcileComment, FollowTask, Close, PostCompletion, Visible, CommentMarker, AcceptedCompletion;
    ReconcileAudited(p, a, l, view, sessionKey);
    var flow := ReconcileComment(p, l, view);
    if flow.Go? {
      var p1, l1 := flow.value.p, flow.value.lifecycle;
      if !AcceptedCompletion(a.facts) {
        FollowAudited(p1, a, l1, view, changed, sessionKey);
      } else if Visible(view.comments, CommentMarker(a)) {
        CloseAudited(p1, a, l1, view, changed, sessionKey);
      } else {
        PostAudited(p1, a, l1, view, sessionKey);
        var posted := PostCompletion(p1, a, l1, view);
        if posted.Go? {
          CloseAudited(posted.value.p, a, posted.value.lifecycle, posted.value.view, changed, sessionKey);
        }
      }
    }
  }

  /** One pass, over any linked record of its task. */
  lemma SyncAudited(w: World, a: SyncArgs, sessionKey: string)
    requires OwnTask(Pass(w, a.record, false, 0), a, sessionKey)
    ensures Ends(Sync(w, a), a, sessionKey)
  {
    hide Audited, On, Locate, Describe, Complete, TaskMarker;
    var p := Pass(w.(seen := []), a.record, false, 0);
    SeenAudited(w, [], sessionKey);
    if a.record.issueId.Some? && a.facts.status != "deleted" && w.active {
      hide Ends;
      LocateAudited(p, a, a.record.issueId.value, sessionKey);
      var located := Locate(p, a, a.record.issueId.value);
      if located.Go? {
        var g := located.value;
        DescribeAudited(g.p, a, g.view, sessionKey);
        var described := Describe(g.p, a, g.view);
        if described.Go? {
          CompleteAudited(described.value.p, a, g.lifecycle, described.value.view, described.value.changed, sessionKey);
        }
      }
    }
  }
}

/** What a pass achieves when nothing goes wrong (the script is empty): the issue tells the truth about the task, and a
    second pass with the same facts has nothing to do. */
module HojaConvergence {
  import opened Wrappers
  import opened JsText
  import opened ManagedBlock
  import opened Markers
  import opened AnswerRevision
  import opened HojaRecords
  import opened HojaServer
  import opened HojaWorld
  import opened LifecycleSync
  import opened Publish

  // ----- descriptions that stay owned -----

  /** The link marker is one of the human lines, outside the managed block: no merge can remove it. */
  predicate OwnedOutside(description: string, marker: string) {
    && WellFormed(description, MANAGED) && OnOwnLines(description, MANAGED)
    && (HasLinkMarker(Before(description, MANAGED), marker) || HasLinkMarker(After(description, MANAGED), marker))
  }

  lemma BlockInTheMiddle(text: string, f: Fence)
    requires HasBlock(text, f)
    ensures var (p, x) := Outside(text, f);
            |p| + |x| <= |text| && text == p + text[|p|..|text| - |x|] + x
  {
  }

  lemma OwnedOutsideIsOwned(description: string, marker: string)
    requires OwnedOutside(description, marker)
    ensures HasLinkMarker(description, marker)
  {
    var wanted := LinkLine(marker);
    BeforeIsTerminated(description, wanted, MANAGED);
    EmptyHasNoLine(wanted);
    if HasBlock(description, MANAGED) {
      BlockInTheMiddle(description, MANAGED);
      var (p, x) := Outside(description, MANAGED);
      var mid := description[|p|..|description| - |x|];
      HasLineBeforeNewline(p + mid, x, wanted);
      HasLineAfterNewline(p, mid, wanted);
    }
  }

  /** Ownership survives every managed write. */
  lemma MergeStaysOwned(description: string, section: string, marker: string)
    requires OwnedOutside(description, marker) && Proper(section, MANAGED)
    ensures OwnedOutside(MergeManagedDescription(description, section), marker)
    ensures Contains(MergeManagedDescription(description, section), section)
    ensures MergeManagedDescription(MergeManagedDescription(description, section), section) == MergeManagedDescription(description, section)
  {
    ManagedIsFencing();
    MergeKeepsMarkerLines(description, section, LinkLine(marker), MANAGED);
    MergeReplacesOnlyTheBlock(description, section, MANAGED);
    LastMergeWins(description, section, section, MANAGED);
    ContainsMiddle(Before(description, MANAGED), section, After(description, MANAGED));
  }

  lemma ContainsMiddle(p: string, s: string, x: string)
    ensures Contains(p + s + x, s)
  {
    AtConcat(p + s, x, s, |p|);
    AtConcat(p, s, s, |p|);
    IndexIsFirst(p + s + x, s);
    assert At(s, s, 0);
    assert At(p + s + x, s, |p|);
  }

  /** An issue this session files starts out that way, when neither fence occurs in what the user wrote. */
  lemma FiledIssueIsOwned(c: Candidate, ctx: Context)
    requires Proper(ManagedSection(c.facts), MANAGED)
    requires var head := DescriptionHead(c.description, c.facts.taskId, ctx.sessionKey);
             !Contains(head, MANAGED.start) && !Contains(head, MANAGED.end)
    ensures OwnedOutside(RootDescription(c, ctx), TaskMarker(ctx.sessionKey, c.facts.taskId))
  {
    hide ManagedSection, Proper, WellFormed, OnOwnLines, Before, After;
    ManagedIsFencing();
    CreationIsAMerge(c.description, c.facts.taskId, ctx.sessionKey, ManagedSection(c.facts), MANAGED);
  }

  // ----- a quiet world -----

  predicate Quiet(w: World) {
    w.script == [] && w.active
  }

  /** One issue changed in its description and state only. */
  predicate Tuned(s: Server, t: Server, i: nat, description: string, state: string) {
    && i < |s.issues| && t.projects == s.projects && t.late == s.late
    && t.issues == s.issues[i := s.issues[i].(description := description, state := state)]
  }

  lemma QuietAwait(w: World)
    requires Quiet(w)
    ensures Await(w) == w
  {
  }

  // ----- 1. the description -----

  /** A quiet description step: the description is what was desired, and one write was made if it was not so before. */
  predicate Redescribed(p: Pass, a: SyncArgs, i: nat, d: Described)
    requires i < |p.w.server.issues|
  {
    var s := p.w.server;
    var desired := MergeManagedDescription(s.issues[i].description, ManagedSection(a.facts));
    && Quiet(d.p.w) && i < |d.p.w.server.issues| && d.view == ViewOf(d.p.w.server, i) && d.changed == (desired != s.issues[i].description)
    && Tuned(s, d.p.w.server, i, desired, s.issues[i].state) && d.p.w.server.comments == s.comments
    && d.p.record == p.record && d.p.saved == p.saved && d.p.writes == p.writes + (if d.changed then 1 else 0)
    && (!d.changed ==> d.p == p)
  }

  lemma QuietDescribe(p: Pass, a: SyncArgs, i: nat)
    requires Quiet(p.w) && i < |p.w.server.issues|
    requires OwnedOutside(p.w.server.issues[i].description, a.marker) && Proper(ManagedSection(a.facts), MANAGED)
    ensures Describe(p, a, ViewOf(p.w.server, i)).Go? && Redescribed(p, a, i, Describe(p, a, ViewOf(p.w.server, i)).value)
  {
    var s, section := p.w.server, ManagedSection(a.facts);
    var desired := MergeManagedDescription(s.issues[i].description, section);
    MergeStaysOwned(s.issues[i].description, section, a.marker);
    hide Describe, MergeManagedDescription, ManagedSection, OwnedOutside, Contains, Proper, ProveDescription, CommentsOn, WriteDescription;
    DescribeUnfolds(p, a, ViewOf(s, i));
    if desired == s.issues[i].description {
      Undescribed(p, a, i);
    } else {
      hide Redescribed;
      QuietRedescription(p, a, i, desired);
      NewlyDescribed(p, a, i, desired);
    }
  }

  /** The written and proven description, as the step reports it. */
  lemma NewlyDescribed(p: Pass, a: SyncArgs, i: nat, desired: string)
    requires Quiet(p.w) && i < |p.w.server.issues| && desired == MergeManagedDescription(p.w.server.issues[i].description, ManagedSection(a.facts))
    requires desired != p.w.server.issues[i].description
    requires var w1 := WriteDescription(p.w, a.facts, i, desired).0;
             Quiet(w1) && Tuned(p.w.server, w1.server, i, desired, p.w.server.issues[i].state) && w1.server.comments == p.w.server.comments
    ensures var w1 := WriteDescription(p.w, a.facts, i, desired).0;
            var p2 := p.(w := w1, writes := p.writes + 1);
            Redescribed(p, a, i, Described(p2.(w := w1.(seen := w1.seen + [ViewOf(w1.server, i)])), ViewOf(w1.server, i), true))
  {
    hide WriteDescription, ViewOf, MergeManagedDescription, ManagedSection, CommentsOn;
  }

  lemma Undescribed(p: Pass, a: SyncArgs, i: nat)
    requires Quiet(p.w) && i < |p.w.server.issues|
    requires MergeManagedDescription(p.w.server.issues[i].description, ManagedSection(a.facts)) == p.w.server.issues[i].description
    ensures Redescribed(p, a, i, Described(p, ViewOf(p.w.server, i), false))
  {
    hide MergeManagedDescription, ManagedSection;
    var s := p.w.server;
    assert s.issues == s.issues[i := s.issues[i].(description := s.issues[i].description, state := s.issues[i].state)];
  }

  /** The two quiet paths of the description step. */
  lemma DescribeUnfolds(p: Pass, a: SyncArgs, view: IssueView)
    ensures var desired := MergeManagedDescription(view.description, ManagedSection(a.facts));
            var (w1, answer) := WriteDescription(p.w, a.facts, view.id, desired);
            && (desired == view.description ==> Describe(p, a, view) == Go(Described(p, view, false)))
            && (desired != view.description && p.w.active && answer.Accepted? && w1.active ==>
                  Describe(p, a, view) == ProveDescription(p.(w := w1, writes := p.writes + 1), a, view.id, desired))
  {
    hide MergeManagedDescription, ManagedSection, ProveDescription, WriteDescription;
  }

  /** Writing a description that contains the section, and proving it. */
  lemma QuietRedescription(p: Pass, a: SyncArgs, i: nat, desired: string)
    requires Quiet(p.w) && i < |p.w.server.issues| && Contains(desired, ManagedSection(a.facts))
    ensures var (w1, answer) := WriteDescription(p.w, a.facts, i, desired);
            var p2 := p.(w := w1, writes := p.writes + 1);
            && answer.Accepted? && Quiet(w1) && Tuned(p.w.server, w1.server, i, desired, p.w.server.issues[i].state)
            && w1.server.comments == p.w.server.comments
            && ProveDescription(p2, a, i, desired) == Go(Described(p2.(w := w1.(seen := w1.seen + [ViewOf(w1.server, i)])), ViewOf(w1.server, i), true))
  {
    hide Contains, ManagedSection, CommentsOn;
    QuietWrite(p.w, a.facts, OtherKey, SetDescription(i, desired), LateEdit(i, Some(desired), None));
    QuietAwait(WriteDescription(p.w, a.facts, i, desired).0);
  }

  lemma QuietWrite(w: World, facts: TaskFacts, key: Key, request: Request, write: Late)
    requires Quiet(w)
    ensures Send(w, facts, key, request, write) == (Ask(w, facts, key, request).(server := Commit(w.server, write)), Accepted)
    ensures Quiet(Send(w, facts, key, request, write).0)
  {
    QuietAwait(Ask(w, facts, key, request));
  }

  // ----- 2. the state -----

  predicate Resolvable(s: Server, i: nat, project: Option<string>, state: string)
    requires i < |s.issues|
  {
    && Truthy(project) && Lower(Trim(project.value)) in s.projects
    && var target := s.projects[Lower(Trim(project.value))];
       target.teamId == s.issues[i].teamId && target.projectId == s.issues[i].projectId && Lower(state) in target.states
  }

  lemma StatesAreTrimmed()
    ensures SameState("Done", "Done") && SameState("Todo", "Todo") && SameState("In Progress", "In Progress")
  {
    TrimmedStays("Done");
    TrimmedStays("Todo");
    TrimmedStays("In Progress");
  }

  lemma TrimmedStays(s: string)
    requires s != "" && !IsSpace(s[0]) && !IsSpace(s[|s| - 1])
    ensures Trim(s) == s
  {
  }

  lemma QuietState(p: Pass, a: SyncArgs, i: nat, target: string)
    requires Quiet(p.w) && i < |p.w.server.issues| && SameState(target, target)
    requires !SameState(p.w.server.issues[i].state, target) ==> Resolvable(p.w.server, i, ProjectOf(p, a), target)
    ensures var s := p.w.server;
            var flow := ApplyState(p, a, ViewOf(s, i), target);
            && flow.Go?
            && var d := flow.value;
               && Quiet(d.p.w) && d.view == ViewOf(d.p.w.server, i) && d.changed == !SameState(s.issues[i].state, target)
               && Tuned(s, d.p.w.server, i, s.issues[i].description, if d.changed then target else s.issues[i].state)
               && d.p.w.server.comments == s.comments && SameState(d.p.w.server.issues[i].state, target)
               && d.p.record == p.record && d.p.saved == p.saved && d.p.writes == p.writes + (if d.changed then 1 else 0)
               && (!d.changed ==> d.p == p)
  {
    var s := p.w.server;
    hide SameState;
    if SameState(s.issues[i].state, target) {
      assert s.issues == s.issues[i := s.issues[i].(description := s.issues[i].description, state := s.issues[i].state)];
    } else {
      QuietAwait(p.w);
      var resolved := s.projects[Lower(Trim(ProjectOf(p, a).value))];
      QuietWrite(p.w, a.facts, OtherKey, SetState(i, resolved, target), LateEdit(i, None, Some(target)));
    }
  }

  // ----- 3. completion -----

  lemma QuietReconcile(p: Pass, l: Lifecycle, view: IssueView)
    requires Quiet(p.w)
    requires Unresolved(l) ==> Truthy(l.commentMarker) && Visible(view.comments, l.commentMarker.value)
    ensures var flow := ReconcileComment(p, l, view);
            && flow.Go?
            && var (p1, l1) := (flow.value.p, flow.value.lifecycle);
               && Quiet(p1.w) && p1.w.server == p.w.server && p1.writes == p.writes
               && p1.record == p.record.(lifecycle := p1.record.lifecycle) && !Unresolved(l1) && l1.closed == l.closed && l1.scope == l.scope && l1.subissue == l.subissue
               && (if Unresolved(l) then p1.saved else p1 == p && l1 == l)
  {
  }

  /** The comment leaves with its marker line intact: the client's length limit does not cut it off. */
  predicate Fits(a: SyncArgs) {
    HasAnswerMarker(Sent(CompletionComment(a.facts, CommentMarker(a))), CommentMarker(a))
  }

  /** It does whenever the comment is within the limit down to its marker line, which comes third. */
  lemma CommentFits(a: SyncArgs)
    requires |CommentHead(a.facts, CommentMarker(a))| <= COMMENT_LIMIT
    ensures Fits(a)
  {
    var revision, comment := RevisionOf(a.facts), CompletionComment(a.facts, CommentMarker(a));
    RevisionIsSafe(a.facts);
    hide CompletionComment, HasAnswerMarker, RevisionOf, CommentHead, AnswerMarker;
    if |comment| <= COMMENT_LIMIT {
      OwnCommentIsRecognized(a.facts, a.sessionKey, a.facts.taskId, revision);
    } else {
      CutCommentIsRecognized(a.facts, a.sessionKey, a.facts.taskId, revision, COMMENT_LIMIT);
    }
  }

  lemma RevisionIsSafe(facts: TaskFacts)
    ensures RevisionOf(facts) != "" && forall c | c in RevisionOf(facts) :: SafeChar(c)
  {
    hide Canonical, FnvFrom;
    HexIsSafe(FnvFrom(FNV_OFFSET, Canonical(facts)));
  }

  lemma {:induction false} HexIsSafe(h: nat)
    ensures ToHex(h) != "" && forall c | c in ToHex(h) :: SafeChar(c)
  {
    if h >= 16 {
      HexIsSafe(h / 16);
    }
  }

  lemma VisibleLast(comments: seq<Comment>, c: Comment, marker: string)
    requires HasAnswerMarker(c.body, marker)
    ensures Visible(CommentsOn(comments + [c], c.issue), marker)
  {
    assert (comments + [c])[..|comments|] == comments;
    assert CommentsOn(comments + [c], c.issue) == CommentsOn(comments, c.issue) + [c.body];
    assert c.body in CommentsOn(comments + [c], c.issue);
  }

  lemma QuietPost(p: Pass, a: SyncArgs, l: Lifecycle, i: nat)
    requires Quiet(p.w) && i < |p.w.server.issues| && Fits(a)
    ensures var s, marker := p.w.server, CommentMarker(a);
            var flow := PostCompletion(p, a, l, ViewOf(s, i));
            && flow.Go?
            && var g := flow.value;
               && Quiet(g.p.w) && g.view == ViewOf(g.p.w.server, i) && Visible(g.view.comments, marker)
               && g.p.w.server.issues == s.issues && g.p.w.server.projects == s.projects && g.p.w.server.late == s.late
               && (exists body :: g.p.w.server.comments == s.comments + [Comment(i, body, CommentKey(a.facts.taskId, i, marker))])
               && g.p.record == p.record.(lifecycle := g.p.record.lifecycle) && g.p.saved && g.p.writes == p.writes + 1
               && g.lifecycle == l.(comment := Some(CommentPosted), commentMarker := Some(marker))
  {
    hide HasAnswerMarker, CompletionComment, CommentMarker, Sent, Visible, CommentsOn;
    var s, marker := p.w.server, CommentMarker(a);
    var p1 := Save(p, l.(comment := Some(CommentPending), commentMarker := Some(marker)));
    var body := CompletionComment(a.facts, marker);
    var c := Comment(i, Sent(body), CommentKey(a.facts.taskId, i, marker));
    VisibleLast(s.comments, c, marker);
    QuietWrite(p1.w, a.facts, c.key, PostComment(i, marker, body), LateComment(c));
  }

  function WantedState(facts: TaskFacts): string {
    if AcceptedCompletion(facts) then DONE_STATE else StateFor(facts)
  }

  /** The record agrees with the task: closed behind this revision's posted comment, or open and owing nothing. */
  predicate RecordTruthful(r: Record, a: SyncArgs) {
    var l := Current(r);
    if AcceptedCompletion(a.facts) then l.closed && l.comment == Some(CommentPosted) && l.commentMarker == Some(CommentMarker(a))
    else !l.closed && !Unresolved(l)
  }

  /** The issue agrees with the task. */
  predicate IssueTruthful(s: Server, i: nat, a: SyncArgs)
    requires i < |s.issues|
  {
    && MergeManagedDescription(s.issues[i].description, ManagedSection(a.facts)) == s.issues[i].description
    && Contains(s.issues[i].description, ManagedSection(a.facts))
    && SameState(s.issues[i].state, WantedState(a.facts))
    && (AcceptedCompletion(a.facts) ==> Visible(CommentsOn(s.comments, i), CommentMarker(a)))
  }

  /** What a pass needs from a world in which nothing fails. */
  predicate Ready(s: Server, i: nat, a: SyncArgs) {
    && a.record.issueId == Some(i) && i < |s.issues|
    && a.facts.status != "deleted" && (a.facts.status == "completed" ==> AcceptedCompletion(a.facts))
    && OwnedOutside(s.issues[i].description, a.marker) && Proper(ManagedSection(a.facts), MANAGED)
    && (var l := Current(a.record);
        Unresolved(l) ==> Truthy(l.commentMarker) && Visible(CommentsOn(s.comments, i), l.commentMarker.value))
    && (!SameState(s.issues[i].state, WantedState(a.facts)) ==>
          Resolvable(s, i, if a.record.project.Some? then a.record.project else a.project, WantedState(a.facts)))
    && (AcceptedCompletion(a.facts) ==> Fits(a))
  }

  lemma WantedIsTrimmed(facts: TaskFacts)
    ensures SameState(WantedState(facts), WantedState(facts))
  {
    StatesAreTrimmed();
  }

  predicate SameScope(r: Record, before: Record) {
    Current(r).scope == Current(before).scope && Current(r).subissue == Current(before).subissue
  }

  /** How a quiet ending leaves things. */
  predicate EndsTruthful(r: SyncResult, s: Server, i: nat, a: SyncArgs, before: Record) {
    && !r.stopped && r.error.None? && Quiet(r.w) && i < |s.issues| && |r.w.server.issues| == |s.issues|
    && r.w.server.projects == s.projects
    && r.record == before.(lifecycle := r.record.lifecycle) && SameScope(r.record, before) && RecordTruthful(r.record, a)
    && (forall j | 0 <= j < |s.issues| && j != i :: r.w.server.issues[j] == s.issues[j])
    && r.w.server.issues[i] == s.issues[i].(state := r.w.server.issues[i].state)
    && SameState(r.w.server.issues[i].state, WantedState(a.facts))
    && s.comments <= r.w.server.comments
    && (AcceptedCompletion(a.facts) ==> Visible(CommentsOn(r.w.server.comments, i), CommentMarker(a)))
  }

  /** A record that was not saved is the one the pass began with. */
  predicate SavesWhatItChanges(r: SyncResult, p: Pass) {
    r.saved || (!p.saved && r.record == p.record)
  }

  lemma QuietFollow(p: Pass, a: SyncArgs, l: Lifecycle, i: nat, changed: bool)
    requires Quiet(p.w) && i < |p.w.server.issues| && !AcceptedCompletion(a.facts) && a.facts.status != "completed"
    requires !Unresolved(l) && Current(p.record).(error := None) == l.(error := None)
    requires !SameState(p.w.server.issues[i].state, StateFor(a.facts)) ==> Resolvable(p.w.server, i, ProjectOf(p, a), StateFor(a.facts))
    ensures EndsTruthful(FollowTask(p, a, l, ViewOf(p.w.server, i), changed), p.w.server, i, a, p.record)
    ensures SavesWhatItChanges(FollowTask(p, a, l, ViewOf(p.w.server, i), changed), p)
    ensures FollowTask(p, a, l, ViewOf(p.w.server, i), changed).w.server.comments == p.w.server.comments
    ensures !changed && !l.closed && SameState(p.w.server.issues[i].state, StateFor(a.facts)) ==>
              FollowTask(p, a, l, ViewOf(p.w.server, i), changed) == Finish(p, None)
  {
    WantedIsTrimmed(a.facts);
    QuietState(p, a, i, StateFor(a.facts));
    hide SameState, StateFor, CommentMarker, AcceptedCompletion;
  }

  lemma QuietClose(p: Pass, a: SyncArgs, l: Lifecycle, i: nat, changed: bool)
    requires Quiet(p.w) && i < |p.w.server.issues| && AcceptedCompletion(a.facts)
    requires Visible(CommentsOn(p.w.server.comments, i), CommentMarker(a))
    requires Current(p.record).(error := None) == l.(error := None)
    requires !SameState(p.w.server.issues[i].state, DONE_STATE) ==> Resolvable(p.w.server, i, ProjectOf(p, a), DONE_STATE)
    ensures EndsTruthful(Close(p, a, l, ViewOf(p.w.server, i), changed), p.w.server, i, a, p.record)
    ensures SavesWhatItChanges(Close(p, a, l, ViewOf(p.w.server, i), changed), p)
    ensures Close(p, a, l, ViewOf(p.w.server, i), changed).w.server.comments == p.w.server.comments
    ensures !changed && RecordTruthful(p.record, a) && SameState(p.w.server.issues[i].state, DONE_STATE) ==>
              Close(p, a, l, ViewOf(p.w.server, i), changed) == Finish(p, None)
  {
    WantedIsTrimmed(a.facts);
    hide SameState, CommentMarker, AcceptedCompletion, Visible, CommentsOn, ApplyState, Resolvable, StateFor;
    QuietState(p, a, i, DONE_STATE);
  }

  /** The one comment a pass may add: this revision's, on this issue, when it was accepted and not there yet. Every
      earlier comment stays as it was. */
  predicate AddsAtMostItsComment(before: seq<Comment>, after: seq<Comment>, i: nat, a: SyncArgs) {
    if AcceptedCompletion(a.facts) && !Visible(CommentsOn(before, i), CommentMarker(a))
    then |after| == |before| + 1 && after[..|before|] == before
         && after[|before|].issue == i && after[|before|].key == CommentKey(a.facts.taskId, i, CommentMarker(a))
    else after == before
  }

  lemma QuietComplete(p: Pass, a: SyncArgs, l: Lifecycle, i: nat, changed: bool)
    requires Quiet(p.w) && i < |p.w.server.issues| && l == Current(p.record)
    requires a.facts.status == "completed" ==> AcceptedCompletion(a.facts)
    requires Unresolved(l) ==> Truthy(l.commentMarker) && Visible(CommentsOn(p.w.server.comments, i), l.commentMarker.value)
    requires !SameState(p.w.server.issues[i].state, WantedState(a.facts)) ==> Resolvable(p.w.server, i, ProjectOf(p, a), WantedState(a.facts))
    requires AcceptedCompletion(a.facts) ==> Fits(a)
    ensures EndsTruthful(Complete(p, a, l, ViewOf(p.w.server, i), changed), p.w.server, i, a, p.record)
    ensures SavesWhatItChanges(Complete(p, a, l, ViewOf(p.w.server, i), changed), p)
    ensures AddsAtMostItsComment(p.w.server.comments, Complete(p, a, l, ViewOf(p.w.server, i), changed).w.server.comments, i, a)
    ensures !changed && RecordTruthful(p.record, a) && SameState(p.w.server.issues[i].state, WantedState(a.facts))
            && (AcceptedCompletion(a.facts) ==> Visible(CommentsOn(p.w.server.comments, i), CommentMarker(a))) ==>
              Complete(p, a, l, ViewOf(p.w.server, i), changed) == Finish(p, None)
  {
    hide Visible, CommentsOn, CommentMarker, SameState, Close, FollowTask, PostCompletion, ApplyState, StateFor, AcceptedCompletion, Fits;
    var view := ViewOf(p.w.server, i);
    QuietReconcile(p, l, view);
    var p1, l1 := ReconcileComment(p, l, view).value.p, ReconcileComment(p, l, view).value.lifecycle;
    assert Current(p1.record).(error := None) == l1.(error := None);
    if !AcceptedCompletion(a.facts) {
      QuietFollow(p1, a, l1, i, changed);
    } else if Visible(view.comments, CommentMarker(a)) {
      QuietClose(p1, a, l1, i, changed);
    } else {
      QuietPost(p1, a, l1, i);
      var g := PostCompletion(p1, a, l1, view).value;
      PostTracks(p1, a, l1, view);
      QuietClose(g.p, a, g.lifecycle, i, changed);
    }
  }

  lemma PostTracks(p: Pass, a: SyncArgs, l: Lifecycle, view: IssueView)
    ensures match PostCompletion(p, a, l, view)
            case Halt(_) => true
            case Go(g) => Current(g.p.record).(error := None) == g.lifecycle.(error := None)
  {
  }

  // ----- the pass -----

  function Started(w: World, a: SyncArgs, i: nat): Pass
    requires i < |w.server.issues|
  {
    Pass(w.(seen := [ViewOf(w.server, i)]), a.record, false, 0)
  }

  /** Without failures the pass is: describe the issue just read, then complete. */
  lemma QuietSyncIs(w: World, a: SyncArgs, i: nat)
    requires Quiet(w) && a.record.issueId == Some(i) && i < |w.server.issues| && a.facts.status != "deleted"
    requires OwnedOutside(w.server.issues[i].description, a.marker) && Proper(ManagedSection(a.facts), MANAGED)
    ensures var flow := Describe(Started(w, a, i), a, ViewOf(w.server, i));
            && flow.Go?
            && Sync(w, a) == Complete(flow.value.p, a, Current(a.record), flow.value.view, flow.value.changed)
  {
    OwnedOutsideIsOwned(w.server.issues[i].description, a.marker);
    QuietDescribe(Started(w, a, i), a, i);
    QuietLocates(w, a, i);
    hide Complete, Describe, Locate, OwnedOutside, Proper, ManagedSection, HasLinkMarker;
  }

  /** What a quiet pass leaves: the managed section is in the description and nothing else of it changed, the state
      follows the task, an accepted completion has its comment and is Done and the record says so. At most that comment
      was added, the earlier ones stay, and no other issue was touched. */
  predicate Converged(w: World, a: SyncArgs, i: nat, r: SyncResult)
    requires i < |w.server.issues|
  {
    && !r.stopped && r.error.None? && Quiet(r.w) && (r.saved || r.record == a.record)
    && r.w.server.projects == w.server.projects && |r.w.server.issues| == |w.server.issues|
    && IssueTruthful(r.w.server, i, a) && RecordTruthful(r.record, a)
    && r.record == a.record.(lifecycle := r.record.lifecycle) && SameScope(r.record, a.record)
    && r.w.server.issues[i] == w.server.issues[i].(state := r.w.server.issues[i].state,
         description := MergeManagedDescription(w.server.issues[i].description, ManagedSection(a.facts)))
    && (forall j | 0 <= j < |w.server.issues| && j != i :: r.w.server.issues[j] == w.server.issues[j])
    && AddsAtMostItsComment(w.server.comments, r.w.server.comments, i, a)
  }

  /** A quiet pass over an owned, well-formed issue makes it truthful, and leaves it ready for the next one. */
  lemma QuietPassConverges(w: World, a: SyncArgs, i: nat)
    requires Quiet(w) && Ready(w.server, i, a)
    ensures Converged(w, a, i, Sync(w, a)) && Ready(Sync(w, a).w.server, i, a.(record := Sync(w, a).record))
  {
    var s := w.server;
    hide Complete, Describe, Sync, MergeManagedDescription, ManagedSection, OwnedOutside, Proper, Contains, SameState;
    hide Visible, CommentMarker, Fits, AcceptedCompletion, StateFor, Unresolved, ViewOf, HasLinkMarker, CommentsOn;
    QuietSyncIs(w, a, i);
    QuietDescribe(Started(w, a, i), a, i);
    var d := Describe(Started(w, a, i), a, ViewOf(s, i)).value;
    QuietComplete(d.p, a, Current(a.record), i, d.changed);
    ConvergesFrom(w, a, i, d, Sync(w, a));
  }

  /** The two halves of a pass together. */
  lemma ConvergesFrom(w: World, a: SyncArgs, i: nat, d: Described, r: SyncResult)
    requires Quiet(w) && Ready(w.server, i, a) && Redescribed(Started(w, a, i), a, i, d)
    requires EndsTruthful(r, d.p.w.server, i, a, d.p.record) && SavesWhatItChanges(r, d.p)
    requires AddsAtMostItsComment(d.p.w.server.comments, r.w.server.comments, i, a)
    ensures Converged(w, a, i, r) && Ready(r.w.server, i, a.(record := r.record))
  {
    hide MergeManagedDescription, ManagedSection, OwnedOutside, Proper, Contains, SameState;
    hide Visible, AcceptedCompletion, StateFor, ViewOf, CommentsOn, Unresolved, AnswerMarker, RevisionOf, CompletionComment, HasAnswerMarker;
    MergeStaysOwned(w.server.issues[i].description, ManagedSection(a.facts), a.marker);
    RecordIsSettled(r.record, a);
  }

  lemma RecordIsSettled(r: Record, a: SyncArgs)
    requires RecordTruthful(r, a)
    ensures !Unresolved(Current(r))
  {
  }

  /** A pass over an issue and a record that already tell the truth requests nothing and changes nothing. */
  lemma QuietPassIsIdle(w: World, a: SyncArgs, i: nat)
    requires Quiet(w) && Ready(w.server, i, a) && IssueTruthful(w.server, i, a) && RecordTruthful(a.record, a)
    ensures var r := Sync(w, a);
            && r.writes == 0 && r.record == a.record && !r.saved && !r.stopped && r.error.None?
            && r.w == w.(seen := r.w.seen)
  {
    QuietSyncIs(w, a, i);
    QuietDescribe(Started(w, a, i), a, i);
    var d := Describe(Started(w, a, i), a, ViewOf(w.server, i)).value;
    hide Complete, Describe, Sync, MergeManagedDescription, ManagedSection, OwnedOutside, Proper, Contains, SameState;
    hide Visible, CommentMarker, Fits, AcceptedCompletion, StateFor, Unresolved, ViewOf, HasLinkMarker;
    QuietComplete(d.p, a, Current(a.record), i, d.changed);
  }

  /** Idempotence: after one quiet pass, a second one with the same facts makes zero writes and returns the same record. */
  lemma SecondPassIsIdle(w: World, a: SyncArgs, i: nat)
    requires Quiet(w) && Ready(w.server, i, a)
    ensures var first := Sync(w, a);
            var second := Sync(first.w, a.(record := first.record));
            && second.writes == 0 && second.record == first.record && !second.saved && second.error.None?
            && second.w.server == first.w.server && second.w.journal == first.w.journal && second.w.asked == first.w.asked
  {
    QuietPassConverges(w, a, i);
    hide Sync, Ready, RecordTruthful, IssueTruthful;
    var first := Sync(w, a);
    SameFactsSameTruth(first.w.server, i, first.record, a);
    QuietPassIsIdle(first.w, a.(record := first.record), i);
  }

  lemma SameFactsSameTruth(s: Server, i: nat, r: Record, a: SyncArgs)
    requires i < |s.issues| && IssueTruthful(s, i, a) && RecordTruthful(r, a)
    ensures IssueTruthful(s, i, a.(record := r)) && RecordTruthful(r, a.(record := r))
  {
  }

  /** In a batch, too: without failures an operation on a linked task, whatever its kind, makes issue and record agree with
      the task, and leaves every other association as it was. */
  lemma QuietUpdateConverges(b: Batch, c: Candidate, ctx: Context, linked: Record, i: nat)
    requires Quiet(b.w) && Get(b.applied, c.facts.taskId) == Some(linked) && linked.state == Linked && linked.taskId == c.facts.taskId
    requires Ready(b.w.server, i, ArgsFor(linked, c.facts, ctx))
    ensures var g := PublishOne(b, c, ctx);
            var d := Get(g.batch.applied, c.facts.taskId);
            && g.More? && d.Some? && Converged(b.w, ArgsFor(linked, c.facts, ctx), i, Sync(b.w, ArgsFor(linked, c.facts, ctx)))
            && d.value == Sync(b.w, ArgsFor(linked, c.facts, ctx)).record && g.batch.w == Sync(b.w, ArgsFor(linked, c.facts, ctx)).w
            && g.batch.applied == b.applied[c.facts.taskId := d.value] && g.batch.blocked == b.blocked
            && Ready(g.batch.w.server, i, ArgsFor(d.value, c.facts, ctx))
  {
    hide Sync, Converged, Ready;
    var a := ArgsFor(linked, c.facts, ctx);
    ReadyHasIssue(b.w.server, i, a);
    QuietPassConverges(b.w, a, i);
    StaysReady(b.w, a, i, Sync(b.w, a), ctx);
    ConvergedSaves(b.w, a, i, Sync(b.w, a));
  }

  lemma ConvergedSaves(w: World, a: SyncArgs, i: nat, r: SyncResult)
    requires i < |w.server.issues| && Converged(w, a, i, r)
    ensures !r.stopped && (r.saved || r.record == a.record) && r.record == a.record.(lifecycle := r.record.lifecycle)
  {
    hide IssueTruthful, RecordTruthful, AddsAtMostItsComment, MergeManagedDescription, ManagedSection;
  }

  lemma ReadyHasIssue(s: Server, i: nat, a: SyncArgs)
    requires Ready(s, i, a)
    ensures a.record.issueId == Some(i) && i < |s.issues|
  {
  }

  lemma StaysReady(w: World, a: SyncArgs, i: nat, r: SyncResult, ctx: Context)
    requires i < |w.server.issues| && Converged(w, a, i, r) && Ready(r.w.server, i, a.(record := r.record))
    requires a == ArgsFor(a.record, a.facts, ctx) && a.record.taskId == a.facts.taskId
    ensures Ready(r.w.server, i, ArgsFor(r.record, a.facts, ctx))
  {
    hide IssueTruthful, RecordTruthful, Ready, AddsAtMostItsComment, MergeManagedDescription, ManagedSection;
  }

  lemma QuietLocates(w: World, a: SyncArgs, i: nat)
    requires Quiet(w) && i < |w.server.issues| && HasLinkMarker(w.server.issues[i].description, a.marker)
    ensures Locate(Pass(w.(seen := []), a.record, false, 0), a, i)
         == Go(Located(Pass(w.(seen := [ViewOf(w.server, i)]), a.record, false, 0), Current(a.record), ViewOf(w.server, i)))
  {
    QuietAwait(w.(seen := []));
    assert [] + [ViewOf(w.server, i)] == [ViewOf(w.server, i)];
  }
}

/** What the result of a pass says about the world, for every script: a pass that reports no error has seen that issue
    and record agree with the task, and a pass that reports one names what happened. */
module HojaReports {
  import opened Wrappers
  import opened JsText
  import opened ManagedBlock
  import opened Markers
  import opened HojaRecords
  import opened HojaServer
  import opened HojaWorld
  import opened LifecycleSync
  import opened HojaJustified
  import opened HojaConvergence

  // ----- what happened -----

  /** `v` comes later in the same pass than `w`. */
  predicate Since(w: World, v: World) {
    && w.asked <= v.asked && |v.script| <= |w.script| && (v.script != [] ==> v.script == w.script[|w.script| - |v.script|..])
  }

  /** How the latest await ended. */
  function LastTick(w: World, v: World): Tick {
    if 0 < |v.script| < |w.script| then w.script[|w.script| - |v.script| - 1] else QUIET
  }

  /** The latest request of the pass. */
  function LastRequest(w: World, v: World): Option<Audit> {
    if |w.asked| < |v.asked| then Some(v.asked[|v.asked| - 1]) else None
  }

  predicate LastView(v: World, view: IssueView) {
    v.seen != [] && v.seen[|v.seen| - 1] == view
  }

  datatype RequestKind = Filing | Commenting | Describing | Moving

  function KindOf(r: Request): RequestKind {
    match r
    case CreateIssue(_, _, _, _, _) => Filing
    case PostComment(_, _, _) => Commenting
    case SetDescription(_, _) => Describing
    case SetState(_, _, _) => Moving
  }

  /** The latest await was this request. */
  predicate JustAsked(w: World, v: World, kind: RequestKind) {
    var q := LastRequest(w, v);
    q.Some? && KindOf(q.value.request) == kind && q.value.seen == v.seen
  }

  predicate ReadFails(w: World, v: World, issue: nat) {
    !LastTick(w, v).reply.Done? || issue >= |v.server.issues|
  }

  /** The latest await was the read-back of this request, and it does not prove it: there is no answer, or this answer. */
  predicate ReadBackAfter(w: World, v: World, kind: RequestKind) {
    var q := LastRequest(w, v);
    && q.Some? && KindOf(q.value.request) == kind
    && (v.seen == q.value.seen || (|v.seen| == |q.value.seen| + 1 && v.seen[..|q.value.seen|] == q.value.seen))
  }

  predicate NoAnswerRead(w: World, v: World) {
    LastRequest(w, v).Some? && v.seen == LastRequest(w, v).value.seen
  }

  /** The name does not lead to a project. */
  predicate Unresolvable(w: World, v: World, project: Option<string>) {
    Truthy(project) && !(LastTick(w, v).reply.Done? && Lower(Trim(project.value)) in v.server.projects)
  }

  predicate LeadsTo(v: World, project: Option<string>, target: Resolved) {
    Truthy(project) && Lower(Trim(project.value)) in v.server.projects && v.server.projects[Lower(Trim(project.value))] == target
  }

  function ProjectFor(a: SyncArgs): Option<string> {
    if a.record.project.Some? then a.record.project else a.project
  }

  /** The issue was read, and it does not carry the task's marker line. */
  predicate SeenForeign(a: SyncArgs, v: World) {
    |v.seen| == 1 && Some(v.seen[0].id) == a.record.issueId && !HasLinkMarker(v.seen[0].description, a.marker)
  }

  /** In lower case, the state the task asks for. */
  function StateInLower(facts: TaskFacts): string {
    if AcceptedCompletion(facts) then "done" else if facts.status == "in_progress" then "in progress" else "todo"
  }

  predicate InState(view: IssueView, facts: TaskFacts) {
    Lower(Trim(view.state)) == StateInLower(facts)
  }

  predicate SeenOutOfState(a: SyncArgs, v: World) {
    v.seen != [] && !InState(v.seen[|v.seen| - 1], a.facts)
  }

  // ----- what each error says -----

  predicate SharedCause(e: SyncError, w: World, a: SyncArgs, v: World) {
    var l, project := Current(a.record), ProjectFor(a);
    && v.asked == w.asked && SeenForeign(a, v)
    && match e
       case SharedUnowned => l.scope.Owned? || !Truthy(project)
       case SubissueStillPending => l.scope.Adopted? && l.subissue == Some(SubissuePending)
       case SubissueStillUnconfirmed => l.scope.Adopted? && l.subissue == Some(SubissueUnconfirmed)
       case SharedProjectUnresolved => l.scope.Adopted? && l.subissue.None? && Unresolvable(w, v, project)
       case SharedTargetMismatch =>
         && l.scope.Adopted? && l.subissue.None? && Truthy(project) && LastTick(w, v).reply.Done?
         && Lower(Trim(project.value)) in v.server.projects && v.server.projects[Lower(Trim(project.value))].teamId != v.seen[0].teamId
       case _ => false
  }

  predicate SubissueCause(e: SyncError, w: World, a: SyncArgs, v: World, l: Lifecycle) {
    && v.seen != [] && l.umbrella == Some(v.seen[0].identifier)
    && match e
       case SubissueAmbiguous => JustAsked(w, v, Filing) && LastTick(w, v).reply.Lost? && l.subissue == Some(SubissueUnconfirmed)
       case SubissueFailed =>
         && l.subissue == Some(SubissuePending)
         && ((JustAsked(w, v, Filing) && LastTick(w, v).reply.Rejected?)
             || (v.asked == w.asked && Truthy(ProjectFor(a)) && Lower(Trim(ProjectFor(a).value)) in v.server.projects
                 && (if a.facts.status == "in_progress" then "in progress" else "todo") !in v.server.projects[Lower(Trim(ProjectFor(a).value))].states))
       case SubissueUnverified =>
         && ReadBackAfter(w, v, Filing) && l.subissue == Some(SubissueUnconfirmed)
         && (NoAnswerRead(w, v)
             || var q, view := LastRequest(w, v).value, v.seen[|v.seen| - 1];
                q.request.CreateIssue? && !(HasLinkMarker(view.description, a.marker) && view.parent == q.request.parent))
       case _ => false
  }

  predicate DescriptionCause(e: SyncError, w: World, a: SyncArgs, v: World) {
    match e
    case DescriptionAmbiguous => JustAsked(w, v, Describing) && LastTick(w, v).reply.Lost?
    case DescriptionFailed => JustAsked(w, v, Describing) && LastTick(w, v).reply.Rejected?
    case DescriptionUnverified =>
      && ReadBackAfter(w, v, Describing)
      && (NoAnswerRead(w, v)
          || var q, view := LastRequest(w, v).value, v.seen[|v.seen| - 1];
             q.request.SetDescription? && !(view.description == q.request.description && Contains(view.description, ManagedSection(a.facts))))
    case _ => false
  }

  predicate StateCause(e: SyncError, w: World, a: SyncArgs, v: World) {
    var project := ProjectFor(a);
    && SeenOutOfState(a, v)
    && match e
       case StateProjectUnknown => !Truthy(project)
       case StateUnresolved => Unresolvable(w, v, project)
       case StateTargetMismatch =>
         && Truthy(project) && LastTick(w, v).reply.Done? && Lower(Trim(project.value)) in v.server.projects
         && var target, view := v.server.projects[Lower(Trim(project.value))], v.seen[|v.seen| - 1];
            target.teamId != view.teamId || target.projectId != view.projectId
       case StateAmbiguous => JustAsked(w, v, Moving) && LastTick(w, v).reply.Lost?
       case StateFailed =>
         || (JustAsked(w, v, Moving) && LastTick(w, v).reply.Rejected?)
         || (Truthy(project) && Lower(Trim(project.value)) in v.server.projects
             && StateInLower(a.facts) !in v.server.projects[Lower(Trim(project.value))].states)
       case StateUnverified => ReadBackAfter(w, v, Moving)
       case _ => false
  }

  predicate CommentCause(e: SyncError, w: World, a: SyncArgs, v: World, l: Lifecycle) {
    var before := Current(a.record);
    match e
    case CommentStillPending => before.comment == Some(CommentPending) && l.comment == before.comment && Missing(v, before.commentMarker)
    case CommentStillUnconfirmed => before.comment == Some(CommentUnconfirmed) && l.comment == before.comment && Missing(v, before.commentMarker)
    case CompletionUnaccepted => a.facts.status == "completed" && exists q | q in a.facts.questions :: q.answer.None? || q.answer.value == ""
    case CommentAmbiguous => JustAsked(w, v, Commenting) && LastTick(w, v).reply.Lost? && l.comment == Some(CommentUnconfirmed)
    case CommentRejected => JustAsked(w, v, Commenting) && LastTick(w, v).reply.Rejected? && l.comment == Some(CommentFailed)
    case CommentUnverified =>
      && ReadBackAfter(w, v, Commenting) && l.comment == Some(CommentUnconfirmed)
      && (NoAnswerRead(w, v) || Missing(v, Some(CommentMarker(a))))
    case _ => false
  }

  /** The issue read last does not show the comment with this marker. */
  predicate Missing(v: World, marker: Option<string>) {
    v.seen != [] && !(Truthy(marker) && Visible(v.seen[|v.seen| - 1].comments, marker.value))
  }

  predicate Cause(e: SyncError, w: World, a: SyncArgs, v: World, l: Lifecycle) {
    || (e == SyncReadFailed && v.asked == w.asked && v.seen == [] && a.record.issueId.Some? && ReadFails(w, v, a.record.issueId.value))
    || SharedCause(e, w, a, v) || SubissueCause(e, w, a, v, l) || DescriptionCause(e, w, a, v) || StateCause(e, w, a, v)
    || CommentCause(e, w, a, v, l)
  }

  // ----- what no error says -----

  /** The issue was seen with the task's section merged into a description it was seen with before, or had all along. */
  predicate SectionSeen(seen: seq<IssueView>, issue: nat, facts: TaskFacts) {
    exists i, j | 0 <= j <= i < |seen| :: MergedFrom(seen[j], seen[i], issue, facts)
  }

  predicate MergedFrom(before: IssueView, after: IssueView, issue: nat, facts: TaskFacts) {
    && before.id == issue && after.id == issue && Contains(after.description, ManagedSection(facts))
    && after.description == MergeManagedDescription(before.description, ManagedSection(facts))
  }

  predicate CommentSeen(seen: seq<IssueView>, issue: nat, marker: string) {
    exists i | 0 <= i < |seen| :: seen[i].id == issue && Visible(seen[i].comments, marker)
  }

  /** This pass has seen the issue of the record with the task's marker line, with its managed section, with this
      revision's comment when the task is accepted as completed, and, last of all, in the state the task asks for. */
  predicate SeenTruthful(a: SyncArgs, r: SyncResult) {
    && r.w.seen != [] && r.record.issueId == Some(r.w.seen[|r.w.seen| - 1].id) && InState(r.w.seen[|r.w.seen| - 1], a.facts)
    && var issue := r.record.issueId.value;
       && OwnedIn(r.w.seen, issue, a.marker) && SectionSeen(r.w.seen, issue, a.facts)
       && (AcceptedCompletion(a.facts) ==> CommentSeen(r.w.seen, issue, CommentMarker(a)))
  }

  /** Nothing but a sub-issue was asked for in this pass. */
  predicate OnlyFiled(w: World, v: World) {
    |w.asked| <= |v.asked| && forall i | |w.asked| <= i < |v.asked| :: KindOf(v.asked[i].request) == Filing
  }

  /** A record keeps an earlier error only if the pass wrote nothing to the issue. */
  predicate Clean(w: World, v: World, r: Record) {
    Current(r).error.Some? ==> OnlyFiled(w, v)
  }

  predicate Reports(w: World, a: SyncArgs, r: SyncResult) {
    if r.stopped then !r.w.active && r.error.None?
    else
      match r.error
      case None => SeenTruthful(a, r) && RecordTruthful(r.record, a) && Clean(w, r.w, r.record)
      case Some(e) => Current(r.record).error == Some(e) && (r.w.script != [] ==> Cause(e, w, a, r.w, Current(r.record)))
  }

  // ----- elementary steps -----

  lemma StateNames(facts: TaskFacts)
    ensures Lower(WantedState(facts)) == StateInLower(facts)
    ensures Lower(StateFor(facts)) == if facts.status == "in_progress" then "in progress" else "todo"
  {
  }

  lemma AwaitSince(w: World, v: World)
    requires Since(w, v)
    ensures Since(w, Await(v)) && (Await(v).script != [] ==> LastTick(w, Await(v)) == NextTick(v))
    ensures Await(v).asked == v.asked && Await(v).seen == v.seen && (Await(v).active ==> v.active)
  {
    hide Evolve;
  }

  lemma SendSince(w: World, v: World, facts: TaskFacts, key: Key, request: Request, write: Late)
    requires Since(w, v)
    ensures var (v1, answer) := Send(v, facts, key, request, write);
            && Since(w, v1) && v1.seen == v.seen && |v1.asked| == |v.asked| + 1 && v.asked == v1.asked[..|v.asked|] && (v1.active ==> v.active)
            && LastRequest(w, v1).Some? && LastRequest(w, v1).value.request == request && LastRequest(w, v1).value.seen == v.seen
            && (v1.script != [] ==> answer == AnswerOf(LastTick(w, v1).reply))
  {
    hide Evolve, Commit;
    AwaitSince(w, Ask(v, facts, key, request));
  }

  /** The pass so far: its project and what is known of an earlier comment are the ones it began with. */
  predicate Passing(w: World, a: SyncArgs, p: Pass) {
    && Since(w, p.w) && p.record.project == a.record.project
    && Current(p.record).comment == Current(a.record).comment && Current(p.record).commentMarker == Current(a.record).commentMarker
  }

  /** And it is at its issue. */
  predicate Viewing(w: World, a: SyncArgs, p: Pass, view: IssueView) {
    && Since(w, p.w) && p.record.project == a.record.project
    && LastView(p.w, view) && p.record.issueId == Some(view.id) && OwnedIn(p.w.seen, view.id, a.marker)
  }

  lemma Failing(w: World, a: SyncArgs, p: Pass, e: SyncError)
    requires p.w.script != [] ==> Cause(e, w, a, p.w, Current(p.record).(error := Some(e)))
    ensures Reports(w, a, Fail(p, e))
  {
    hide Cause;
    assert Journal(p.w, p.record.(lifecycle := Some(Current(p.record).(error := Some(e))))).script == p.w.script;
    SavedCause(w, a, p, Current(p.record).(error := Some(e)), e);
  }

  /** Journaling what happened does not change what happened. */
  lemma SavedCause(w: World, a: SyncArgs, p: Pass, l: Lifecycle, e: SyncError)
    requires p.w.script != [] ==> Cause(e, w, a, p.w, l)
    ensures p.w.script != [] ==> Cause(e, w, a, Save(p, l).w, l)
  {
    var v, j := p.w, Save(p, l).w.journal;
    SavedShared(e, w, a, v, j);
    SavedSubissue(e, w, a, v, l, j);
    SavedDescription(e, w, a, v, j);
    SavedState(e, w, a, v, j);
    SavedComment(e, w, a, v, l, j);
    hide SharedCause, SubissueCause, DescriptionCause, StateCause, CommentCause;
    assert Save(p, l).w == v.(journal := j);
  }

  lemma SameHappened(w: World, v: World, j: seq<Entry>)
    ensures var v1 := v.(journal := j);
            && LastTick(w, v1) == LastTick(w, v) && LastRequest(w, v1) == LastRequest(w, v) && NoAnswerRead(w, v1) == NoAnswerRead(w, v)
            && forall kind :: JustAsked(w, v1, kind) == JustAsked(w, v, kind) && ReadBackAfter(w, v1, kind) == ReadBackAfter(w, v, kind)
  {
  }

  lemma SavedShared(e: SyncError, w: World, a: SyncArgs, v: World, j: seq<Entry>)
    ensures SharedCause(e, w, a, v.(journal := j)) <==> SharedCause(e, w, a, v)
  {
    hide LastTick, LastRequest, NoAnswerRead, JustAsked, ReadBackAfter, HasLinkMarker, Visible, Contains;
    SameHappened(w, v, j);
  }

  lemma SavedSubissue(e: SyncError, w: World, a: SyncArgs, v: World, l: Lifecycle, j: seq<Entry>)
    ensures SubissueCause(e, w, a, v.(journal := j), l) <==> SubissueCause(e, w, a, v, l)
  {
    hide LastTick, LastRequest, NoAnswerRead, JustAsked, ReadBackAfter, HasLinkMarker, Visible, Contains;
    SameHappened(w, v, j);
  }

  lemma SavedDescription(e: SyncError, w: World, a: SyncArgs, v: World, j: seq<Entry>)
    ensures DescriptionCause(e, w, a, v.(journal := j)) <==> DescriptionCause(e, w, a, v)
  {
    hide LastTick, LastRequest, NoAnswerRead, JustAsked, ReadBackAfter, HasLinkMarker, Visible, Contains;
    SameHappened(w, v, j);
  }

  lemma SavedState(e: SyncError, w: World, a: SyncArgs, v: World, j: seq<Entry>)
    ensures StateCause(e, w, a, v.(journal := j)) <==> StateCause(e, w, a, v)
  {
    hide LastTick, LastRequest, NoAnswerRead, JustAsked, ReadBackAfter, HasLinkMarker, Visible, Contains;
    SameHappened(w, v, j);
  }

  lemma SavedComment(e: SyncError, w: World, a: SyncArgs, v: World, l: Lifecycle, j: seq<Entry>)
    ensures CommentCause(e, w, a, v.(journal := j), l) <==> CommentCause(e, w, a, v, l)
  {
    hide LastTick, LastRequest, NoAnswerRead, JustAsked, ReadBackAfter, HasLinkMarker, Visible, Contains;
    SameHappened(w, v, j);
  }

  /** Reading an issue back after a request. */
  lemma ReadSince(w: World, v: World, issue: nat, kind: RequestKind)
    requires Since(w, v) && JustAsked(w, v, kind)
    ensures var (v1, read) := ReadIssue(v, issue);
            && Since(w, v1) && ReadBackAfter(w, v1, kind) && LastRequest(w, v1) == LastRequest(w, v) && v1.asked == v.asked
            && (v1.active ==> v.active)
            && match read
               case None => v1.seen == v.seen && NoAnswerRead(w, v1)
               case Some(view) => view.id == issue && v1.seen == v.seen + [view] && LastView(v1, view)
  {
    hide Evolve, CommentsOn;
    AwaitSince(w, v);
  }

  // ----- the steps -----

  lemma LocateReports(w: World, a: SyncArgs, p: Pass, issue: nat)
    requires p == Pass(w.(seen := []), a.record, false, 0) && a.record.issueId == Some(issue)
    ensures match Locate(p, a, issue)
            case Halt(r) => Reports(w, a, r)
            case Go(l) => Passing(w, a, l.p) && Viewing(w, a, l.p, l.view) && l.lifecycle == Current(l.p.record) && OnlyFiled(w, l.p.w)
  {
    hide Reports, Fail, WorkBeneath, HasLinkMarker, Evolve;
    var (w1, read) := ReadIssue(p.w, issue);
    var p1 := p.(w := w1);
    AwaitSince(w, p.w);
    if read.None? {
      Failing(w, a, p1, SyncReadFailed);
    } else if HasLinkMarker(read.value.description, a.marker) {
      assert p1.w.seen == [read.value] && p1.w.seen[0] == read.value;
    } else if Current(a.record).scope.Adopted? {
      BeneathReports(w, a, p1, read.value);
    } else {
      Failing(w, a, p1, SharedUnowned);
    }
  }

  lemma BeneathReports(w: World, a: SyncArgs, p: Pass, view: IssueView)
    requires Passing(w, a, p) && p.record == a.record && p.w.seen == [view] && SeenForeign(a, p.w) && p.w.asked == w.asked && Current(a.record).scope.Adopted?
    ensures match WorkBeneath(p, a, Current(a.record), view)
            case Halt(r) => Reports(w, a, r)
            case Go(l) => Passing(w, a, l.p) && Viewing(w, a, l.p, l.view) && l.lifecycle == Current(l.p.record) && OnlyFiled(w, l.p.w)
  {
    hide Reports, Fail, IntendSubissue, HasLinkMarker, Resolve, Since;
    var lifecycle := Current(a.record);
    if lifecycle.subissue == Some(SubissuePending) {
      Failing(w, a, p, SubissueStillPending);
    } else if lifecycle.subissue == Some(SubissueUnconfirmed) {
      Failing(w, a, p, SubissueStillUnconfirmed);
    } else if !Truthy(ProjectOf(p, a)) {
      Failing(w, a, p, SharedUnowned);
    } else if !p.w.active {
      Stopping(w, a, p);
    } else {
      var (w1, resolution) := Resolve(p.w, ProjectOf(p, a).value);
      ResolveSince(w, p.w, ProjectOf(p, a).value);
      SubissuePhases(lifecycle.subissue);
      ResolvedBeneath(w, a, p.(w := w1), view, resolution);
    }
  }

  lemma ResolveSince(w: World, v: World, project: string)
    requires Since(w, v) && project != ""
    ensures var (v1, resolution) := Resolve(v, project);
            && Since(w, v1) && v1.asked == v.asked && v1.seen == v.seen && (v1.active ==> v.active)
            && match resolution
               case ResolvedTo(target) => LeadsTo(v1, Some(project), target) && (v1.script != [] ==> LastTick(w, v1).reply.Done?)
               case _ => v1.script != [] ==> Unresolvable(w, v1, Some(project))
  {
    hide Evolve, Lower, Trim;
    AwaitSince(w, v);
  }

  lemma ResolvedBeneath(w: World, a: SyncArgs, p: Pass, view: IssueView, resolution: Resolution)
    requires Passing(w, a, p) && p.record == a.record && p.w.seen == [view] && SeenForeign(a, p.w) && p.w.asked == w.asked
    requires Current(a.record).scope.Adopted? && Current(a.record).subissue.None? && Truthy(ProjectFor(a))
    requires match resolution
             case ResolvedTo(target) => LeadsTo(p.w, ProjectFor(a), target) && (p.w.script != [] ==> LastTick(w, p.w).reply.Done?)
             case _ => p.w.script != [] ==> Unresolvable(w, p.w, ProjectFor(a))
    ensures match resolution
            case ResolvedTo(target) =>
              (match IntendSubissue(p, a, Current(a.record), view, target)
               case Halt(r) => Reports(w, a, r)
               case Go(l) => Passing(w, a, l.p) && Viewing(w, a, l.p, l.view) && l.lifecycle == Current(l.p.record) && OnlyFiled(w, l.p.w))
            case _ => Reports(w, a, Fail(p, SharedProjectUnresolved))
  {
    hide Reports, Fail, IntendSubissue, HasLinkMarker, Lower, Trim;
    if resolution.ResolvedTo? {
      IntendReports(w, a, p, view, resolution.target);
    } else {
      Failing(w, a, p, SharedProjectUnresolved);
    }
  }

  lemma SubissuePhases(phase: Option<SubissuePhase>)
    ensures phase.None? || phase == Some(SubissuePending) || phase == Some(SubissueUnconfirmed)
  {
    match phase
    case None =>
    case Some(p) => assert p.SubissuePending? || p.SubissueUnconfirmed?;
  }

  lemma Stopping(w: World, a: SyncArgs, p: Pass)
    requires !p.w.active
    ensures Reports(w, a, Stop(p))
  {
  }

  lemma IntendReports(w: World, a: SyncArgs, p: Pass, view: IssueView, target: Resolved)
    requires Passing(w, a, p) && p.record == a.record && p.w.seen == [view] && SeenForeign(a, p.w) && p.w.asked == w.asked
    requires Current(a.record).scope.Adopted? && Current(a.record).subissue.None? && LeadsTo(p.w, ProjectFor(a), target)
    requires p.w.script != [] ==> LastTick(w, p.w).reply.Done?
    ensures match IntendSubissue(p, a, Current(a.record), view, target)
            case Halt(r) => Reports(w, a, r)
            case Go(l) => Passing(w, a, l.p) && Viewing(w, a, l.p, l.view) && l.lifecycle == Current(l.p.record) && OnlyFiled(w, l.p.w)
  {
    hide Reports, Fail, FileSubissue, HasLinkMarker, Evolve;
    var lifecycle := Current(a.record);
    if target.teamId != view.teamId {
      Failing(w, a, p, SharedTargetMismatch);
    } else {
      var p1 := Save(p, PendingSubissue(lifecycle, view));
      if !p1.w.active {
        Stopping(w, a, p1);
      } else {
        FileReports(w, a, p1, view, target);
      }
    }
  }

  lemma FileReports(w: World, a: SyncArgs, p: Pass, view: IssueView, target: Resolved)
    requires Passing(w, a, p) && p.w.asked == w.asked && p.w.seen == [view] && LeadsTo(p.w, ProjectFor(a), target)
    requires p.record == a.record.(lifecycle := Some(PendingSubissue(Current(a.record), view)))
    ensures match FileSubissue(p, a, Current(a.record), view, target)
            case Halt(r) => Reports(w, a, r)
            case Go(l) => Passing(w, a, l.p) && Viewing(w, a, l.p, l.view) && l.lifecycle == Current(l.p.record) && OnlyFiled(w, l.p.w)
  {
    hide Reports, Fail, TakeOver, HasLinkMarker, Evolve, Send, Unconfirmed, Lower, Trim, SubissueDescription;
    var lifecycle := Current(a.record);
    var (w1, answer, child) := Create(p.w, a.facts, SubKey(a.facts.taskId), target, a.facts.subject,
                                      SubissueDescription(a.facts, a.marker), StateFor(a.facts), Some(view.id));
    var p1 := p.(w := w1);
    StateNames(a.facts);
    CreateSince(w, a, p.w, SubKey(a.facts.taskId), target, SubissueDescription(a.facts, a.marker), Some(view.id));
    if answer.Ambiguous? {
      Doubting(w, a, p1, SubissueAmbiguous);
    } else if answer.Refused? {
      Failing(w, a, p1, SubissueFailed);
    } else {
      var p2 := p1.(writes := p1.writes + 1);
      if !p2.w.active {
        Stopping(w, a, p2);
      } else {
        TakeOverReports(w, a, p2, view, child);
      }
    }
  }

  lemma CreateSince(w: World, a: SyncArgs, v: World, key: Key, target: Resolved, description: string, parent: Option<nat>)
    requires Since(w, v)
    ensures var (v1, answer, _) := Create(v, a.facts, key, target, a.facts.subject, description, StateFor(a.facts), parent);
            && Since(w, v1) && v1.seen == v.seen && (v1.active ==> v.active)
            && if Lower(StateFor(a.facts)) !in target.states then v1 == v && answer.Refused?
               else JustAsked(w, v1, Filing) && |v1.asked| == |v.asked| + 1
                    && LastRequest(w, v1).value.request == CreateIssue(target, a.facts.subject, description, StateFor(a.facts), parent)
                    && (v1.script != [] ==> answer == AnswerOf(LastTick(w, v1).reply))
  {
    hide Send, Lower, Since;
    SendSince(w, v, a.facts, key, CreateIssue(target, a.facts.subject, description, StateFor(a.facts), parent),
              LateIssue(NewIssue(NextTick(v).name, target, description, StateFor(a.facts), parent, key)));
  }

  lemma Doubting(w: World, a: SyncArgs, p: Pass, e: SyncError)
    requires p.w.script != [] ==> Cause(e, w, a, p.w, Current(p.record).(subissue := Some(SubissueUnconfirmed), error := Some(e)))
    ensures Reports(w, a, Unconfirmed(p, e))
  {
    hide Cause;
    SavedCause(w, a, p, Current(p.record).(subissue := Some(SubissueUnconfirmed), error := Some(e)), e);
  }

  lemma TakeOverReports(w: World, a: SyncArgs, p: Pass, view: IssueView, child: nat)
    requires Passing(w, a, p) && p.w.seen == [view] && JustAsked(w, p.w, Filing) && LastRequest(w, p.w).value.request.CreateIssue?
    requires LastRequest(w, p.w).value.request.parent == Some(view.id) && |p.w.asked| == |w.asked| + 1
    requires p.record == a.record.(lifecycle := Some(PendingSubissue(Current(a.record), view)))
    ensures match TakeOver(p, a, Current(a.record), view, child)
            case Halt(r) => Reports(w, a, r)
            case Go(l) => Passing(w, a, l.p) && Viewing(w, a, l.p, l.view) && l.lifecycle == Current(l.p.record) && OnlyFiled(w, l.p.w)
  {
    hide Reports, Unconfirmed, HasLinkMarker, ReadIssue, Since, ReadBackAfter, NoAnswerRead;
    var (w1, read) := ReadIssue(p.w, child);
    var p1 := p.(w := w1);
    ReadSince(w, p.w, child, Filing);
    if read.None? || !HasLinkMarker(read.value.description, a.marker) || read.value.parent != Some(view.id) {
      Doubting(w, a, p1, SubissueUnverified);
    } else {
      TakenOver(w, a, p1, view, read.value);
    }
  }

  lemma TakenOver(w: World, a: SyncArgs, p: Pass, view: IssueView, child: IssueView)
    requires Passing(w, a, p) && LastView(p.w, child) && HasLinkMarker(child.description, a.marker)
    requires p.record == a.record.(lifecycle := Some(PendingSubissue(Current(a.record), view)))
    ensures var r := ChildRecord(p.record, Current(a.record), view, child);
            Passing(w, a, SaveRecord(p, r)) && Viewing(w, a, SaveRecord(p, r), child)
  {
    assert p.w.seen[|p.w.seen| - 1] == child;
  }

  lemma MergedHasSection(existing: string, section: string)
    ensures Contains(MergeManagedDescription(existing, section), section)
  {
    hide Contains, IndexOf;
    var m := MergeManagedDescription(existing, section);
    if HasBlock(existing, MANAGED) {
      ContainsMiddle(existing[..IndexOf(existing, MANAGED.start).value], section, existing[IndexOf(existing, MANAGED.end).value + |MANAGED.end|..]);
    } else if existing == "" {
      ContainsMiddle("", section, "");
      assert "" + section + "" == section;
    } else {
      ContainsMiddle(existing + Separator(existing), section, "");
      assert existing + Separator(existing) + section + "" == m;
    }
  }

  predicate DescribedWell(w: World, a: SyncArgs, p: Pass, d: Described) {
    Viewing(w, a, d.p, d.view) && SectionSeen(d.p.w.seen, d.view.id, a.facts) && d.p.record == p.record
  }

  lemma OwnedStill(seen: seq<IssueView>, view: IssueView, issue: nat, marker: string)
    requires OwnedIn(seen, issue, marker)
    ensures OwnedIn(seen + [view], issue, marker)
  {
    OwnedInStays(seen, view, issue, marker);
  }

  lemma DescribeReports(w: World, a: SyncArgs, p: Pass, view: IssueView)
    requires Viewing(w, a, p, view)
    ensures match Describe(p, a, view)
            case Halt(r) => Reports(w, a, r)
            case Go(d) => DescribedWell(w, a, p, d) && (d.changed || d.p == p)
  {
    hide Reports, Fail, MergeManagedDescription, ManagedSection, Contains, Evolve, ProveDescription, Send, HasLinkMarker;
    var desired := MergeManagedDescription(view.description, ManagedSection(a.facts));
    MergedHasSection(view.description, ManagedSection(a.facts));
    if desired == view.description {
      assert p.w.seen[|p.w.seen| - 1] == view;
      assert MergedFrom(view, view, view.id, a.facts);
    } else if !p.w.active {
      Stopping(w, a, p);
    } else {
      var (w1, answer) := WriteDescription(p.w, a.facts, view.id, desired);
      var p1 := p.(w := w1);
      SendSince(w, p.w, a.facts, OtherKey, SetDescription(view.id, desired), LateEdit(view.id, Some(desired), None));
      if answer.Ambiguous? {
        Failing(w, a, p1, DescriptionAmbiguous);
      } else if answer.Refused? {
        Failing(w, a, p1, DescriptionFailed);
      } else {
        var p2 := p1.(writes := p1.writes + 1);
        if !p2.w.active {
          Stopping(w, a, p2);
        } else {
          ProveReports(w, a, p2, view.id, desired);
        }
      }
    }
  }

  lemma ProveReports(w: World, a: SyncArgs, p: Pass, issue: nat, desired: string)
    requires Since(w, p.w) && p.record.project == a.record.project && p.record.issueId == Some(issue) && OwnedIn(p.w.seen, issue, a.marker)
    requires JustAsked(w, p.w, Describing) && LastRequest(w, p.w).value.request == SetDescription(issue, desired)
    requires p.w.seen != [] && p.w.seen[|p.w.seen| - 1].id == issue
    requires desired == MergeManagedDescription(p.w.seen[|p.w.seen| - 1].description, ManagedSection(a.facts))
    ensures match ProveDescription(p, a, issue, desired)
            case Halt(r) => Reports(w, a, r)
            case Go(d) => DescribedWell(w, a, p, d) && d.changed
  {
    hide Reports, Fail, ManagedSection, MergeManagedDescription, Contains, HasLinkMarker, ReadIssue, Since, ReadBackAfter, NoAnswerRead, OwnedIn;
    var (w1, check) := ReadIssue(p.w, issue);
    var p1 := p.(w := w1);
    ReadSince(w, p.w, issue, Describing);
    if check.Some? {
      OwnedStill(p.w.seen, check.value, issue, a.marker);
      assert p1.w.seen[|p1.w.seen| - 1] == check.value;
    }
    if check.None? || check.value.description != desired || !Contains(check.value.description, ManagedSection(a.facts)) {
      Failing(w, a, p1, DescriptionUnverified);
    } else {
      var n := |p.w.seen|;
      assert p1.w.seen[n - 1] == p.w.seen[n - 1] && p1.w.seen[n] == check.value;
      assert MergedFrom(p1.w.seen[n - 1], p1.w.seen[n], issue, a.facts);
    }
  }

  // ----- the state -----

  /** A step of the second half: still at the issue, with everything seen before. */
  predicate Onward(w: World, a: SyncArgs, p: Pass, view: IssueView, seen: seq<IssueView>) {
    && Viewing(w, a, p, view) && seen <= p.w.seen
  }

  lemma SectionStill(seen: seq<IssueView>, more: seq<IssueView>, issue: nat, facts: TaskFacts)
    requires SectionSeen(seen, issue, facts) && seen <= more
    ensures SectionSeen(more, issue, facts)
  {
    hide MergedFrom;
    var i, j :| 0 <= j <= i < |seen| && MergedFrom(seen[j], seen[i], issue, facts);
    assert more[i] == seen[i] && more[j] == seen[j];
  }

  lemma CommentStill(seen: seq<IssueView>, more: seq<IssueView>, issue: nat, marker: string)
    requires CommentSeen(seen, issue, marker) && seen <= more
    ensures CommentSeen(more, issue, marker)
  {
    hide Visible;
    var i :| 0 <= i < |seen| && seen[i].id == issue && Visible(seen[i].comments, marker);
    assert more[i] == seen[i];
  }

  lemma ApplyStateReports(w: World, a: SyncArgs, p: Pass, view: IssueView, target: string)
    requires Viewing(w, a, p, view) && target == WantedState(a.facts)
    ensures match ApplyState(p, a, view, target)
            case Halt(r) => Reports(w, a, r)
            case Go(d) => Onward(w, a, d.p, d.view, p.w.seen) && d.p.record == p.record && InState(d.view, a.facts) && (d.changed || d.p == p)
  {
    hide Reports, Fail, MoveState, Resolve, Since, HasLinkMarker, WantedState, StateInLower, Lower, Trim;
    StateNames(a.facts);
    if SameState(view.state, target) {
    } else if !Truthy(ProjectOf(p, a)) {
      Failing(w, a, p, StateProjectUnknown);
    } else if !p.w.active {
      Stopping(w, a, p);
    } else {
      var (w1, resolution) := Resolve(p.w, ProjectOf(p, a).value);
      ResolveSince(w, p.w, ProjectOf(p, a).value);
      ResolvedState(w, a, p.(w := w1), view, resolution, target);
    }
  }

  /** The project has answered. */
  predicate Looked(w: World, a: SyncArgs, v: World, resolution: Resolution) {
    match resolution
    case ResolvedTo(target) => LeadsTo(v, ProjectFor(a), target) && (v.script != [] ==> LastTick(w, v).reply.Done?)
    case _ => v.script != [] ==> Unresolvable(w, v, ProjectFor(a))
  }

  lemma ResolvedState(w: World, a: SyncArgs, p: Pass, view: IssueView, resolution: Resolution, target: string)
    requires Viewing(w, a, p, view) && target == WantedState(a.facts) && !InState(view, a.facts) && Looked(w, a, p.w, resolution)
    ensures if !resolution.ResolvedTo? then Reports(w, a, Fail(p, StateUnresolved))
            else if resolution.target.teamId != view.teamId || resolution.target.projectId != view.projectId
            then Reports(w, a, Fail(p, StateTargetMismatch))
            else if !p.w.active then Reports(w, a, Stop(p))
            else match MoveState(p, a, view, resolution.target, target)
                 case Halt(r) => Reports(w, a, r)
                 case Go(d) => Onward(w, a, d.p, d.view, p.w.seen) && d.p.record == p.record && InState(d.view, a.facts) && (d.changed || d.p == p)
  {
    hide Reports, Fail, MoveState, Since, HasLinkMarker, WantedState, StateInLower, Lower, Trim;
    if !resolution.ResolvedTo? {
      Failing(w, a, p, StateUnresolved);
    } else if resolution.target.teamId != view.teamId || resolution.target.projectId != view.projectId {
      Failing(w, a, p, StateTargetMismatch);
    } else if !p.w.active {
      Stopping(w, a, p);
    } else {
      MoveReports(w, a, p, view, resolution.target, target);
    }
  }

  lemma MoveReports(w: World, a: SyncArgs, p: Pass, view: IssueView, resolved: Resolved, target: string)
    requires Viewing(w, a, p, view) && target == WantedState(a.facts) && !InState(view, a.facts) && LeadsTo(p.w, ProjectFor(a), resolved)
    ensures match MoveState(p, a, view, resolved, target)
            case Halt(r) => Reports(w, a, r)
            case Go(d) => Onward(w, a, d.p, d.view, p.w.seen) && d.p.record == p.record && InState(d.view, a.facts) && (d.changed || d.p == p)
  {
    hide Reports, Fail, ProveState, Since, HasLinkMarker, WantedState, StateInLower, Lower, Trim, Send;
    var (w1, answer) := WriteState(p.w, a.facts, view.id, resolved, target);
    var p1 := p.(w := w1);
    StateNames(a.facts);
    if Lower(target) in resolved.states {
      SendSince(w, p.w, a.facts, OtherKey, SetState(view.id, resolved, target), LateEdit(view.id, None, Some(target)));
    }
    if answer.Ambiguous? {
      Failing(w, a, p1, StateAmbiguous);
    } else if answer.Refused? {
      Failing(w, a, p1, StateFailed);
    } else {
      var p2 := p1.(writes := p1.writes + 1);
      if !p2.w.active {
        Stopping(w, a, p2);
      } else {
        ProveStateReports(w, a, p2, view, target);
      }
    }
  }

  lemma ProveStateReports(w: World, a: SyncArgs, p: Pass, view: IssueView, target: string)
    requires Viewing(w, a, p, view) && target == WantedState(a.facts) && !InState(view, a.facts) && JustAsked(w, p.w, Moving)
    ensures match ProveState(p, view.id, target)
            case Halt(r) => Reports(w, a, r)
            case Go(d) => Onward(w, a, d.p, d.view, p.w.seen) && d.p.record == p.record && InState(d.view, a.facts) && (d.changed || d.p == p)
  {
    hide Reports, Fail, HasLinkMarker, WantedState, StateInLower, Lower, Trim, ReadIssue, Since, ReadBackAfter, OwnedIn;
    var (w1, after) := ReadIssue(p.w, view.id);
    var p1 := p.(w := w1);
    ReadSince(w, p.w, view.id, Moving);
    StateNames(a.facts);
    if after.Some? {
      OwnedStill(p.w.seen, after.value, view.id, a.marker);
      assert p1.w.seen[|p1.w.seen| - 1] == after.value;
    }
    if after.None? || !SameState(after.value.state, target) {
      Failing(w, a, p1, StateUnverified);
    }
  }

  // ----- completion -----

  /** `l` is the record's lifecycle, up to its error. */
  predicate Carries(p: Pass, l: Lifecycle) {
    Current(p.record).(error := None) == l.(error := None)
  }

  lemma ReconcileReports(w: World, a: SyncArgs, p: Pass, view: IssueView)
    requires Passing(w, a, p) && Viewing(w, a, p, view)
    ensures match ReconcileComment(p, Current(p.record), view)
            case Halt(r) => Reports(w, a, r)
            case Go(s) => Onward(w, a, s.p, view, p.w.seen) && Carries(s.p, s.lifecycle) && !Unresolved(s.lifecycle)
                          && (Clean(w, p.w, p.record) ==> Clean(w, s.p.w, s.p.record))
  {
    hide Reports, Fail, Visible, Since, HasLinkMarker;
    var l := Current(p.record);
    if Unresolved(l) {
      if !Truthy(l.commentMarker) || !Visible(view.comments, l.commentMarker.value) {
        if l.comment == Some(CommentPending) {
          Failing(w, a, p, CommentStillPending);
        } else {
          Failing(w, a, p, CommentStillUnconfirmed);
        }
      } else {
        var posted := l.(comment := Some(CommentPosted));
        SaveSince(w, p, posted.(error := None));
      }
    }
  }

  lemma SaveSince(w: World, p: Pass, l: Lifecycle)
    requires Since(w, p.w)
    ensures Since(w, Save(p, l).w) && Save(p, l).w.seen == p.w.seen && Save(p, l).w.asked == p.w.asked && Save(p, l).w.active == p.w.active
    ensures Save(p, l).record == p.record.(lifecycle := Some(l))
  {
  }

  lemma FollowReports(w: World, a: SyncArgs, p: Pass, l: Lifecycle, view: IssueView, changed: bool)
    requires Viewing(w, a, p, view) && SectionSeen(p.w.seen, view.id, a.facts) && Carries(p, l) && !Unresolved(l) && !AcceptedCompletion(a.facts)
    requires changed || Clean(w, p.w, p.record)
    ensures Reports(w, a, FollowTask(p, a, l, view, changed))
  {
    hide Reports, ApplyState, Since, HasLinkMarker, Lower, Trim, StateInLower, Clean, SectionSeen, OwnedIn, RecordTruthful;
    if a.facts.status == "completed" {
      Unaccepted(w, a, p, l);
    } else {
      ApplyStateReports(w, a, p, view, StateFor(a.facts));
      match ApplyState(p, a, view, StateFor(a.facts))
      case Halt(_) =>
      case Go(d) =>
        SectionStill(p.w.seen, d.p.w.seen, view.id, a.facts);
        if changed || d.changed || l.closed {
          Saving(w, a, d.p, d.view, l.(closed := false, error := None));
        } else {
          OpenRecord(d.p.record, a);
          Truthful(w, a, d.p, d.view);
        }
    }
  }

  lemma OpenRecord(r: Record, a: SyncArgs)
    requires !AcceptedCompletion(a.facts) && !Current(r).closed && !Unresolved(Current(r))
    ensures RecordTruthful(r, a)
  {
  }

  lemma ClosedRecord(r: Record, a: SyncArgs)
    requires AcceptedCompletion(a.facts) && Current(r).closed && Current(r).comment == Some(CommentPosted) && Current(r).commentMarker == Some(CommentMarker(a))
    ensures RecordTruthful(r, a)
  {
  }

  /** The pass ends by saving what it found. */
  lemma Saving(w: World, a: SyncArgs, p: Pass, view: IssueView, l: Lifecycle)
    requires Viewing(w, a, p, view) && SectionSeen(p.w.seen, view.id, a.facts) && InState(view, a.facts) && l.error.None?
    requires if AcceptedCompletion(a.facts)
             then l.closed && l.comment == Some(CommentPosted) && l.commentMarker == Some(CommentMarker(a)) && CommentSeen(p.w.seen, view.id, CommentMarker(a))
             else !l.closed && !Unresolved(l)
    ensures Reports(w, a, Finish(Save(p, l), None))
  {
    hide Reports, Since, SectionSeen, CommentSeen, OwnedIn, InState, AcceptedCompletion, CommentMarker;
    SaveSince(w, p, l);
    Truthful(w, a, Save(p, l), view);
  }

  lemma Unaccepted(w: World, a: SyncArgs, p: Pass, l: Lifecycle)
    requires a.facts.status == "completed" && !AcceptedCompletion(a.facts)
    ensures Reports(w, a, Finish(Save(p, l.(error := Some(CompletionUnaccepted))), Some(CompletionUnaccepted)))
  {
    var q :| q in a.facts.questions && !Truthy(q.answer);
    hide SharedCause, SubissueCause, DescriptionCause, StateCause;
    assert q.answer.None? || q.answer.value == "";
    assert CommentCause(CompletionUnaccepted, w, a, Save(p, l.(error := Some(CompletionUnaccepted))).w, l.(error := Some(CompletionUnaccepted)));
  }

  /** The pass ends without an error. */
  lemma Truthful(w: World, a: SyncArgs, p: Pass, view: IssueView)
    requires Viewing(w, a, p, view) && SectionSeen(p.w.seen, view.id, a.facts) && InState(view, a.facts) && RecordTruthful(p.record, a) && Clean(w, p.w, p.record)
    requires AcceptedCompletion(a.facts) ==> CommentSeen(p.w.seen, view.id, CommentMarker(a))
    ensures Reports(w, a, Finish(p, None))
  {
    hide SectionSeen, CommentSeen, OwnedIn, RecordTruthful, InState, AcceptedCompletion, Clean;
  }

  lemma CloseReports(w: World, a: SyncArgs, p: Pass, l: Lifecycle, view: IssueView, changed: bool)
    requires Viewing(w, a, p, view) && SectionSeen(p.w.seen, view.id, a.facts) && Carries(p, l) && AcceptedCompletion(a.facts)
    requires changed || Clean(w, p.w, p.record)
    requires CommentSeen(p.w.seen, view.id, CommentMarker(a))
    ensures Reports(w, a, Close(p, a, l, view, changed))
  {
    hide Reports, ApplyState, Since, HasLinkMarker, Lower, Trim, StateInLower, CommentMarker, AcceptedCompletion, Clean, SectionSeen, CommentSeen, OwnedIn, RecordTruthful;
    ApplyStateReports(w, a, p, view, DONE_STATE);
    match ApplyState(p, a, view, DONE_STATE)
    case Halt(_) =>
    case Go(d) =>
      var marker := CommentMarker(a);
      SectionStill(p.w.seen, d.p.w.seen, view.id, a.facts);
      CommentStill(p.w.seen, d.p.w.seen, view.id, marker);
      if !changed && !d.changed && l.closed && l.comment == Some(CommentPosted) && l.commentMarker == Some(marker) {
        ClosedRecord(d.p.record, a);
        Truthful(w, a, d.p, d.view);
      } else {
        Saving(w, a, d.p, d.view, l.(comment := Some(CommentPosted), commentMarker := Some(marker), closed := true, error := None));
      }
  }

  lemma PostReports(w: World, a: SyncArgs, p: Pass, l: Lifecycle, view: IssueView)
    requires Viewing(w, a, p, view)
    ensures match PostCompletion(p, a, l, view)
            case Halt(r) => Reports(w, a, r)
            case Go(g) => Onward(w, a, g.p, g.view, p.w.seen) && Carries(g.p, g.lifecycle) && CommentSeen(g.p.w.seen, view.id, CommentMarker(a))
                          && g.view.id == view.id && Current(g.p.record).error.None?
  {
    hide Reports, SendCompletion, Since, HasLinkMarker, CommentMarker, Visible;
    var pending := l.(comment := Some(CommentPending), commentMarker := Some(CommentMarker(a)));
    var p1 := Save(p, pending);
    SaveSince(w, p, pending);
    if !p1.w.active {
      Stopping(w, a, p1);
    } else {
      SendReports(w, a, p1, l, view);
    }
  }

  lemma Unproven(w: World, a: SyncArgs, p: Pass, e: SyncError, phase: CommentPhase)
    requires p.w.script != [] ==> Cause(e, w, a, p.w, Current(p.record).(comment := Some(phase), error := Some(e)))
    ensures Reports(w, a, Finish(Save(p, Current(p.record).(comment := Some(phase), error := Some(e))), Some(e)))
  {
    hide Cause;
    SavedCause(w, a, p, Current(p.record).(comment := Some(phase), error := Some(e)), e);
  }

  lemma SendReports(w: World, a: SyncArgs, p: Pass, l: Lifecycle, view: IssueView)
    requires Viewing(w, a, p, view)
    ensures match SendCompletion(p, a, l, view)
            case Halt(r) => Reports(w, a, r)
            case Go(g) => Onward(w, a, g.p, g.view, p.w.seen) && Carries(g.p, g.lifecycle) && CommentSeen(g.p.w.seen, view.id, CommentMarker(a))
                          && g.view.id == view.id && Current(g.p.record).error.None?
  {
    hide Reports, ProveCompletion, Since, HasLinkMarker, CommentMarker, Visible, Send, CompletionComment, Sent;
    var marker := CommentMarker(a);
    var body := CompletionComment(a.facts, marker);
    var (w1, answer) := Post(p.w, a.facts, view.id, marker, body);
    var p1, key := p.(w := w1), CommentKey(a.facts.taskId, view.id, marker);
    SendSince(w, p.w, a.facts, key, PostComment(view.id, marker, body), LateComment(Comment(view.id, Sent(body), key)));
    if answer.Ambiguous? {
      Unproven(w, a, p1, CommentAmbiguous, CommentUnconfirmed);
    } else if answer.Refused? {
      Unproven(w, a, p1, CommentRejected, CommentFailed);
    } else {
      var p2 := p1.(writes := p1.writes + 1);
      if !p2.w.active {
        Stopping(w, a, p2);
      } else {
        ProveCommentReports(w, a, p2, l, view);
      }
    }
  }

  lemma ProveCommentReports(w: World, a: SyncArgs, p: Pass, l: Lifecycle, view: IssueView)
    requires Viewing(w, a, p, view) && JustAsked(w, p.w, Commenting)
    ensures match ProveCompletion(p, l, view.id, CommentMarker(a))
            case Halt(r) => Reports(w, a, r)
            case Go(g) => Onward(w, a, g.p, g.view, p.w.seen) && Carries(g.p, g.lifecycle) && CommentSeen(g.p.w.seen, view.id, CommentMarker(a))
                          && g.view.id == view.id && Current(g.p.record).error.None?
  {
    hide Reports, HasLinkMarker, CommentMarker, Visible, ReadIssue, Since, ReadBackAfter, NoAnswerRead, OwnedIn;
    var marker := CommentMarker(a);
    var (w1, check) := ReadIssue(p.w, view.id);
    var p1 := p.(w := w1);
    ReadSince(w, p.w, view.id, Commenting);
    if check.Some? {
      OwnedStill(p.w.seen, check.value, view.id, a.marker);
      assert p1.w.seen[|p1.w.seen| - 1] == check.value;
    }
    if check.None? || !Visible(check.value.comments, marker) {
      Unproven(w, a, p1, CommentUnverified, CommentUnconfirmed);
    } else {
      SaveSince(w, p1, l.(comment := Some(CommentPosted), commentMarker := Some(marker), error := None));
    }
  }

  lemma CompleteReports(w: World, a: SyncArgs, p: Pass, view: IssueView, changed: bool)
    requires Passing(w, a, p) && Viewing(w, a, p, view) && SectionSeen(p.w.seen, view.id, a.facts) && (changed || Clean(w, p.w, p.record))
    ensures Reports(w, a, Complete(p, a, Current(p.record), view, changed))
  {
    hide Reports, ReconcileComment, PostCompletion, Close, FollowTask, Since, HasLinkMarker, CommentMarker, Visible, AcceptedCompletion, SectionSeen, OwnedIn;
    ReconcileReports(w, a, p, view);
    match ReconcileComment(p, Current(p.record), view)
    case Halt(_) =>
    case Go(s) =>
      SectionStill(p.w.seen, s.p.w.seen, view.id, a.facts);
      if !AcceptedCompletion(a.facts) {
        FollowReports(w, a, s.p, s.lifecycle, view, changed);
      } else if Visible(view.comments, CommentMarker(a)) {
        assert s.p.w.seen[|s.p.w.seen| - 1] == view;
        CloseReports(w, a, s.p, s.lifecycle, view, changed);
      } else {
        PostReports(w, a, s.p, s.lifecycle, view);
        match PostCompletion(s.p, a, s.lifecycle, view)
        case Halt(_) =>
        case Go(g) =>
          SectionStill(s.p.w.seen, g.p.w.seen, view.id, a.facts);
          CloseReports(w, a, g.p, g.lifecycle, g.view, changed);
      }
  }

  /** What the result of a pass over a linked issue says is true, whatever happened meanwhile. Without an error, the
      pass has seen the issue carry the marker line, the managed section in an otherwise unchanged description, the
      comment of an accepted completion and at last the state, and the record says the same and keeps no earlier error
      once something was written to the issue. An error is recorded, and it names what happened at the latest await. The
      pass stops only when the session is gone. */
  lemma PassTellsTheTruth(w: World, a: SyncArgs)
    requires a.record.issueId.Some? && a.facts.status != "deleted"
    ensures Reports(w, a, Sync(w, a))
  {
    hide Reports, Locate, Describe, Complete, Since, HasLinkMarker;
    var p := Pass(w.(seen := []), a.record, false, 0);
    if !w.active {
      Stopping(w, a, p);
    } else {
      LocateReports(w, a, p, a.record.issueId.value);
      match Locate(p, a, a.record.issueId.value)
      case Halt(_) =>
      case Go(l) =>
        DescribeReports(w, a, l.p, l.view);
        match Describe(l.p, a, l.view)
        case Halt(_) =>
        case Go(d) => CompleteReports(w, a, d.p, d.view, d.changed);
    }
  }
}

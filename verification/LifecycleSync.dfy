/** One lifecycle pass over a linked issue, as a function of the world it runs in (extensions/hoja-mode/lifecycle.ts,
    syncTask). `HojaSession.SyncTask` is the step-by-step form; the theorems are about this one. */
module LifecycleSync {
  import opened Wrappers
  import opened JsText
  import opened ManagedBlock
  import opened Markers
  import opened AnswerRevision
  import opened HojaRecords
  import opened HojaServer
  import opened HojaWorld

  const DONE_STATE := "Done"

  datatype SyncArgs = SyncArgs(record: Record, facts: TaskFacts, marker: string, sessionKey: string, project: Option<string>)

  /** The pass so far. `saved` stands for "the record is no longer the object the caller passed in". */
  datatype Pass = Pass(w: World, record: Record, saved: bool, writes: nat)

  datatype SyncResult = SyncResult(w: World, record: Record, saved: bool, stopped: bool, writes: nat, error: Option<SyncError>)

  /** A step of the pass either goes on or ends it. */
  datatype Flow<+T> = Go(value: T) | Halt(result: SyncResult)

  function Finish(p: Pass, error: Option<SyncError>): SyncResult {
    SyncResult(p.w, p.record, p.saved, false, p.writes, error)
  }

  function Stop(p: Pass): SyncResult {
    SyncResult(p.w, p.record, p.saved, true, p.writes, None)
  }

  function SaveRecord(p: Pass, r: Record): Pass {
    p.(w := Journal(p.w, r), record := r, saved := true)
  }

  function Save(p: Pass, l: Lifecycle): Pass {
    SaveRecord(p, p.record.(lifecycle := Some(l)))
  }

  /** A recorded error the model can read; nothing throws. */
  function Fail(p: Pass, reason: SyncError): SyncResult {
    Finish(Save(p, Current(p.record).(error := Some(reason))), Some(reason))
  }

  function StateFor(facts: TaskFacts): string {
    if facts.status == "in_progress" then "In Progress" else "Todo"
  }

  predicate SameState(have: string, want: string) {
    Lower(Trim(have)) == Lower(want)
  }

  predicate Visible(comments: seq<string>, marker: string) {
    exists body | body in comments :: HasAnswerMarker(body, marker)
  }

  function ProjectOf(p: Pass, a: SyncArgs): Option<string> {
    if p.record.project.Some? then p.record.project else a.project
  }

  function CommentMarker(a: SyncArgs): string {
    AnswerMarker(a.sessionKey, a.facts.taskId, RevisionOf(a.facts))
  }

  // ----- 0. read the issue, prove ownership, or work beneath it -----

  datatype Located = Located(p: Pass, lifecycle: Lifecycle, view: IssueView)

  function Locate(p: Pass, a: SyncArgs, issue: nat): Flow<Located> {
    var (w1, read) := ReadIssue(p.w, issue);
    var p1 := p.(w := w1);
    if read.None? then Halt(Fail(p1, SyncReadFailed))
    else
      var view, lifecycle := read.value, Current(p1.record);
      if HasLinkMarker(view.description, a.marker) then Go(Located(p1, lifecycle, view))
      else if lifecycle.scope.Adopted? then WorkBeneath(p1, a, lifecycle, view)
      else Halt(Fail(p1, SharedUnowned))
  }

  /** A shared issue is never written to: the session's work goes into one sub-issue, created once. */
  function WorkBeneath(p: Pass, a: SyncArgs, lifecycle: Lifecycle, view: IssueView): Flow<Located> {
    if lifecycle.subissue == Some(SubissuePending) then Halt(Fail(p, SubissueStillPending))
    else if lifecycle.subissue == Some(SubissueUnconfirmed) then Halt(Fail(p, SubissueStillUnconfirmed))
    else if !Truthy(ProjectOf(p, a)) then Halt(Fail(p, SharedUnowned))
    else if !p.w.active then Halt(Stop(p))
    else
      var (w1, resolution) := Resolve(p.w, ProjectOf(p, a).value);
      if !resolution.ResolvedTo? then Halt(Fail(p.(w := w1), SharedProjectUnresolved))
      else IntendSubissue(p.(w := w1), a, lifecycle, view, resolution.target)
  }

  function PendingSubissue(l: Lifecycle, view: IssueView): Lifecycle {
    l.(subissue := Some(SubissuePending), umbrella := Some(view.identifier))
  }

  /** The durable intent comes before the request. */
  function IntendSubissue(p: Pass, a: SyncArgs, lifecycle: Lifecycle, view: IssueView, target: Resolved): Flow<Located> {
    if target.teamId != view.teamId then Halt(Fail(p, SharedTargetMismatch))
    else
      var p1 := Save(p, PendingSubissue(lifecycle, view));
      if !p1.w.active then Halt(Stop(p1)) else FileSubissue(p1, a, lifecycle, view, target)
  }

  function Unconfirmed(p: Pass, error: SyncError): SyncResult {
    Finish(Save(p, Current(p.record).(subissue := Some(SubissueUnconfirmed), error := Some(error))), Some(error))
  }

  function FileSubissue(p: Pass, a: SyncArgs, lifecycle: Lifecycle, view: IssueView, target: Resolved): Flow<Located> {
    var (w1, answer, child) := Create(p.w, a.facts, SubKey(a.facts.taskId), target, a.facts.subject,
                                      SubissueDescription(a.facts, a.marker), StateFor(a.facts), Some(view.id));
    var p1 := p.(w := w1);
    if answer.Ambiguous? then Halt(Unconfirmed(p1, SubissueAmbiguous))
    else if answer.Refused? then Halt(Fail(p1, SubissueFailed))
    else
      var p2 := p1.(writes := p1.writes + 1);
      if !p2.w.active then Halt(Stop(p2)) else TakeOver(p2, a, lifecycle, view, child)
  }

  /** The sub-issue is the task's own once its read-back proves it. */
  function TakeOver(p: Pass, a: SyncArgs, lifecycle: Lifecycle, view: IssueView, child: nat): Flow<Located> {
    var (w1, read) := ReadIssue(p.w, child);
    var p1 := p.(w := w1);
    if read.None? || !HasLinkMarker(read.value.description, a.marker) || read.value.parent != Some(view.id)
    then Halt(Unconfirmed(p1, SubissueUnverified))
    else
      var owned := lifecycle.(scope := Owned, subissue := None, umbrella := Some(view.identifier));
      Go(Located(SaveRecord(p1, ChildRecord(p1.record, lifecycle, view, read.value)), owned, read.value))
  }

  function ChildRecord(r: Record, lifecycle: Lifecycle, view: IssueView, child: IssueView): Record {
    r.(issueId := Some(child.id), identifier := Some(child.identifier), parentIdentifier := Some(view.identifier),
       lifecycle := Some(lifecycle.(scope := Owned, subissue := None, umbrella := Some(view.identifier))))
  }

  // ----- 1. the managed block -----

  datatype Described = Described(p: Pass, view: IssueView, changed: bool)

  function Describe(p: Pass, a: SyncArgs, view: IssueView): Flow<Described> {
    var desired := MergeManagedDescription(view.description, ManagedSection(a.facts));
    if desired == view.description then Go(Described(p, view, false))
    else if !p.w.active then Halt(Stop(p))
    else
      var (w1, answer) := WriteDescription(p.w, a.facts, view.id, desired);
      var p1 := p.(w := w1);
      if !answer.Accepted? then Halt(Fail(p1, if answer.Ambiguous? then DescriptionAmbiguous else DescriptionFailed))
      else
        var p2 := p1.(writes := p1.writes + 1);
        if !p2.w.active then Halt(Stop(p2)) else ProveDescription(p2, a, view.id, desired)
  }

  /** Exact equality is the proof that the human text survived. */
  function ProveDescription(p: Pass, a: SyncArgs, issue: nat, desired: string): Flow<Described> {
    var (w1, check) := ReadIssue(p.w, issue);
    var p1 := p.(w := w1);
    if check.None? || check.value.description != desired || !Contains(check.value.description, ManagedSection(a.facts))
    then Halt(Fail(p1, DescriptionUnverified))
    else Go(Described(p1, check.value, true))
  }

  // ----- 2. the workflow state -----

  function ApplyState(p: Pass, a: SyncArgs, view: IssueView, target: string): Flow<Described> {
    if SameState(view.state, target) then Go(Described(p, view, false))
    else if !Truthy(ProjectOf(p, a)) then Halt(Fail(p, StateProjectUnknown))
    else if !p.w.active then Halt(Stop(p))
    else
      var (w1, resolution) := Resolve(p.w, ProjectOf(p, a).value);
      var p1 := p.(w := w1);
      if !resolution.ResolvedTo? then Halt(Fail(p1, StateUnresolved))
      else if resolution.target.teamId != view.teamId || resolution.target.projectId != view.projectId
      then Halt(Fail(p1, StateTargetMismatch))
      else if !p1.w.active then Halt(Stop(p1))
      else MoveState(p1, a, view, resolution.target, target)
  }

  function MoveState(p: Pass, a: SyncArgs, view: IssueView, resolved: Resolved, target: string): Flow<Described> {
    var (w1, answer) := WriteState(p.w, a.facts, view.id, resolved, target);
    var p1 := p.(w := w1);
    if !answer.Accepted? then Halt(Fail(p1, if answer.Ambiguous? then StateAmbiguous else StateFailed))
    else
      var p2 := p1.(writes := p1.writes + 1);
      if !p2.w.active then Halt(Stop(p2)) else ProveState(p2, view.id, target)
  }

  /** Every transition is read back. */
  function ProveState(p: Pass, issue: nat, target: string): Flow<Described> {
    var (w1, after) := ReadIssue(p.w, issue);
    var p1 := p.(w := w1);
    if after.None? || !SameState(after.value.state, target) then Halt(Fail(p1, StateUnverified))
    else Go(Described(p1, after.value, true))
  }

  // ----- 3. completion -----

  datatype Settlement = Settlement(p: Pass, lifecycle: Lifecycle)

  /** An earlier comment whose outcome is unknown is proved by its own marker before anything else is posted. */
  function ReconcileComment(p: Pass, lifecycle: Lifecycle, view: IssueView): Flow<Settlement> {
    if !Unresolved(lifecycle) then Go(Settlement(p, lifecycle))
    else if !Truthy(lifecycle.commentMarker) || !Visible(view.comments, lifecycle.commentMarker.value)
    then Halt(Fail(p, if lifecycle.comment == Some(CommentPending) then CommentStillPending else CommentStillUnconfirmed))
    else
      var posted := lifecycle.(comment := Some(CommentPosted));
      Go(Settlement(Save(p, posted.(error := None)), posted))
  }

  function CommentDoubt(p: Pass, error: SyncError): SyncResult {
    Finish(Save(p, Current(p.record).(comment := Some(CommentUnconfirmed), error := Some(error))), Some(error))
  }

  /** Intent, request, read-back. */
  function PostCompletion(p: Pass, a: SyncArgs, lifecycle: Lifecycle, view: IssueView): Flow<Located> {
    var p1 := Save(p, lifecycle.(comment := Some(CommentPending), commentMarker := Some(CommentMarker(a))));
    if !p1.w.active then Halt(Stop(p1)) else SendCompletion(p1, a, lifecycle, view)
  }

  function SendCompletion(p: Pass, a: SyncArgs, lifecycle: Lifecycle, view: IssueView): Flow<Located> {
    var marker := CommentMarker(a);
    var (w1, answer) := Post(p.w, a.facts, view.id, marker, CompletionComment(a.facts, marker));
    var p1 := p.(w := w1);
    if answer.Ambiguous? then Halt(CommentDoubt(p1, CommentAmbiguous))
    else if answer.Refused? then Halt(RefusedComment(p1))
    else
      var p2 := p1.(writes := p1.writes + 1);
      if !p2.w.active then Halt(Stop(p2)) else ProveCompletion(p2, lifecycle, view.id, marker)
  }

  /** The comment counts as posted once it is seen on the issue. */
  function ProveCompletion(p: Pass, lifecycle: Lifecycle, issue: nat, marker: string): Flow<Located> {
    var (w1, check) := ReadIssue(p.w, issue);
    var p1 := p.(w := w1);
    if check.None? || !Visible(check.value.comments, marker) then Halt(CommentDoubt(p1, CommentUnverified))
    else
      var posted := lifecycle.(comment := Some(CommentPosted), commentMarker := Some(marker));
      Go(Located(Save(p1, posted.(error := None)), posted, check.value))
  }

  /** Refused means it was not posted: a later pass may try again. */
  function RefusedComment(p: Pass): SyncResult {
    Finish(Save(p, Current(p.record).(comment := Some(CommentFailed), error := Some(CommentRejected))), Some(CommentRejected))
  }

  /** Not accepted: follow the local state, or say that completion was not accepted. */
  function FollowTask(p: Pass, a: SyncArgs, lifecycle: Lifecycle, view: IssueView, changed: bool): SyncResult {
    if a.facts.status == "completed" then
      Finish(Save(p, lifecycle.(error := Some(CompletionUnaccepted))), Some(CompletionUnaccepted))
    else
      match ApplyState(p, a, view, StateFor(a.facts))
      case Halt(result) => result
      case Go(Described(p1, _, stateChanged)) =>
        if changed || stateChanged || lifecycle.closed
        then Finish(Save(p1, lifecycle.(closed := false, error := None)), None)
        else Finish(p1, None)
  }

  /** Accepted: Done only after this revision's comment is proved present. */
  function Close(p: Pass, a: SyncArgs, lifecycle: Lifecycle, view: IssueView, changed: bool): SyncResult {
    match ApplyState(p, a, view, DONE_STATE)
    case Halt(result) => result
    case Go(Described(p1, _, stateChanged)) =>
      var marker := CommentMarker(a);
      if !changed && !stateChanged && lifecycle.closed && lifecycle.comment == Some(CommentPosted) && lifecycle.commentMarker == Some(marker)
      then Finish(p1, None)
      else Finish(Save(p1, lifecycle.(comment := Some(CommentPosted), commentMarker := Some(marker), closed := true, error := None)), None)
  }

  function Complete(p: Pass, a: SyncArgs, lifecycle: Lifecycle, view: IssueView, changed: bool): SyncResult {
    match ReconcileComment(p, lifecycle, view)
    case Halt(result) => result
    case Go(Settlement(p1, l1)) =>
      if !AcceptedCompletion(a.facts) then FollowTask(p1, a, l1, view, changed)
      else if Visible(view.comments, CommentMarker(a)) then Close(p1, a, l1, view, changed)
      else
        match PostCompletion(p1, a, l1, view)
        case Halt(result) => result
        case Go(Located(p2, l2, view2)) => Close(p2, a, l2, view2, changed)
  }

  /** The whole pass. */
  function Sync(w: World, a: SyncArgs): SyncResult {
    var p := Pass(w.(seen := []), a.record, false, 0);
    if a.record.issueId.None? || a.facts.status == "deleted" then Finish(p, None)
    else if !w.active then Stop(p)
    else
      match Locate(p, a, a.record.issueId.value)
      case Halt(result) => result
      case Go(Located(p1, lifecycle, view)) =>
        match Describe(p1, a, view)
        case Halt(result) => result
        case Go(Described(p2, view2, changed)) => Complete(p2, a, lifecycle, view2, changed)
  }
}

/** Publication of one TaskManage batch, as a function of the world it runs in (extensions/hoja-mode/publish.ts,
    publishBatch). `HojaPublisher.PublishBatch` is the step-by-step form. */
module Publish {
  import opened Wrappers
  import opened JsText
  import opened ManagedBlock
  import opened Markers
  import opened HojaRecords
  import opened HojaServer
  import opened HojaWorld
  import opened LifecycleSync

  /** `metadata.hoja`: a value outside the two known ones is invalid. */
  datatype Flag = NoFlag | MarkPublish | MarkLocal | InvalidFlag
  datatype Meta = Meta(hoja: Flag, hojaIssue: Option<string>, hojaProject: Option<string>, hojaAssignee: Option<string>)
  datatype OpKind = CreateTask | UpdateTask | OtherOp

  /** One TaskManage result with the operation that produced it. */
  datatype Item = Item(succeeded: bool, op: OpKind, facts: TaskFacts, parentTaskId: Option<string>, description: Option<string>, meta: Option<Meta>)

  datatype CandidateKind = ToPublish | ToSync
  datatype Candidate = Candidate(facts: TaskFacts, parentTaskId: Option<string>, description: Option<string>, meta: Meta, kind: CandidateKind)

  const NO_META := Meta(NoFlag, None, None, None)

  datatype Choice = Ignored | RejectedMeta | Chosen(candidate: Candidate)

  predicate TouchesHoja(m: Meta) {
    m.hoja != NoFlag || m.hojaIssue.Some? || m.hojaProject.Some? || m.hojaAssignee.Some?
  }

  /** `...(x ? { x } : {})`: an empty string is left out. */
  function Present(o: Option<string>): Option<string> {
    if Truthy(o) then o else None
  }

  predicate IsLinked(r: Option<Record>) {
    r.Some? && r.value.state == Linked
  }

  function CandidateFor(item: Item, records: Records): Choice {
    var m := item.meta.GetOr(NO_META);
    var previous := Get(records, item.facts.taskId);
    if m.hoja == InvalidFlag then RejectedMeta
    else if m.hoja == MarkLocal then Ignored
    else if item.op == UpdateTask && !TouchesHoja(m) then
      if IsLinked(previous) && previous.value.issueId.Some?
      then Chosen(Candidate(item.facts, item.parentTaskId, None, m, ToSync)) else Ignored
    else if m.hoja == MarkPublish || !Truthy(item.parentTaskId) || m.hojaIssue.Some?
    then Chosen(Candidate(item.facts, item.parentTaskId, item.description, m, ToPublish)) else Ignored
  }

  predicate Considered(item: Item) {
    item.succeeded && item.op != OtherOp && item.facts.taskId != ""
  }

  function Candidates(items: seq<Item>, records: Records): seq<Candidate> {
    if items == [] then []
    else
      var rest, item := Candidates(items[..|items| - 1], records), items[|items| - 1];
      if !Considered(item) then rest
      else
        match CandidateFor(item, records)
        case Chosen(c) => rest + [c]
        case _ => rest
  }

  function RejectedTasks(items: seq<Item>, records: Records): seq<string> {
    if items == [] then []
    else
      var rest, item := RejectedTasks(items[..|items| - 1], records), items[|items| - 1];
      if Considered(item) && CandidateFor(item, records).RejectedMeta? then rest + [item.facts.taskId] else rest
  }

  // ----- the batch so far -----

  datatype Context = Context(enabled: bool, sessionKey: string, project: Option<string>, fallbackProject: Option<string>)

  datatype Batch = Batch(w: World, applied: Records, changed: seq<Record>, blocked: seq<Record>)

  /** A candidate either leaves the batch to go on, or the session is gone. */
  datatype Progress = More(batch: Batch) | Stopped(batch: Batch)

  function SetRecord(b: Batch, r: Record): Batch {
    b.(w := Journal(b.w, r), applied := b.applied[r.taskId := r], changed := b.changed + [r])
  }

  /** Already journaled by the lifecycle pass. */
  function CommitRecord(b: Batch, r: Record): Batch {
    b.(applied := b.applied[r.taskId := r], changed := b.changed + [r])
  }

  predicate Mentions(records: seq<Record>, task: string) {
    exists r | r in records :: r.taskId == task
  }

  function Block(b: Batch, previous: Record): Batch {
    if Mentions(b.blocked, previous.taskId) then b else b.(blocked := b.blocked + [previous])
  }

  // ----- 1. resolve writes whose outcome is unknown -----

  /** What a read-back must prove before an issue is taken for the one this task meant to create. */
  predicate ReadbackMatches(view: IssueView, marker: string, projectId: Option<string>, parent: Option<nat>) {
    HasLinkMarker(view.description, marker) && (Truthy(projectId) ==> view.projectId == projectId.value) && parent == view.parent
  }

  /** The record of a task whose lost create was found. */
  function Reconciled(previous: Record, view: IssueView): Record {
    Bare(previous.taskId, Linked).(
      issueId := Some(view.id), identifier := Some(view.identifier), project := previous.project, marker := previous.marker,
      projectId := Present(previous.projectId), parentIdentifier := Present(view.parentIdentifier))
  }

  function ReconcileOne(b: Batch, previous: Record): Progress {
    if previous.state != Reconciling || !Truthy(previous.marker) then More(b)
    else if !b.w.active then Stopped(b)
    else
      var (w1, lookup) := FindByMarker(b.w, previous.marker.value);
      var b1 := b.(w := w1);
      if !lookup.Hit? then More(Block(b1, previous))
      else if !b1.w.active then Stopped(b1)
      else
        var (w2, read) := ReadIssue(b1.w, lookup.id);
        var b2 := b1.(w := w2);
        if read.None? || !ReadbackMatches(read.value, previous.marker.value, previous.projectId, previous.expectedParent)
        then More(Block(b2, previous))
        else
          More(SetRecord(b2, Reconciled(previous, read.value)))
  }

  function ReconcileAll(b: Batch, pending: seq<Record>): Progress {
    if pending == [] then More(b)
    else
      match ReconcileAll(b, pending[..|pending| - 1])
      case Stopped(b1) => Stopped(b1)
      case More(b1) => ReconcileOne(b1, pending[|pending| - 1])
  }

  // ----- 2. sync or adopt -----

  function ArgsFor(linked: Record, facts: TaskFacts, ctx: Context): SyncArgs {
    SyncArgs(linked, facts, TaskMarker(ctx.sessionKey, facts.taskId), ctx.sessionKey,
             if linked.project.Some? then linked.project else ctx.project)
  }

  function SyncLinked(b: Batch, linked: Record, facts: TaskFacts, ctx: Context): Progress {
    var r := Sync(b.w, ArgsFor(linked, facts, ctx));
    var b1 := b.(w := r.w);
    if r.stopped then Stopped(b1) else if r.saved then More(CommitRecord(b1, r.record)) else More(b1)
  }

  predicate Digit(c: char) {
    '0' <= c <= '9'
  }

  predicate UpperOrDigit(c: char) {
    'A' <= c <= 'Z' || Digit(c)
  }

  /** `/^[A-Z0-9]+-\d+$/`. */
  predicate IsIdentifier(s: string) {
    var dash := IndexOf(s, "-");
    && dash.Some? && 0 < dash.value && dash.value + 1 < |s|
    && (forall c | c in s[..dash.value] :: UpperOrDigit(c))
    && (forall c | c in s[dash.value + 1..] :: Digit(c))
  }

  /** The linked record remembers that this issue belongs to someone else. */
  function AdoptedRecord(c: Candidate, id: nat, identifier: string): Record {
    Bare(c.facts.taskId, Linked).(issueId := Some(id), identifier := Some(identifier), project := c.meta.hojaProject,
                                  lifecycle := Some(Begin(Adopted)))
  }

  function AdoptNamed(b: Batch, c: Candidate, ctx: Context, named: string): Progress {
    var task, wanted := c.facts.taskId, Upper(Trim(named));
    if !IsIdentifier(wanted) then More(SetRecord(b, Because(task, Skipped, InvalidHojaIssue)))
    else
      var (w1, lookup) := FindByIdentifier(b.w, wanted);
      var b1 := b.(w := w1);
      match lookup
      case NoAnswer => More(SetRecord(b1, Because(task, Failed, LookupFailed).(identifier := Some(wanted))))
      case NoHit => More(SetRecord(b1, Because(task, Failed, IssueNotFound).(identifier := Some(wanted))))
      case Hit(id, identifier) =>
        if Upper(identifier) != wanted
        then More(SetRecord(b1, Because(task, Failed, IdentifierMismatch).(identifier := Some(wanted))))
        else
          var adopted := AdoptedRecord(c, id, identifier);
          var b2 := SetRecord(b1, adopted);
          var r := Sync(b2.w, ArgsFor(adopted, c.facts, ctx));
          if r.stopped then Stopped(b2.(w := r.w)) else More(CommitRecord(b2.(w := r.w), r.record))
  }

  // ----- 3. create -----

  function Add(names: seq<string>, name: Option<string>): seq<string> {
    var trimmed := Trim(name.GetOr(""));
    if trimmed == "" || trimmed in names then names else names + [trimmed]
  }

  /** The declared project names in order, trimmed, without repetition. */
  function ProjectNames(c: Candidate, ctx: Context): seq<string> {
    Add(Add(Add([], c.meta.hojaProject), ctx.project), ctx.fallbackProject)
  }

  datatype Selection = Selected(target: Resolved) | NothingResolves | SessionGone

  /** Only an unknown project falls through to the next declared name. */
  function ResolveFirst(w: World, names: seq<string>): (World, Selection)
    decreases |names|
  {
    if names == [] then (w, NothingResolves)
    else
      var (w1, resolution) := Resolve(w, names[0]);
      match resolution
      case ResolvedTo(target) => (w1, Selected(target))
      case ResolveFailed => (w1, NothingResolves)
      case Unknown => if !w1.active then (w1, SessionGone) else ResolveFirst(w1, names[1..])
  }

  function NamedProject(c: Candidate): Option<string> {
    var name := Trim(c.meta.hojaProject.GetOr(""));
    if name == "" then None else Some(name)
  }

  function Substituted(c: Candidate, resolved: Resolved): Option<string> {
    var named := NamedProject(c);
    if named.Some? && Lower(Trim(resolved.project)) != Lower(named.value) then named else None
  }

  function FileNew(b: Batch, c: Candidate, ctx: Context): Progress {
    var task, names := c.facts.taskId, ProjectNames(c, ctx);
    if names == [] then More(SetRecord(b, Because(task, Skipped, NoProject)))
    else
      var (w1, selection) := ResolveFirst(b.w, names);
      var b1 := b.(w := w1);
      match selection
      case SessionGone => Stopped(b1)
      case NothingResolves =>
        More(SetRecord(b1, Because(task, Failed, ProjectUnresolved).(
          project := Some(names[0]), substitutedFrom := if |names| > 1 then NamedProject(c) else None)))
      case Selected(target) => FileIn(b1, c, ctx, target)
  }

  function ParentOf(b: Batch, c: Candidate): Option<Record> {
    if Truthy(c.parentTaskId) then Get(b.applied, c.parentTaskId.value) else None
  }

  /** The pre-write intent: everything reconciliation needs. */
  function Intent(task: string, reason: Reason, marker: string, target: Resolved, parent: Option<nat>): Record {
    Because(task, Reconciling, reason).(marker := Some(marker), project := Some(target.project), projectId := Some(target.projectId), expectedParent := parent)
  }

  function RootState(c: Candidate): string {
    if c.facts.status == "in_progress" then "In Progress" else "Todo"
  }

  function RootDescription(c: Candidate, ctx: Context): string {
    IssueDescription(c.description, c.facts.taskId, ctx.sessionKey, TaskMarker(ctx.sessionKey, c.facts.taskId), ManagedSection(c.facts))
  }

  function ParentIssue(b: Batch, c: Candidate): Option<nat> {
    var parent := ParentOf(b, c);
    if IsLinked(parent) then parent.value.issueId else None
  }

  /** A promoted step is never filed as a root: without a published parent it is deferred. */
  function FileIn(b: Batch, c: Candidate, ctx: Context, target: Resolved): Progress {
    var task := c.facts.taskId;
    if Lower(RootState(c)) !in target.states
    then More(SetRecord(b, Because(task, Skipped, StateUnavailable).(project := Some(target.project))))
    else if Truthy(c.parentTaskId) && ParentIssue(b, c).None?
    then More(SetRecord(b, Because(task, Skipped, ParentUnpublished).(project := Some(target.project))))
    else
      var b1 := SetRecord(b, Intent(task, WriteInFlight, TaskMarker(ctx.sessionKey, task), target, ParentIssue(b, c)));
      if !b1.w.active then Stopped(b1) else CreateRoot(b1, c, ctx, target, ParentIssue(b, c), ParentOf(b, c))
  }

  function SendRoot(w: World, c: Candidate, ctx: Context, target: Resolved, parentIssue: Option<nat>): (World, Answer, nat) {
    Create(w, c.facts, RootKey(c.facts.taskId), target, c.facts.subject, RootDescription(c, ctx), RootState(c), parentIssue)
  }

  function CreateRoot(b: Batch, c: Candidate, ctx: Context, target: Resolved, parentIssue: Option<nat>, parent: Option<Record>): Progress {
    var task, marker := c.facts.taskId, TaskMarker(ctx.sessionKey, c.facts.taskId);
    var (w1, answer, id) := SendRoot(b.w, c, ctx, target, parentIssue);
    var b1 := b.(w := w1);
    match answer
    case Ambiguous => More(SetRecord(b1, Intent(task, AmbiguousWrite, marker, target, parentIssue)))
    case Refused => More(SetRecord(b1, Because(task, Failed, CreateFailed).(project := Some(target.project))))
    case Accepted => if !b1.w.active then Stopped(b1) else ReadBack(b1, c, ctx, target, parentIssue, id, parent)
  }

  /** The identifier the create answered with. */
  function CreatedIdentifier(w: World, id: nat): Option<string> {
    if id < |w.server.issues| then Some(w.server.issues[id].identifier) else None
  }

  function LinkRecord(c: Candidate, view: IssueView, target: Resolved, parent: Option<Record>): Record {
    var above := if view.parentIdentifier.Some? then view.parentIdentifier else if parent.Some? then parent.value.identifier else None;
    Bare(c.facts.taskId, Linked).(
      issueId := Some(view.id), identifier := Some(view.identifier), project := Some(target.project),
      parentIdentifier := Present(above), substitutedFrom := Substituted(c, target), lifecycle := Some(Begin(Owned)))
  }

  function ReadBack(b: Batch, c: Candidate, ctx: Context, target: Resolved, parentIssue: Option<nat>, id: nat, parent: Option<Record>): Progress {
    var marker := TaskMarker(ctx.sessionKey, c.facts.taskId);
    var doubt := Intent(c.facts.taskId, ReadbackUnverified, marker, target, parentIssue).(issueId := Some(id), identifier := CreatedIdentifier(b.w, id));
    var (w1, read) := ReadIssue(b.w, id);
    var b1 := b.(w := w1);
    if read.None? then More(SetRecord(b1, doubt))
    else if !ReadbackMatches(read.value, marker, Some(target.projectId), parentIssue)
    then More(SetRecord(b1, doubt.(reason := Some(ReadbackMismatch))))
    else
      var linked := LinkRecord(c, read.value, target, parent);
      SyncLinked(SetRecord(b1, linked), linked, c.facts, ctx)
  }

  // ----- one candidate, all candidates, the batch -----

  function PublishOne(b: Batch, c: Candidate, ctx: Context): Progress {
    var previous := Get(b.applied, c.facts.taskId);
    if !b.w.active then Stopped(b)
    else if c.kind.ToSync? then
      if IsLinked(previous) && previous.value.issueId.Some? then SyncLinked(b, previous.value, c.facts, ctx) else More(b)
    else if IsLinked(previous) then SyncLinked(b, previous.value, c.facts, ctx)
    else if c.meta.hojaIssue.Some? then AdoptNamed(b, c, ctx, c.meta.hojaIssue.value)
    else if previous.Some? && previous.value.state == Reconciling then More(Block(b, previous.value))
    else FileNew(b, c, ctx)
  }

  function PublishAll(b: Batch, cs: seq<Candidate>, ctx: Context): Progress {
    if cs == [] then More(b)
    else
      match PublishAll(b, cs[..|cs| - 1], ctx)
      case Stopped(b1) => Stopped(b1)
      case More(b1) => PublishOne(b1, cs[|cs| - 1], ctx)
  }

  function RejectAll(b: Batch, tasks: seq<string>): Batch {
    if tasks == [] then b
    else SetRecord(RejectAll(b, tasks[..|tasks| - 1]), Because(tasks[|tasks| - 1], Skipped, InvalidHojaMetadata))
  }

  /** `order` lists the values of `records` in the order the runtime enumerates them. */
  function PublishBatch(w: World, items: seq<Item>, records: Records, order: seq<Record>, ctx: Context): Progress {
    var b := Batch(w, records, [], []);
    if !ctx.enabled then More(b)
    else if !w.active then Stopped(b)
    else
      match ReconcileAll(b, order)
      case Stopped(b1) => Stopped(b1)
      case More(b1) =>
        if !b1.w.active then Stopped(b1)
        else PublishAll(RejectAll(b1, RejectedTasks(items, b1.applied)), Candidates(items, b1.applied), ctx)
  }
}

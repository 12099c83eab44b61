/** A publication batch keeps the invariants of every task, and the associations it returns are the journal's. */
module HojaPublishSafety {
  import opened Wrappers
  import opened JsText
  import opened ManagedBlock
  import opened Markers
  import opened HojaRecords
  import opened HojaServer
  import opened HojaWorld
  import opened LifecycleSync
  import opened Publish
  import opened HojaSafety
  import opened HojaLifecycleSafety

  /** Safe, and while the session lives the watched task's association is the journal's. */
  ghost predicate BatchOk(watched: string, b: Batch) {
    Safe(watched, b.w) && Keyed(b.applied) && (b.w.active ==> Get(b.applied, watched) == Newest(b.w, watched))
  }

  ghost predicate ProgressOk(watched: string, g: Progress) {
    match g
    case More(b) => BatchOk(watched, b)
    case Stopped(b) => Safe(watched, b.w) && !b.w.active
  }

  // ----- setting a record -----

  lemma SetKeeps(watched: string, b: Batch, r: Record)
    requires BatchOk(watched, b) && r.taskId != ""
    requires b.w.active && r.taskId == watched ==>
               && Allowed(Get(b.applied, watched), r)
               && TaskInv(watched, b.w.server, b.w.asked, Some(r), FateAfter(FateOf(b.w.journal, watched), Get(b.applied, watched), r))
    ensures BatchOk(watched, SetRecord(b, r))
  {
    hide Safe, Allowed, TaskInv, FateAfter, FateOf;
    JournalKeeps(watched, b.w, r);
  }

  /** No root issue exists or may still appear, unless an unconfirmed one was given up earlier. */
  ghost predicate RootFree(watched: string, b: Batch, task: string) {
    var f := FateOf(b.w.journal, watched);
    b.w.active && watched == task && !f.unlinked && !f.forgotten ==> Total(b.w.server, RootKey(task)) == 0
  }

  predicate Unlinked(b: Batch, task: string) {
    !IsLinked(Get(b.applied, task))
  }

  /** A task that is not linked owes no comment and has no sub-issue: only its root issue constrains the next record. */
  lemma FromUnlinked(task: string, s: Server, asked: seq<Audit>, d: Option<Record>, r: Record, f: Fate)
    requires TaskInv(task, s, asked, d, f) && !IsLinked(d)
    requires r.reason == Some(CreateFailed) && !f.unlinked && !f.forgotten ==> HoldsAssociation(Some(r)) || Total(s, RootKey(task)) == 0
    ensures TaskInv(task, s, asked, Some(r), FateAfter(f, d, r))
  {
    if !f.unlinked {
      forall issue: nat, m: string ensures CommentAccounted(task, s, Some(r), issue, m) {
        assert CommentAccounted(task, s, d, issue, m);
      }
      NothingAtHomeYet(task, s, d, r);
    }
  }

  lemma NothingAtHomeYet(task: string, s: Server, d: Option<Record>, r: Record)
    requires !IsLinked(d)
    ensures HomeInv(task, s, d) ==> HomeInv(task, s, Some(r))
  {
    if HomeInv(task, s, d) {
      forall issue: nat, m: string ensures AtHome(task, s, Some(r), issue, m) {
        assert AtHome(task, s, d, issue, m);
      }
    }
  }

  lemma SetUnlinked(watched: string, b: Batch, r: Record)
    requires BatchOk(watched, b) && r.taskId != "" && !IsLinked(Get(b.applied, r.taskId)) && Allowed(Get(b.applied, r.taskId), r)
    requires r.reason == Some(CreateFailed) && !HoldsAssociation(Some(r)) ==> RootFree(watched, b, r.taskId)
    ensures BatchOk(watched, SetRecord(b, r))
  {
    hide TaskInv, Allowed, FateAfter, FateOf, JournalAllowed;
    if b.w.active && r.taskId == watched {
      FromUnlinked(watched, b.w.server, b.w.asked, Newest(b.w, watched), r, FateOf(b.w.journal, watched));
    }
    SetKeeps(watched, b, r);
  }

  /** An invalid flag overwrites any record; what it gives up, the journal shows. */
  lemma SetInvalid(watched: string, b: Batch, task: string)
    requires BatchOk(watched, b) && task != ""
    ensures BatchOk(watched, SetRecord(b, Because(task, Skipped, InvalidHojaMetadata)))
  {
    var r := Because(task, Skipped, InvalidHojaMetadata);
    if Unlinked(b, task) {
      SetUnlinked(watched, b, r);
    } else {
      SetKeeps(watched, b, r);
    }
  }

  // ----- waiting -----

  lemma AwaitBatch(watched: string, b: Batch, task: string)
    requires BatchOk(watched, b)
    ensures var b1 := b.(w := Await(b.w));
            BatchOk(watched, b1) && (RootFree(watched, b, task) ==> RootFree(watched, b1, task)) && (b1.w.active ==> b.w.active)
  {
    AwaitKeeps(watched, b.w);
    assert RootKey(task) != OtherKey;
  }

  lemma ReadBatch(watched: string, b: Batch, id: nat, task: string)
    requires BatchOk(watched, b)
    ensures var b1 := b.(w := ReadIssue(b.w, id).0);
            BatchOk(watched, b1) && (RootFree(watched, b, task) ==> RootFree(watched, b1, task))
  {
    AwaitBatch(watched, b, task);
  }

  // ----- 1. reconciling -----

  lemma ReconcileOneKeeps(watched: string, b: Batch, previous: Record)
    requires BatchOk(watched, b) && previous.taskId != "" && Get(b.applied, previous.taskId) == Some(previous)
    ensures ProgressOk(watched, ReconcileOne(b, previous))
  {
    hide Safe, BatchOk, SetRecord, ReadIssue, ReadbackMatches, Reconciled, Evolve, Contains, Block;
    BatchIsSafe(watched, b);
    if previous.state == Reconciling && Truthy(previous.marker) && b.w.active {
      var (w1, lookup) := FindByMarker(b.w, previous.marker.value);
      var b1 := b.(w := w1);
      AwaitBatch(watched, b, previous.taskId);
      BatchIsSafe(watched, b1);
      BlockIsOk(watched, b1, previous);
      if lookup.Hit? && b1.w.active {
        var (w2, read) := ReadIssue(b1.w, lookup.id);
        ReadBatch(watched, b1, lookup.id, previous.taskId);
        BlockIsOk(watched, b1.(w := w2), previous);
        if read.Some? {
          var r := Reconciled(previous, read.value);
          ReconciledIsAllowed(previous, read.value);
          SetUnlinked(watched, b1.(w := w2), r);
        }
      }
    }
  }

  lemma BlockIsOk(watched: string, b: Batch, previous: Record)
    requires BatchOk(watched, b)
    ensures BatchOk(watched, Block(b, previous))
  {
  }

  lemma ReconciledIsAllowed(previous: Record, view: IssueView)
    requires previous.state == Reconciling
    ensures var r := Reconciled(previous, view);
            r.taskId == previous.taskId && r.state == Linked && r.reason.None? && Allowed(Some(previous), r)
  {
  }

  lemma ReconcileOneTouches(b: Batch, previous: Record)
    ensures ReconcileOne(b, previous).More? ==> forall t | t != previous.taskId :: Get(ReconcileOne(b, previous).batch.applied, t) == Get(b.applied, t)
  {
    hide Evolve, ReadbackMatches, Contains;
  }

  predicate Distinct(order: seq<Record>) {
    forall i, j | 0 <= i < j < |order| :: order[i].taskId != order[j].taskId
  }

  lemma {:induction false} ReconcileAllKeeps(watched: string, b: Batch, pending: seq<Record>)
    requires BatchOk(watched, b) && Distinct(pending)
    requires forall r | r in pending :: Get(b.applied, r.taskId) == Some(r)
    ensures ProgressOk(watched, ReconcileAll(b, pending))
    ensures ReconcileAll(b, pending).More? ==>
              forall t | (forall r | r in pending :: r.taskId != t) :: Get(ReconcileAll(b, pending).batch.applied, t) == Get(b.applied, t)
  {
    if pending != [] {
      var n := |pending| - 1;
      ReconcileAllKeeps(watched, b, pending[..n]);
      var first := ReconcileAll(b, pending[..n]);
      if first.More? {
        assert pending[n] in pending;
        assert forall r | r in pending[..n] :: r.taskId != pending[n].taskId;
        ReconcileOneKeeps(watched, first.batch, pending[n]);
        ReconcileOneTouches(first.batch, pending[n]);
      }
    }
  }

  // ----- 2. syncing and adopting -----

  lemma SyncLinkedKeeps(watched: string, b: Batch, linked: Record, facts: TaskFacts, ctx: Context)
    requires BatchOk(watched, b) && facts.taskId != "" && Get(b.applied, facts.taskId) == Some(linked) && linked.state == Linked
    ensures ProgressOk(watched, SyncLinked(b, linked, facts, ctx))
  {
    SyncReported(watched, b, linked, facts, ctx);
    hide Sync, Safe;
  }

  lemma SyncReported(watched: string, b: Batch, linked: Record, facts: TaskFacts, ctx: Context)
    requires BatchOk(watched, b) && facts.taskId != "" && Get(b.applied, facts.taskId) == Some(linked) && linked.state == Linked
    ensures var r := Sync(b.w, ArgsFor(linked, facts, ctx));
            && Safe(watched, r.w) && (r.stopped ==> !r.w.active)
            && BatchOk(watched, CommitRecord(b.(w := r.w), r.record)) && (!r.saved ==> BatchOk(watched, b.(w := r.w)))
  {
    hide Sync, Safe;
    SyncKeeps(watched, b.w, ArgsFor(linked, facts, ctx), Get(b.applied, watched));
  }

  lemma AdoptNamedKeeps(watched: string, b: Batch, c: Candidate, ctx: Context, named: string)
    requires BatchOk(watched, b) && c.facts.taskId != "" && Unlinked(b, c.facts.taskId)
    ensures ProgressOk(watched, AdoptNamed(b, c, ctx, named))
  {
    var task, wanted := c.facts.taskId, Upper(Trim(named));
    hide Safe, BatchOk, Sync, IsIdentifier, Upper, Trim, FindByIdentifier, SetRecord, CommitRecord;
    if !IsIdentifier(wanted) {
      NamedFailureKeeps(watched, b, Because(task, Skipped, InvalidHojaIssue));
    } else {
      var (w1, lookup) := FindByIdentifier(b.w, wanted);
      var b1 := b.(w := w1);
      FindKeeps(watched, b, wanted);
      match lookup
      case NoAnswer => NamedFailureKeeps(watched, b1, Because(task, Failed, LookupFailed).(identifier := Some(wanted)));
      case NoHit => NamedFailureKeeps(watched, b1, Because(task, Failed, IssueNotFound).(identifier := Some(wanted)));
      case Hit(id, identifier) =>
        if Upper(identifier) != wanted {
          NamedFailureKeeps(watched, b1, Because(task, Failed, IdentifierMismatch).(identifier := Some(wanted)));
        } else {
          AdoptKeeps(watched, b1, AdoptedRecord(c, id, identifier), c, ctx);
        }
    }
  }

  lemma FindKeeps(watched: string, b: Batch, wanted: string)
    requires BatchOk(watched, b)
    ensures BatchOk(watched, b.(w := FindByIdentifier(b.w, wanted).0))
  {
    AwaitBatch(watched, b, watched);
  }

  /** A named issue that cannot be adopted overwrites even an unconfirmed create; the journal shows it. */
  lemma NamedFailureKeeps(watched: string, b: Batch, r: Record)
    requires BatchOk(watched, b) && r.taskId != "" && Unlinked(b, r.taskId) && r.reason.Some? && r.reason.value in NAMED_FAILURES
    ensures BatchOk(watched, SetRecord(b, r))
  {
    hide BatchOk, SetRecord;
    SetUnlinked(watched, b, r);
  }

  lemma AdoptKeeps(watched: string, b: Batch, adopted: Record, c: Candidate, ctx: Context)
    requires BatchOk(watched, b) && c.facts.taskId != "" && Unlinked(b, c.facts.taskId)
    requires adopted.taskId == c.facts.taskId && adopted.state == Linked && adopted.reason.None?
    ensures var b2 := SetRecord(b, adopted);
            var r := Sync(b2.w, ArgsFor(adopted, c.facts, ctx));
            && Safe(watched, r.w) && (r.stopped ==> !r.w.active) && BatchOk(watched, CommitRecord(b2.(w := r.w), r.record))
  {
    hide BatchOk, Safe, Sync;
    SetUnlinked(watched, b, adopted);
    SyncReported(watched, SetRecord(b, adopted), adopted, c.facts, ctx);
  }

  // ----- 3. creating -----

  /** Where a creation starts: the task has no association. */
  ghost predicate MayCreate(watched: string, b: Batch, task: string) {
    BatchOk(watched, b) && task != "" && !HoldsAssociation(Get(b.applied, task))
  }

  lemma SetFailure(watched: string, b: Batch, r: Record)
    requires MayCreate(watched, b, r.taskId) && r.reason != Some(CreateFailed)
    ensures BatchOk(watched, SetRecord(b, r))
  {
    SetUnlinked(watched, b, r);
  }

  lemma {:induction false} ResolveFirstKeeps(watched: string, b: Batch, names: seq<string>, task: string)
    requires MayCreate(watched, b, task)
    ensures var (w1, selection) := ResolveFirst(b.w, names);
            MayCreate(watched, b.(w := w1), task) && (selection.SessionGone? ==> !w1.active)
    decreases |names|
  {
    if names != [] {
      AwaitBatch(watched, b, task);
      var (w1, resolution) := Resolve(b.w, names[0]);
      if resolution.Unknown? && w1.active {
        ResolveFirstKeeps(watched, b.(w := w1), names[1..], task);
      }
    }
  }

  lemma FileNewKeeps(watched: string, b: Batch, c: Candidate, ctx: Context)
    requires MayCreate(watched, b, c.facts.taskId)
    ensures ProgressOk(watched, FileNew(b, c, ctx))
  {
    var task, names := c.facts.taskId, ProjectNames(c, ctx);
    hide Safe, FileIn, BatchOk, MayCreate, ResolveFirst, SetRecord, ProjectNames, NamedProject;
    if names == [] {
      SetFailure(watched, b, Because(task, Skipped, NoProject));
    } else {
      ResolveFirstKeeps(watched, b, names, task);
      var (w1, selection) := ResolveFirst(b.w, names);
      var b1 := b.(w := w1);
      match selection
      case SessionGone => GoneIsSafe(watched, b1, task);
      case NothingResolves =>
        SetFailure(watched, b1, Because(task, Failed, ProjectUnresolved).(
          project := Some(names[0]), substitutedFrom := if |names| > 1 then NamedProject(c) else None));
      case Selected(target) => FileInKeeps(watched, b1, c, ctx, target);
    }
  }

  lemma GoneIsSafe(watched: string, b: Batch, task: string)
    requires MayCreate(watched, b, task)
    ensures Safe(watched, b.w)
  {
  }

  lemma FileInKeeps(watched: string, b: Batch, c: Candidate, ctx: Context, target: Resolved)
    requires MayCreate(watched, b, c.facts.taskId)
    ensures ProgressOk(watched, FileIn(b, c, ctx, target))
  {
    var task := c.facts.taskId;
    hide Safe, BatchOk, MayCreate, SetRecord, CreateRoot, ParentOf;
    SetFailure(watched, b, Because(task, Skipped, StateUnavailable).(project := Some(target.project)));
    SetFailure(watched, b, Because(task, Skipped, ParentUnpublished).(project := Some(target.project)));
    var parentIssue := ParentIssue(b, c);
    var b1 := SetRecord(b, Intent(task, WriteInFlight, TaskMarker(ctx.sessionKey, task), target, parentIssue));
    IntentKeeps(watched, b, c, ctx, target, parentIssue);
    if b1.w.active {
      CreateRootKeeps(watched, b1, c, ctx, target, parentIssue, ParentOf(b, c));
    } else {
      BatchIsSafe(watched, b1);
    }
  }

  lemma BatchIsSafe(watched: string, b: Batch)
    requires BatchOk(watched, b)
    ensures Safe(watched, b.w)
  {
  }

  /** The intent is journaled and nothing has left yet. */
  ghost predicate Intended(watched: string, b: Batch, c: Candidate, ctx: Context, target: Resolved, parentIssue: Option<nat>) {
    && BatchOk(watched, b) && RootFree(watched, b, c.facts.taskId) && c.facts.taskId != ""
    && Get(b.applied, c.facts.taskId) == Some(Intent(c.facts.taskId, WriteInFlight, TaskMarker(ctx.sessionKey, c.facts.taskId), target, parentIssue))
  }

  lemma IntentKeeps(watched: string, b: Batch, c: Candidate, ctx: Context, target: Resolved, parentIssue: Option<nat>)
    requires MayCreate(watched, b, c.facts.taskId)
    ensures var b1 := SetRecord(b, Intent(c.facts.taskId, WriteInFlight, TaskMarker(ctx.sessionKey, c.facts.taskId), target, parentIssue));
            BatchOk(watched, b1) && Intended(watched, b1, c, ctx, target, parentIssue)
  {
    hide TaskMarker, Safe;
    NoRootYet(watched, b, c.facts.taskId);
    var r := Intent(c.facts.taskId, WriteInFlight, TaskMarker(ctx.sessionKey, c.facts.taskId), target, parentIssue);
    SetUnlinked(watched, b, r);
    if b.w.active {
      JournaledFate(b.w, r, watched);
    }
  }

  /** Without an association there is no root issue. */
  lemma NoRootYet(watched: string, b: Batch, task: string)
    requires MayCreate(watched, b, task)
    ensures RootFree(watched, b, task) && (b.w.active && task == watched ==> !HoldsAssociation(Newest(b.w, watched)))
  {
  }

  /** Recording an intent for a task without an association gives nothing up. */
  lemma JournaledFate(w: World, r: Record, watched: string)
    requires w.active && r.taskId != "" && r.state != Linked && (r.taskId == watched ==> !HoldsAssociation(Newest(w, watched)))
    ensures FateOf(Journal(w, r).journal, watched) == FateOf(w.journal, watched)
  {
    assert (w.journal + [Link(r)])[..|w.journal|] == w.journal;
  }

  /** After the request: the intent is still the newest record, and a refusal means there is still no root issue. */
  ghost predicate Requested(watched: string, b: Batch, c: Candidate, ctx: Context, target: Resolved, parentIssue: Option<nat>, refused: bool) {
    && BatchOk(watched, b) && c.facts.taskId != "" && (refused ==> RootFree(watched, b, c.facts.taskId))
    && Get(b.applied, c.facts.taskId) == Some(Intent(c.facts.taskId, WriteInFlight, TaskMarker(ctx.sessionKey, c.facts.taskId), target, parentIssue))
  }

  lemma RootLeaves(watched: string, b: Batch, c: Candidate, ctx: Context, target: Resolved, parentIssue: Option<nat>)
    requires Intended(watched, b, c, ctx, target, parentIssue) && b.w.active
    ensures var (w1, answer, _) := SendRoot(b.w, c, ctx, target, parentIssue);
            Requested(watched, b.(w := w1), c, ctx, target, parentIssue, answer.Refused?)
  {
    var task, state := c.facts.taskId, RootState(c);
    if Lower(state) in target.states {
      var key, description := RootKey(task), RootDescription(c, ctx);
      var request := CreateIssue(target, c.facts.subject, description, state, parentIssue);
      var write := LateIssue(NewIssue(NextTick(b.w).name, target, description, state, parentIssue, key));
      hide RootDescription, RootState;
      SendKeeps(watched, b.w, c.facts, key, request, write);
      SendChanges(b.w, c.facts, key, request, write);
    }
  }

  lemma CreateRootKeeps(watched: string, b: Batch, c: Candidate, ctx: Context, target: Resolved, parentIssue: Option<nat>, parent: Option<Record>)
    requires Intended(watched, b, c, ctx, target, parentIssue) && b.w.active
    ensures ProgressOk(watched, CreateRoot(b, c, ctx, target, parentIssue, parent))
  {
    RootLeaves(watched, b, c, ctx, target, parentIssue);
    var (w1, answer, id) := SendRoot(b.w, c, ctx, target, parentIssue);
    var b1, task, marker := b.(w := w1), c.facts.taskId, TaskMarker(ctx.sessionKey, c.facts.taskId);
    hide Safe, SendRoot, BatchOk, Requested, SetRecord, ReadBack, TaskMarker;
    match answer
    case Ambiguous => AnswerSet(watched, b1, c, ctx, target, parentIssue, false, Intent(task, AmbiguousWrite, marker, target, parentIssue));
    case Refused => AnswerSet(watched, b1, c, ctx, target, parentIssue, true, Because(task, Failed, CreateFailed).(project := Some(target.project)));
    case Accepted =>
      if b1.w.active {
        ReadBackKeeps(watched, b1, c, ctx, target, parentIssue, id, parent);
      } else {
        RequestedIsSafe(watched, b1, c, ctx, target, parentIssue, false);
      }
  }

  lemma RequestedIsSafe(watched: string, b: Batch, c: Candidate, ctx: Context, target: Resolved, parentIssue: Option<nat>, refused: bool)
    requires Requested(watched, b, c, ctx, target, parentIssue, refused)
    ensures Safe(watched, b.w)
  {
  }

  /** What may be recorded after the request: the same doubt, a link, or a refusal when nothing was created. */
  lemma AnswerSet(watched: string, b: Batch, c: Candidate, ctx: Context, target: Resolved, parentIssue: Option<nat>, refused: bool, r: Record)
    requires Requested(watched, b, c, ctx, target, parentIssue, refused) && r.taskId == c.facts.taskId
    requires HoldsAssociation(Some(r)) || (refused && r.reason == Some(CreateFailed))
    ensures BatchOk(watched, SetRecord(b, r))
  {
    SetUnlinked(watched, b, r);
  }

  lemma ReadBackKeeps(watched: string, b: Batch, c: Candidate, ctx: Context, target: Resolved, parentIssue: Option<nat>, id: nat, parent: Option<Record>)
    requires Requested(watched, b, c, ctx, target, parentIssue, false)
    ensures ProgressOk(watched, ReadBack(b, c, ctx, target, parentIssue, id, parent))
  {
    var task, marker := c.facts.taskId, TaskMarker(ctx.sessionKey, c.facts.taskId);
    var (w1, read) := ReadIssue(b.w, id);
    var b1 := b.(w := w1);
    RequestedRead(watched, b, c, ctx, target, parentIssue, id);
    hide Safe, BatchOk, Requested, SyncLinked, ReadbackMatches, Present, CreatedIdentifier, Substituted, TaskMarker, ReadIssue, SetRecord;
    var doubt := Intent(task, ReadbackUnverified, marker, target, parentIssue).(issueId := Some(id), identifier := CreatedIdentifier(b.w, id));
    if read.None? {
      AnswerSet(watched, b1, c, ctx, target, parentIssue, false, doubt);
    } else if !ReadbackMatches(read.value, marker, Some(target.projectId), parentIssue) {
      AnswerSet(watched, b1, c, ctx, target, parentIssue, false, doubt.(reason := Some(ReadbackMismatch)));
    } else {
      LinkKeeps(watched, b1, c, ctx, target, parentIssue, LinkRecord(c, read.value, target, parent));
    }
  }

  lemma RequestedRead(watched: string, b: Batch, c: Candidate, ctx: Context, target: Resolved, parentIssue: Option<nat>, id: nat)
    requires Requested(watched, b, c, ctx, target, parentIssue, false)
    ensures Requested(watched, b.(w := ReadIssue(b.w, id).0), c, ctx, target, parentIssue, false)
  {
    hide BatchOk, TaskMarker;
    ReadBatch(watched, b, id, c.facts.taskId);
  }

  lemma LinkKeeps(watched: string, b: Batch, c: Candidate, ctx: Context, target: Resolved, parentIssue: Option<nat>, linked: Record)
    requires Requested(watched, b, c, ctx, target, parentIssue, false) && linked.taskId == c.facts.taskId && linked.state == Linked
    ensures ProgressOk(watched, SyncLinked(SetRecord(b, linked), linked, c.facts, ctx))
  {
    AnswerSet(watched, b, c, ctx, target, parentIssue, false, linked);
    hide BatchOk, SyncLinked, TaskMarker;
    SyncLinkedKeeps(watched, SetRecord(b, linked), linked, c.facts, ctx);
  }

  // ----- one candidate, all candidates, the batch -----

  lemma PublishOneKeeps(watched: string, b: Batch, c: Candidate, ctx: Context)
    requires BatchOk(watched, b) && c.facts.taskId != ""
    ensures ProgressOk(watched, PublishOne(b, c, ctx))
  {
    var task := c.facts.taskId;
    var previous := Get(b.applied, task);
    if !b.w.active {
    } else if IsLinked(previous) {
      SyncLinkedKeeps(watched, b, previous.value, c.facts, ctx);
    } else if c.kind.ToPublish? {
      if c.meta.hojaIssue.Some? {
        AdoptNamedKeeps(watched, b, c, ctx, c.meta.hojaIssue.value);
      } else if !(previous.Some? && previous.value.state == Reconciling) {
        FileNewKeeps(watched, b, c, ctx);
      }
    }
  }

  lemma {:induction false} PublishAllKeeps(watched: string, b: Batch, cs: seq<Candidate>, ctx: Context)
    requires BatchOk(watched, b) && forall c | c in cs :: c.facts.taskId != ""
    ensures ProgressOk(watched, PublishAll(b, cs, ctx))
  {
    if cs != [] {
      var n := |cs| - 1;
      PublishAllKeeps(watched, b, cs[..n], ctx);
      assert cs[n] in cs;
      var first := PublishAll(b, cs[..n], ctx);
      if first.More? {
        PublishOneKeeps(watched, first.batch, cs[n], ctx);
      }
    }
  }

  lemma {:induction false} RejectAllKeeps(watched: string, b: Batch, tasks: seq<string>)
    requires BatchOk(watched, b) && "" !in tasks
    ensures BatchOk(watched, RejectAll(b, tasks))
  {
    if tasks != [] {
      var n := |tasks| - 1;
      RejectAllKeeps(watched, b, tasks[..n]);
      assert tasks[n] in tasks;
      SetInvalid(watched, RejectAll(b, tasks[..n]), tasks[n]);
    }
  }

  /** The values of the association map, each once. */
  predicate Enumerates(order: seq<Record>, records: Records) {
    && Distinct(order) && (forall r | r in order :: Get(records, r.taskId) == Some(r))
    && forall t | t in records :: records[t] in order
  }

  /** One batch, whatever its operations say, from memory that agrees with the journal on the watched task: its
      invariants survive, and while the session lives memory and journal agree on it again. */
  lemma PublishBatchKeeps(watched: string, w: World, items: seq<Item>, records: Records, order: seq<Record>, ctx: Context)
    requires Safe(watched, w) && Keyed(records) && Enumerates(order, records)
    requires w.active ==> Get(records, watched) == Newest(w, watched)
    ensures ProgressOk(watched, PublishBatch(w, items, records, order, ctx))
  {
    var b := Batch(w, records, [], []);
    assert BatchOk(watched, b);
    if ctx.enabled && w.active {
      assert forall r | r in order :: r.taskId in records && r.taskId != "";
      ReconcileAllKeeps(watched, b, order);
      var first := ReconcileAll(b, order);
      if first.More? && first.batch.w.active {
        CandidatesAreNamed(items, first.batch.applied);
        RejectAllKeeps(watched, first.batch, RejectedTasks(items, first.batch.applied));
        PublishAllKeeps(watched, RejectAll(first.batch, RejectedTasks(items, first.batch.applied)), Candidates(items, first.batch.applied), ctx);
      }
    }
  }
}

/** Why each request of a batch left, over any associations that memory files under their own tasks. */
module HojaBatchJustified {
  import opened Wrappers
  import opened JsText
  import opened ManagedBlock
  import opened Markers
  import opened HojaRecords
  import opened HojaServer
  import opened HojaWorld
  import opened LifecycleSync
  import opened Publish
  import opened HojaSafety
  import opened HojaJustified

  // ----- elementary steps -----

  /** Memory files every record under its own task; it need not be the journal's. */
  ghost predicate BatchAudited(b: Batch, sessionKey: string) {
    Audited(b.w, sessionKey) && Keyed(b.applied)
  }

  lemma SetAudited(b: Batch, r: Record, sessionKey: string)
    requires BatchAudited(b, sessionKey) && r.taskId != ""
    ensures BatchAudited(SetRecord(b, r), sessionKey)
    ensures b.w.active ==> Newest(SetRecord(b, r).w, r.taskId) == Some(r)
  {
    hide Audited;
    SaveAudited(b.w, r, sessionKey);
    ReplayAppend(b.w.journal, r);
  }

  lemma AwaitBatchAudited(b: Batch, sessionKey: string)
    requires BatchAudited(b, sessionKey)
    ensures BatchAudited(b.(w := Await(b.w)), sessionKey)
  {
    AwaitAudited(b.w, sessionKey);
  }

  lemma ReadBatchAudited(b: Batch, id: nat, sessionKey: string)
    requires BatchAudited(b, sessionKey)
    ensures BatchAudited(b.(w := ReadIssue(b.w, id).0), sessionKey)
  {
    hide Audited;
    AwaitAudited(b.w, sessionKey);
    SeenAudited(Await(b.w), ReadIssue(b.w, id).0.seen, sessionKey);
  }

  lemma ReconcileOneAudited(b: Batch, previous: Record, sessionKey: string)
    requires BatchAudited(b, sessionKey) && previous.taskId != ""
    ensures BatchAudited(ReconcileOne(b, previous).batch, sessionKey)
  {
    hide BatchAudited, SetRecord, ReadbackMatches, Contains, Evolve;
    if previous.state == Reconciling && Truthy(previous.marker) && b.w.active {
      var (w1, lookup) := FindByMarker(b.w, previous.marker.value);
      var b1 := b.(w := w1);
      AwaitBatchAudited(b, sessionKey);
      BlockAudited(b1, previous, sessionKey);
      if lookup.Hit? {
        var (w2, read) := ReadIssue(b1.w, lookup.id);
        ReadBatchAudited(b1, lookup.id, sessionKey);
        BlockAudited(b1.(w := w2), previous, sessionKey);
        if read.Some? {
          SetAudited(b1.(w := w2), Reconciled(previous, read.value), sessionKey);
        }
      }
    }
  }

  lemma BlockAudited(b: Batch, previous: Record, sessionKey: string)
    requires BatchAudited(b, sessionKey)
    ensures BatchAudited(Block(b, previous), sessionKey)
  {
  }

  lemma {:induction false} ReconcileAllAudited(b: Batch, pending: seq<Record>, sessionKey: string)
    requires BatchAudited(b, sessionKey) && forall r | r in pending :: r.taskId != ""
    ensures BatchAudited(ReconcileAll(b, pending).batch, sessionKey)
  {
    hide BatchAudited;
    if pending != [] {
      var n := |pending| - 1;
      assert pending[n] in pending;
      ReconcileAllAudited(b, pending[..n], sessionKey);
      ReconcileOneAudited(ReconcileAll(b, pending[..n]).batch, pending[n], sessionKey);
    }
  }

  lemma SyncReportedAudited(b: Batch, linked: Record, facts: TaskFacts, ctx: Context)
    requires BatchAudited(b, ctx.sessionKey) && linked.taskId == facts.taskId != "" && linked.state == Linked
    ensures var r := Sync(b.w, ArgsFor(linked, facts, ctx));
            && BatchAudited(b.(w := r.w), ctx.sessionKey) && BatchAudited(CommitRecord(b.(w := r.w), r.record), ctx.sessionKey)
  {
    hide Audited, Sync;
    SyncAudited(b.w, ArgsFor(linked, facts, ctx), ctx.sessionKey);
  }

  lemma SyncLinkedAudited(b: Batch, linked: Record, facts: TaskFacts, ctx: Context)
    requires BatchAudited(b, ctx.sessionKey) && linked.taskId == facts.taskId != "" && linked.state == Linked
    ensures BatchAudited(SyncLinked(b, linked, facts, ctx).batch, ctx.sessionKey)
  {
    hide BatchAudited, Sync;
    SyncReportedAudited(b, linked, facts, ctx);
  }

  lemma AdoptNamedAudited(b: Batch, c: Candidate, ctx: Context, named: string)
    requires BatchAudited(b, ctx.sessionKey) && c.facts.taskId != ""
    ensures BatchAudited(AdoptNamed(b, c, ctx, named).batch, ctx.sessionKey)
  {
    hide BatchAudited, SetRecord, Sync, IsIdentifier, Upper, Trim, Evolve, CommitRecord;
    var task, wanted := c.facts.taskId, Upper(Trim(named));
    if !IsIdentifier(wanted) {
      SetAudited(b, Because(task, Skipped, InvalidHojaIssue), ctx.sessionKey);
    } else {
      var (w1, lookup) := FindByIdentifier(b.w, wanted);
      var b1 := b.(w := w1);
      AwaitBatchAudited(b, ctx.sessionKey);
      match lookup
      case NoAnswer => SetAudited(b1, Because(task, Failed, LookupFailed).(identifier := Some(wanted)), ctx.sessionKey);
      case NoHit => SetAudited(b1, Because(task, Failed, IssueNotFound).(identifier := Some(wanted)), ctx.sessionKey);
      case Hit(id, identifier) =>
        if Upper(identifier) != wanted {
          SetAudited(b1, Because(task, Failed, IdentifierMismatch).(identifier := Some(wanted)), ctx.sessionKey);
        } else {
          var adopted := AdoptedRecord(c, id, identifier);
          SetAudited(b1, adopted, ctx.sessionKey);
          SyncReportedAudited(SetRecord(b1, adopted), adopted, c.facts, ctx);
        }
    }
  }

  lemma {:induction false} ResolveFirstAudited(b: Batch, names: seq<string>, sessionKey: string)
    requires BatchAudited(b, sessionKey)
    ensures BatchAudited(b.(w := ResolveFirst(b.w, names).0), sessionKey)
    decreases |names|
  {
    hide BatchAudited, Evolve, Lower, Trim;
    if names != [] {
      AwaitBatchAudited(b, sessionKey);
      var (w1, resolution) := Resolve(b.w, names[0]);
      if resolution.Unknown? && w1.active {
        ResolveFirstAudited(b.(w := w1), names[1..], sessionKey);
      }
    }
  }

  lemma FileNewAudited(b: Batch, c: Candidate, ctx: Context)
    requires BatchAudited(b, ctx.sessionKey) && c.facts.taskId != ""
    ensures BatchAudited(FileNew(b, c, ctx).batch, ctx.sessionKey)
  {
    hide BatchAudited, SetRecord, ResolveFirst, FileIn, ProjectNames, NamedProject;
    var task, names := c.facts.taskId, ProjectNames(c, ctx);
    if names == [] {
      SetAudited(b, Because(task, Skipped, NoProject), ctx.sessionKey);
    } else {
      var (w1, selection) := ResolveFirst(b.w, names);
      var b1 := b.(w := w1);
      ResolveFirstAudited(b, names, ctx.sessionKey);
      match selection
      case SessionGone =>
      case NothingResolves =>
        SetAudited(b1, Because(task, Failed, ProjectUnresolved).(
          project := Some(names[0]), substitutedFrom := if |names| > 1 then NamedProject(c) else None), ctx.sessionKey);
      case Selected(target) => FileInAudited(b1, c, ctx, target);
    }
  }

  lemma FileInAudited(b: Batch, c: Candidate, ctx: Context, target: Resolved)
    requires BatchAudited(b, ctx.sessionKey) && c.facts.taskId != ""
    ensures BatchAudited(FileIn(b, c, ctx, target).batch, ctx.sessionKey)
  {
    hide BatchAudited, SetRecord, CreateRoot, ParentOf, ParentIssue, TaskMarker, RootState;
    var task := c.facts.taskId;
    SetAudited(b, Because(task, Skipped, StateUnavailable).(project := Some(target.project)), ctx.sessionKey);
    SetAudited(b, Because(task, Skipped, ParentUnpublished).(project := Some(target.project)), ctx.sessionKey);
    var intent := Intent(task, WriteInFlight, TaskMarker(ctx.sessionKey, task), target, ParentIssue(b, c));
    var b1 := SetRecord(b, intent);
    SetAudited(b, intent, ctx.sessionKey);
    if b1.w.active {
      SetActive(b, intent);
      CreateRootAudited(b1, c, ctx, target, ParentIssue(b, c), ParentOf(b, c));
    }
  }

  lemma SetActive(b: Batch, r: Record)
    ensures SetRecord(b, r).w.active == b.w.active
  {
  }

  lemma CreateRootAudited(b: Batch, c: Candidate, ctx: Context, target: Resolved, parentIssue: Option<nat>, parent: Option<Record>)
    requires BatchAudited(b, ctx.sessionKey) && c.facts.taskId != "" && b.w.active
    requires Newest(b.w, c.facts.taskId) == Some(Intent(c.facts.taskId, WriteInFlight, TaskMarker(ctx.sessionKey, c.facts.taskId), target, parentIssue))
    ensures BatchAudited(CreateRoot(b, c, ctx, target, parentIssue, parent).batch, ctx.sessionKey)
  {
    hide BatchAudited, SetRecord, SendRoot, ReadBack, TaskMarker;
    var task, marker := c.facts.taskId, TaskMarker(ctx.sessionKey, c.facts.taskId);
    var (w1, answer, id) := SendRoot(b.w, c, ctx, target, parentIssue);
    var b1 := b.(w := w1);
    RootLeaves(b, c, ctx, target, parentIssue);
    match answer
    case Ambiguous => SetAudited(b1, Intent(task, AmbiguousWrite, marker, target, parentIssue), ctx.sessionKey);
    case Refused => SetAudited(b1, Because(task, Failed, CreateFailed).(project := Some(target.project)), ctx.sessionKey);
    case Accepted => ReadBackAudited(b1, c, ctx, target, parentIssue, id, parent);
  }

  lemma RootLeaves(b: Batch, c: Candidate, ctx: Context, target: Resolved, parentIssue: Option<nat>)
    requires BatchAudited(b, ctx.sessionKey) && b.w.active
    requires Newest(b.w, c.facts.taskId) == Some(Intent(c.facts.taskId, WriteInFlight, TaskMarker(ctx.sessionKey, c.facts.taskId), target, parentIssue))
    ensures BatchAudited(b.(w := SendRoot(b.w, c, ctx, target, parentIssue).0), ctx.sessionKey)
  {
    hide Audited, TaskMarker, IssueDescription, ManagedSection, HasLinkMarker, EndsWith, Send, Total;
    RootIsWritten(c.description, c.facts, ctx.sessionKey);
    var key, state, description := RootKey(c.facts.taskId), RootState(c), RootDescription(c, ctx);
    if Lower(state) in target.states {
      SendAudited(b.w, c.facts, key, CreateIssue(target, c.facts.subject, description, state, parentIssue),
                  LateIssue(NewIssue(NextTick(b.w).name, target, description, state, parentIssue, key)), ctx.sessionKey);
    }
  }

  lemma ReadBackAudited(b: Batch, c: Candidate, ctx: Context, target: Resolved, parentIssue: Option<nat>, id: nat, parent: Option<Record>)
    requires BatchAudited(b, ctx.sessionKey) && c.facts.taskId != ""
    ensures BatchAudited(ReadBack(b, c, ctx, target, parentIssue, id, parent).batch, ctx.sessionKey)
  {
    hide BatchAudited, SetRecord, SyncLinked, ReadbackMatches, TaskMarker, Present, Substituted, CreatedIdentifier, ReadIssue;
    var task, marker := c.facts.taskId, TaskMarker(ctx.sessionKey, c.facts.taskId);
    var doubt := Intent(task, ReadbackUnverified, marker, target, parentIssue).(issueId := Some(id), identifier := CreatedIdentifier(b.w, id));
    var (w1, read) := ReadIssue(b.w, id);
    var b1 := b.(w := w1);
    ReadBatchAudited(b, id, ctx.sessionKey);
    if read.None? {
      SetAudited(b1, doubt, ctx.sessionKey);
    } else if !ReadbackMatches(read.value, marker, Some(target.projectId), parentIssue) {
      SetAudited(b1, doubt.(reason := Some(ReadbackMismatch)), ctx.sessionKey);
    } else {
      var linked := LinkRecord(c, read.value, target, parent);
      SetAudited(b1, linked, ctx.sessionKey);
      SyncLinkedAudited(SetRecord(b1, linked), linked, c.facts, ctx);
    }
  }

  lemma PublishOneAudited(b: Batch, c: Candidate, ctx: Context)
    requires BatchAudited(b, ctx.sessionKey) && c.facts.taskId != ""
    ensures BatchAudited(PublishOne(b, c, ctx).batch, ctx.sessionKey)
  {
    hide Audited, SyncLinked, AdoptNamed, FileNew;
    var previous := Get(b.applied, c.facts.taskId);
    if IsLinked(previous) {
      SyncLinkedAudited(b, previous.value, c.facts, ctx);
    }
    if c.meta.hojaIssue.Some? {
      AdoptNamedAudited(b, c, ctx, c.meta.hojaIssue.value);
    }
    FileNewAudited(b, c, ctx);
  }

  lemma {:induction false} PublishAllAudited(b: Batch, cs: seq<Candidate>, ctx: Context)
    requires BatchAudited(b, ctx.sessionKey) && forall c | c in cs :: c.facts.taskId != ""
    ensures BatchAudited(PublishAll(b, cs, ctx).batch, ctx.sessionKey)
  {
    hide BatchAudited, PublishOne;
    if cs != [] {
      var n := |cs| - 1;
      assert cs[n] in cs;
      PublishAllAudited(b, cs[..n], ctx);
      PublishOneAudited(PublishAll(b, cs[..n], ctx).batch, cs[n], ctx);
    }
  }

  lemma {:induction false} RejectAllAudited(b: Batch, tasks: seq<string>, sessionKey: string)
    requires BatchAudited(b, sessionKey) && "" !in tasks
    ensures BatchAudited(RejectAll(b, tasks), sessionKey)
  {
    hide BatchAudited, SetRecord;
    if tasks != [] {
      var n := |tasks| - 1;
      assert tasks[n] in tasks;
      RejectAllAudited(b, tasks[..n], sessionKey);
      SetAudited(RejectAll(b, tasks[..n]), Because(tasks[n], Skipped, InvalidHojaMetadata), sessionKey);
    }
  }

  /** One batch, from whatever memory and whatever operations. */
  lemma PublishBatchAudited(w: World, items: seq<Item>, records: Records, order: seq<Record>, ctx: Context)
    requires Audited(w, ctx.sessionKey) && Keyed(records) && forall r | r in order :: r.taskId != ""
    ensures BatchAudited(PublishBatch(w, items, records, order, ctx).batch, ctx.sessionKey)
  {
    var b := Batch(w, records, [], []);
    assert BatchAudited(b, ctx.sessionKey);
    hide BatchAudited, Audited, ReconcileAll, RejectAll, PublishAll, Candidates, RejectedTasks;
    if ctx.enabled && w.active {
      ReconcileAllAudited(b, order, ctx.sessionKey);
      var b1 := ReconcileAll(b, order).batch;
      CandidatesAreNamed(items, b1.applied);
      RejectAllAudited(b1, RejectedTasks(items, b1.applied), ctx.sessionKey);
      PublishAllAudited(RejectAll(b1, RejectedTasks(items, b1.applied)), Candidates(items, b1.applied), ctx);
    }
  }
}

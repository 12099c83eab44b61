/** What is left alone: a deleted task by a pass, and a task by everything a batch does for other tasks. */
module HojaUntouched {
  import opened Wrappers
  import opened JsText
  import opened ManagedBlock
  import opened Markers
  import opened HojaRecords
  import opened HojaServer
  import opened HojaWorld
  import opened LifecycleSync
  import opened Publish
  import opened HojaSafety
  import opened HojaLinks

  /** A deleted task's issue is never touched, nor anything else: whatever would happen at the awaits, a pass over it has
      none. The same holds of a record without an issue. */
  lemma DeletedIsLeftAlone(w: World, a: SyncArgs)
    requires a.facts.status == "deleted" || a.record.issueId.None?
    ensures var r := Sync(w, a);
            && r.w == w.(seen := []) && r.record == a.record && !r.saved && !r.stopped && r.writes == 0 && r.error.None?
  {
    hide Locate, Describe, Complete;
  }

  // ----- what is done for other tasks -----

  /** Since `from`, nothing was journaled, asked for, changed or blocked for the task. */
  predicate Left(from: Batch, b: Batch, task: string) {
    && Keyed(b.applied) && Get(b.applied, task) == Get(from.applied, task)
    && from.w.journal <= b.w.journal
    && (forall i | |from.w.journal| <= i < |b.w.journal| && b.w.journal[i].Link? :: b.w.journal[i].record.taskId != task)
    && from.w.asked <= b.w.asked
    && (forall i | |from.w.asked| <= i < |b.w.asked| :: b.w.asked[i].facts.taskId != task)
    && (forall r | r in b.blocked && r.taskId == task :: r in from.blocked) && (forall r | r in from.blocked :: r in b.blocked)
    && (forall r | r in b.changed && r.taskId == task :: r in from.changed) && (forall r | r in from.changed :: r in b.changed)
  }

  lemma NothingYet(b: Batch, task: string)
    requires Keyed(b.applied)
    ensures Left(b, b, task)
  {
  }

  lemma Waits(from: Batch, b: Batch, w: World, task: string)
    requires Left(from, b, task) && w.journal == b.w.journal && w.asked == b.w.asked
    ensures Left(from, b.(w := w), task)
  {
  }

  lemma Asks(from: Batch, b: Batch, w: World, own: string, task: string)
    requires Left(from, b, task) && w.journal == b.w.journal && OnlyAsks(b.w.asked, w.asked, own) && own != task
    ensures Left(from, b.(w := w), task)
  {
  }

  lemma Sets(from: Batch, b: Batch, r: Record, task: string)
    requires Left(from, b, task) && r.taskId != task && r.taskId != ""
    ensures Left(from, SetRecord(b, r), task)
  {
  }

  lemma Blocks(from: Batch, b: Batch, previous: Record, task: string)
    requires Left(from, b, task) && previous.taskId != task
    ensures Left(from, Block(b, previous), task)
  {
  }

  lemma Passes(from: Batch, b: Batch, linked: Record, facts: TaskFacts, ctx: Context, task: string)
    requires Left(from, b, task) && LinkedAs(linked, facts.taskId) && facts.taskId != task && facts.taskId != ""
    ensures var r := Sync(b.w, ArgsFor(linked, facts, ctx));
            Left(from, b.(w := r.w), task) && Left(from, CommitRecord(b.(w := r.w), r.record), task)
  {
    hide Sync;
    SyncLinks(b.w, ArgsFor(linked, facts, ctx), facts.taskId);
    JournalsOther(from, b, Sync(b.w, ArgsFor(linked, facts, ctx)).w, facts.taskId, task);
    Commits(from, b.(w := Sync(b.w, ArgsFor(linked, facts, ctx)).w), Sync(b.w, ArgsFor(linked, facts, ctx)).record, task);
  }

  lemma JournalsOther(from: Batch, b: Batch, w: World, own: string, task: string)
    requires Left(from, b, task) && OnlyLinks(b.w.journal, w.journal, own) && OnlyAsks(b.w.asked, w.asked, own) && own != task
    ensures Left(from, b.(w := w), task)
  {
    forall i | |from.w.journal| <= i < |w.journal| && w.journal[i].Link? ensures w.journal[i].record.taskId != task {
      assert i < |b.w.journal| ==> w.journal[i] == b.w.journal[i];
    }
    forall i | |from.w.asked| <= i < |w.asked| ensures w.asked[i].facts.taskId != task {
      assert i < |b.w.asked| ==> w.asked[i] == b.w.asked[i];
    }
  }

  lemma Commits(from: Batch, b: Batch, r: Record, task: string)
    requires Left(from, b, task) && r.taskId != task && r.taskId != ""
    ensures Left(from, CommitRecord(b, r), task)
  {
  }

  lemma SyncLinkedLeaves(from: Batch, b: Batch, linked: Record, facts: TaskFacts, ctx: Context, task: string)
    requires Left(from, b, task) && LinkedAs(linked, facts.taskId) && facts.taskId != task && facts.taskId != ""
    ensures Left(from, SyncLinked(b, linked, facts, ctx).batch, task)
  {
    hide Left, Sync;
    Passes(from, b, linked, facts, ctx, task);
  }

  // ----- the operations -----

  lemma AdoptNamedLeaves(from: Batch, b: Batch, c: Candidate, ctx: Context, named: string, task: string)
    requires Left(from, b, task) && c.facts.taskId != task && c.facts.taskId != ""
    ensures Left(from, AdoptNamed(b, c, ctx, named).batch, task)
  {
    hide Left, SetRecord, Sync, FindByIdentifier, IsIdentifier, Upper, Trim;
    var own, wanted := c.facts.taskId, Upper(Trim(named));
    if !IsIdentifier(wanted) {
      Sets(from, b, Because(own, Skipped, InvalidHojaIssue), task);
    } else {
      var (w1, lookup) := FindByIdentifier(b.w, wanted);
      var b1 := b.(w := w1);
      LooksUp(from, b, wanted, task);
      match lookup
      case NoAnswer => Sets(from, b1, Because(own, Failed, LookupFailed).(identifier := Some(wanted)), task);
      case NoHit => Sets(from, b1, Because(own, Failed, IssueNotFound).(identifier := Some(wanted)), task);
      case Hit(id, identifier) =>
        if Upper(identifier) != wanted {
          Sets(from, b1, Because(own, Failed, IdentifierMismatch).(identifier := Some(wanted)), task);
        } else {
          var adopted := AdoptedRecord(c, id, identifier);
          Sets(from, b1, adopted, task);
          Passes(from, SetRecord(b1, adopted), adopted, c.facts, ctx, task);
        }
    }
  }

  lemma LooksUp(from: Batch, b: Batch, wanted: string, task: string)
    requires Left(from, b, task)
    ensures Left(from, b.(w := FindByIdentifier(b.w, wanted).0), task)
  {
    hide Left, Evolve;
    Waits(from, b, FindByIdentifier(b.w, wanted).0, task);
  }

  lemma {:induction false} ResolveAsksNothing(w: World, names: seq<string>)
    ensures var w1 := ResolveFirst(w, names).0; w1.journal == w.journal && w1.asked == w.asked
    decreases |names|
  {
    if names != [] {
      ResolveAsksNothing(Resolve(w, names[0]).0, names[1..]);
    }
  }

  lemma FileNewLeaves(from: Batch, b: Batch, c: Candidate, ctx: Context, task: string)
    requires Left(from, b, task) && c.facts.taskId != task && c.facts.taskId != ""
    ensures Left(from, FileNew(b, c, ctx).batch, task)
  {
    hide Left, SetRecord, FileIn, ResolveFirst, ProjectNames, NamedProject;
    var own, names := c.facts.taskId, ProjectNames(c, ctx);
    Sets(from, b, Because(own, Skipped, NoProject), task);
    if names != [] {
      ResolveAsksNothing(b.w, names);
      var (w1, selection) := ResolveFirst(b.w, names);
      var b1 := b.(w := w1);
      Waits(from, b, w1, task);
      Sets(from, b1, Because(own, Failed, ProjectUnresolved).(
        project := Some(names[0]), substitutedFrom := if |names| > 1 then NamedProject(c) else None), task);
      if selection.Selected? {
        FileInLeaves(from, b1, c, ctx, selection.target, task);
      }
    }
  }

  lemma FileInLeaves(from: Batch, b: Batch, c: Candidate, ctx: Context, target: Resolved, task: string)
    requires Left(from, b, task) && c.facts.taskId != task && c.facts.taskId != ""
    ensures Left(from, FileIn(b, c, ctx, target).batch, task)
  {
    hide Left, SetRecord, CreateRoot, TaskMarker, RootState, Lower, ParentIssue, ParentOf;
    var own := c.facts.taskId;
    Sets(from, b, Because(own, Skipped, StateUnavailable).(project := Some(target.project)), task);
    Sets(from, b, Because(own, Skipped, ParentUnpublished).(project := Some(target.project)), task);
    var intent := Intent(own, WriteInFlight, TaskMarker(ctx.sessionKey, own), target, ParentIssue(b, c));
    Sets(from, b, intent, task);
    CreateRootLeaves(from, SetRecord(b, intent), c, ctx, target, ParentIssue(b, c), ParentOf(b, c), task);
  }

  lemma SendAsksOwn(w: World, c: Candidate, ctx: Context, target: Resolved, parentIssue: Option<nat>)
    ensures var w1 := SendRoot(w, c, ctx, target, parentIssue).0; w1.journal == w.journal && OnlyAsks(w.asked, w1.asked, c.facts.taskId)
  {
    hide Evolve, Settle, RootDescription, RootState, Lower;
  }

  lemma CreateRootLeaves(from: Batch, b: Batch, c: Candidate, ctx: Context, target: Resolved, parentIssue: Option<nat>, parent: Option<Record>, task: string)
    requires Left(from, b, task) && c.facts.taskId != task && c.facts.taskId != ""
    ensures Left(from, CreateRoot(b, c, ctx, target, parentIssue, parent).batch, task)
  {
    hide Left, SetRecord, SendRoot, ReadBack, TaskMarker, OnlyAsks;
    var own, marker := c.facts.taskId, TaskMarker(ctx.sessionKey, c.facts.taskId);
    SendAsksOwn(b.w, c, ctx, target, parentIssue);
    var (w1, answer, id) := SendRoot(b.w, c, ctx, target, parentIssue);
    var b1 := b.(w := w1);
    Asks(from, b, w1, own, task);
    Sets(from, b1, Intent(own, AmbiguousWrite, marker, target, parentIssue), task);
    Sets(from, b1, Because(own, Failed, CreateFailed).(project := Some(target.project)), task);
    ReadBackLeaves(from, b1, c, ctx, target, parentIssue, id, parent, task);
  }

  lemma ReadBackLeaves(from: Batch, b: Batch, c: Candidate, ctx: Context, target: Resolved, parentIssue: Option<nat>, id: nat,
                       parent: Option<Record>, task: string)
    requires Left(from, b, task) && c.facts.taskId != task && c.facts.taskId != ""
    ensures Left(from, ReadBack(b, c, ctx, target, parentIssue, id, parent).batch, task)
  {
    hide Left, SetRecord, SyncLinked, Evolve, TaskMarker, ReadbackMatches, CreatedIdentifier, Substituted;
    var marker := TaskMarker(ctx.sessionKey, c.facts.taskId);
    var doubt := Intent(c.facts.taskId, ReadbackUnverified, marker, target, parentIssue).(issueId := Some(id), identifier := CreatedIdentifier(b.w, id));
    var (w1, read) := ReadIssue(b.w, id);
    var b1 := b.(w := w1);
    Waits(from, b, w1, task);
    Sets(from, b1, doubt, task);
    Sets(from, b1, doubt.(reason := Some(ReadbackMismatch)), task);
    if read.Some? {
      var linked := LinkRecord(c, read.value, target, parent);
      Sets(from, b1, linked, task);
      SyncLinkedLeaves(from, SetRecord(b1, linked), linked, c.facts, ctx, task);
    }
  }

  lemma PublishOneLeaves(from: Batch, b: Batch, c: Candidate, ctx: Context, task: string)
    requires Left(from, b, task) && c.facts.taskId != task && c.facts.taskId != ""
    ensures Left(from, PublishOne(b, c, ctx).batch, task)
  {
    hide SyncLinked, AdoptNamed, FileNew, Block;
    var previous := Get(b.applied, c.facts.taskId);
    if IsLinked(previous) {
      SyncLinkedLeaves(from, b, previous.value, c.facts, ctx, task);
    } else if c.kind.ToPublish? {
      if c.meta.hojaIssue.Some? {
        AdoptNamedLeaves(from, b, c, ctx, c.meta.hojaIssue.value, task);
      } else if previous.Some? && previous.value.state == Reconciling {
        Blocks(from, b, previous.value, task);
      } else {
        FileNewLeaves(from, b, c, ctx, task);
      }
    }
  }

  lemma {:induction false} PublishAllLeaves(from: Batch, b: Batch, cs: seq<Candidate>, ctx: Context, task: string)
    requires Left(from, b, task) && forall c | c in cs :: c.facts.taskId != task && c.facts.taskId != ""
    ensures Left(from, PublishAll(b, cs, ctx).batch, task)
    decreases |cs|
  {
    hide Left, PublishOne;
    if cs != [] {
      var n := |cs| - 1;
      PublishAllLeaves(from, b, cs[..n], ctx, task);
      assert cs[n] in cs;
      var first := PublishAll(b, cs[..n], ctx);
      if first.More? {
        PublishOneLeaves(from, first.batch, cs[n], ctx, task);
      }
    }
  }

  lemma {:induction false} RejectAllLeaves(from: Batch, b: Batch, tasks: seq<string>, task: string)
    requires Left(from, b, task) && task !in tasks && "" !in tasks
    ensures Left(from, RejectAll(b, tasks), task)
    decreases |tasks|
  {
    hide Left, SetRecord;
    if tasks != [] {
      var n := |tasks| - 1;
      RejectAllLeaves(from, b, tasks[..n], task);
      assert tasks[n] in tasks;
      Sets(from, RejectAll(b, tasks[..n]), Because(tasks[n], Skipped, InvalidHojaMetadata), task);
    }
  }

  lemma ReconcileOneLeaves(from: Batch, b: Batch, previous: Record, task: string)
    requires Left(from, b, task) && previous.taskId != "" && (previous.taskId == task ==> !Pending(previous))
    ensures Left(from, ReconcileOne(b, previous).batch, task)
  {
    hide Left, SetRecord, ReadbackMatches, Evolve, Contains, Block;
    if Pending(previous) {
      var (w1, lookup) := FindByMarker(b.w, previous.marker.value);
      Waits(from, b, w1, task);
      Blocks(from, b.(w := w1), previous, task);
      if lookup.Hit? {
        var (w2, read) := ReadIssue(w1, lookup.id);
        Waits(from, b.(w := w1), w2, task);
        Blocks(from, b.(w := w2), previous, task);
        if read.Some? {
          Sets(from, b.(w := w2), Reconciled(previous, read.value), task);
        }
      }
    }
  }

  lemma {:induction false} ReconcileAllLeaves(from: Batch, b: Batch, order: seq<Record>, task: string)
    requires Left(from, b, task) && forall r | r in order :: r.taskId != "" && (r.taskId == task ==> !Pending(r))
    ensures Left(from, ReconcileAll(b, order).batch, task)
    decreases |order|
  {
    hide Left, ReconcileOne;
    if order != [] {
      var n := |order| - 1;
      ReconcileAllLeaves(from, b, order[..n], task);
      assert order[n] in order;
      var first := ReconcileAll(b, order[..n]);
      if first.More? {
        ReconcileOneLeaves(from, first.batch, order[n], task);
      }
    }
  }

  // ----- operations that are not for Hoja -----

  /** The user's own settings keep the operation away: it failed, is of another kind, is marked local, is a plain update
      of a task that is not linked, or is a step of another task that is neither marked nor names an issue. */
  predicate NotForHoja(item: Item, d: Option<Record>) {
    var m := item.meta.GetOr(NO_META);
    var plain := item.op == UpdateTask && m == NO_META;
    || !item.succeeded || item.op == OtherOp
    || m.hoja == MarkLocal
    || (plain && !(IsLinked(d) && d.value.issueId.Some?))
    || (!plain && m.hoja == NoFlag && m.hojaIssue.None? && item.parentTaskId.Some? && item.parentTaskId.value != "")
  }

  lemma NotForHojaIsIgnored(item: Item, records: Records)
    ensures Considered(item) ==> (CandidateFor(item, records).Ignored? <==> NotForHoja(item, Get(records, item.facts.taskId)))
  {
  }

  lemma {:induction false} NoCandidateFor(items: seq<Item>, records: Records, task: string)
    requires forall item | item in items && item.facts.taskId == task :: NotForHoja(item, Get(records, task))
    ensures task !in RejectedTasks(items, records) && forall c | c in Candidates(items, records) :: c.facts.taskId != task
    decreases |items|
  {
    if items != [] {
      var n := |items| - 1;
      assert items[n] in items && forall item | item in items[..n] :: item in items;
      NoCandidateFor(items[..n], records, task);
      hide CandidateFor, NotForHoja;
      NotForHojaIsIgnored(items[n], records);
      CandidateIsOwn(items[n], records);
    }
  }

  lemma CandidateIsOwn(item: Item, records: Records)
    ensures CandidateFor(item, records).Chosen? ==> CandidateFor(item, records).candidate.facts == item.facts
  {
  }

  /** A task all of whose operations are kept from Hoja is left alone by the whole batch: nothing of it is journaled,
      requested, changed or reported, whatever the batch does for others. */
  lemma NotForHojaIsLeftAlone(w: World, items: seq<Item>, records: Records, order: seq<Record>, ctx: Context, task: string)
    requires Keyed(records) && forall r | r in order :: r.taskId != "" && (r.taskId == task ==> !Pending(r))
    requires forall item | item in items && item.facts.taskId == task :: NotForHoja(item, Get(records, task))
    ensures Left(Batch(w, records, [], []), PublishBatch(w, items, records, order, ctx).batch, task)
  {
    var b := Batch(w, records, [], []);
    NothingYet(b, task);
    ReconcileAllLeaves(b, b, order, task);
    var first := ReconcileAll(b, order);
    if first.More? {
      var b1 := first.batch;
      assert Get(b1.applied, task) == Get(records, task);
      hide Left, ReconcileAll, RejectAll, PublishAll, Candidates, RejectedTasks, NotForHoja;
      CandidatesAreNamed(items, b1.applied);
      NoCandidateFor(items, b1.applied, task);
      RejectAllLeaves(b, b1, RejectedTasks(items, b1.applied), task);
      PublishAllLeaves(b, RejectAll(b1, RejectedTasks(items, b1.applied)), Candidates(items, b1.applied), ctx, task);
    }
  }
}

/** What a caller can check before a batch: which operations may throw an association away, and over which records a batch
    may leave a commented issue. A run whose batches all meet the guard keeps what the theorems of `HojaRuns` ask. */
module HojaOperations {
  import opened Wrappers
  import opened HojaRecords
  import opened HojaServer
  import opened JsText
  import opened ManagedBlock
  import opened Markers
  import opened HojaWorld
  import opened LifecycleSync
  import opened Publish
  import opened HojaSafety
  import opened HojaPublishSafety
  import opened HojaLinks
  import opened HojaRuns

  /** The records that an invalid flag or a named issue that cannot be had puts in the place of another. */
  predicate GivesUp(r: Record) {
    r.state != Linked && r.reason.Some? && (r.reason.value == InvalidHojaMetadata || r.reason.value in NAMED_FAILURES)
  }

  /** What was journaled since gives nothing up for this task. */
  predicate GivesUpNothing(before: seq<Entry>, after: seq<Entry>, task: string) {
    && before <= after
    && forall i | |before| <= i < |after| && after[i].Link? && after[i].record.taskId == task :: !GivesUp(after[i].record)
  }

  /** Among allowed changes only such a record throws a link or an unconfirmed create away. */
  lemma {:induction false} SparedFate(before: seq<Entry>, after: seq<Entry>, task: string)
    requires GivesUpNothing(before, after, task) && JournalAllowed(after, task)
    ensures FateOf(after, task).unlinked == FateOf(before, task).unlinked && FateOf(after, task).forgotten == FateOf(before, task).forgotten
    decreases |after|
  {
    if |before| < |after| {
      SparedFate(before, after[..|after| - 1], task);
    } else {
      assert before == after;
    }
  }

  // ----- what a batch keeps of a task's fate -----

  /** Whether operations may name an issue for the task. Without names nothing at all is lost; with them, no link is
      thrown away and no commented issue is left. */
  predicate Spared(names: bool, f: Fate, g: Fate) {
    g.unlinked == f.unlinked && g.moved == f.moved && (!names ==> g == f)
  }

  datatype Watch = Watch(task: string, names: bool, fate: Fate, project: Option<string>)

  predicate SparedBy(o: Watch, w: World) {
    Spared(o.names, o.fate, FateOf(w.journal, o.task))
  }

  /** The batch so far spares the task, and while the session lives memory and journal agree on it. */
  predicate Sparing(o: Watch, b: Batch) {
    && o.task != "" && SparedBy(o, b.w) && Keyed(b.applied)
    && (b.w.active ==> Get(b.applied, o.task) == Get(Replay(b.w.journal), o.task))
  }

  predicate Ends(o: Watch, g: Progress) {
    match g
    case More(b) => Sparing(o, b)
    case Stopped(b) => SparedBy(o, b.w)
  }

  /** A record from which no pass can take the task to another issue, or none at all. */
  predicate Steady(d: Option<Record>, project: Option<string>) {
    IsLinked(d) ==> Rooted(d.value, project)
  }

  /** The next pass cannot leave a commented issue. */
  predicate MayPass(d: Option<Record>, project: Option<string>) {
    IsLinked(d) ==> CannotLeave(d.value, project)
  }

  lemma Waits(o: Watch, b: Batch, w: World)
    requires Sparing(o, b) && w.journal == b.w.journal && (w.active ==> b.w.active)
    ensures Sparing(o, b.(w := w))
  {
  }

  lemma Sets(o: Watch, b: Batch, r: Record)
    requires Sparing(o, b) && r.taskId != ""
    requires r.taskId == o.task ==> Spared(o.names, FateOf(b.w.journal, o.task), FateAfter(FateOf(b.w.journal, o.task), Get(b.applied, o.task), r))
    ensures Sparing(o, SetRecord(b, r))
  {
    hide FateAfter;
    ReplayAppend(b.w.journal, r);
    assert (b.w.journal + [Link(r)])[..|b.w.journal|] == b.w.journal;
  }

  /** Over a task without a link, whatever is neither a link to somebody else's issue nor the loss of an unconfirmed
      create loses nothing. */
  lemma LosesNothing(names: bool, f: Fate, d: Option<Record>, r: Record)
    requires !IsLinked(d) && (r.state == Linked ==> Current(r).scope == Owned)
    requires IsReconciling(d) && !HoldsAssociation(Some(r)) ==> r.reason == Some(CreateFailed)
    ensures Spared(names, f, FateAfter(f, d, r))
  {
  }

  /** Setting such a record. */
  lemma SetsSafely(o: Watch, b: Batch, r: Record)
    requires Sparing(o, b) && r.taskId != ""
    requires r.taskId == o.task ==> !IsLinked(Get(b.applied, o.task)) && (r.state == Linked ==> Current(r).scope == Owned)
    requires r.taskId == o.task && IsReconciling(Get(b.applied, o.task)) && !HoldsAssociation(Some(r)) ==> r.reason == Some(CreateFailed)
    ensures Sparing(o, SetRecord(b, r)) && Get(SetRecord(b, r).applied, r.taskId) == Some(r)
    ensures r.taskId != o.task ==> Get(SetRecord(b, r).applied, o.task) == Get(b.applied, o.task)
  {
    hide FateAfter, Spared, FateOf;
    if r.taskId == o.task {
      LosesNothing(o.names, FateOf(b.w.journal, o.task), Get(b.applied, o.task), r);
    }
    Sets(o, b, r);
  }

  // ----- one pass -----

  /** What a pass over a linked record does to the task, its own or another. */
  lemma PassSpares(o: Watch, b: Batch, linked: Record, facts: TaskFacts, ctx: Context)
    requires Sparing(o, b) && facts.taskId != "" && Get(b.applied, facts.taskId) == Some(linked) && linked.state == Linked && ctx.project == o.project
    requires facts.taskId == o.task ==> CannotLeave(linked, o.project)
    ensures var r := Sync(b.w, ArgsFor(linked, facts, ctx));
            && SparedBy(o, r.w) && LinkedAs(r.record, facts.taskId) && Sparing(o, CommitRecord(b.(w := r.w), r.record))
            && (!r.saved ==> Sparing(o, b.(w := r.w)))
            && (facts.taskId == o.task && Rooted(linked, o.project) ==> Rooted(r.record, o.project))
  {
    var a := ArgsFor(linked, facts, ctx);
    var r := Sync(b.w, a);
    assert LinkedAs(linked, facts.taskId);
    SyncLinks(b.w, a, facts.taskId);
    if facts.taskId == o.task {
      OwnPassSpares(o, b, linked, a);
    } else {
      hide Sync, OnlyLinks;
      OtherLinks(b.w.journal, r.w.journal, facts.taskId, o.task);
      StaysGone(b.w, a);
    }
  }

  lemma StaysGone(w: World, a: SyncArgs)
    ensures Sync(w, a).w.active ==> w.active
  {
    hide Sync;
    if !w.active {
      GoneJournalsNothing(w, a);
    }
  }

  lemma OwnPassSpares(o: Watch, b: Batch, linked: Record, a: SyncArgs)
    requires Sparing(o, b) && a.record == linked && a.facts.taskId == o.task && LinkedAs(linked, o.task) && Get(b.applied, o.task) == Some(linked)
    requires a.project == (if linked.project.Some? then linked.project else o.project) && CannotLeave(linked, o.project)
    ensures var r := Sync(b.w, a);
            && SparedBy(o, r.w) && (r.w.active ==> Get(Replay(r.w.journal), o.task) == Some(r.record)) && (!r.saved ==> r.record == linked)
            && (Rooted(linked, o.project) ==> Rooted(r.record, o.project))
  {
    hide Sync, OnlyLinks;
    SyncStaysHome(b.w, a, o.task);
    SyncLinks(b.w, a, o.task);
    LinksLoseNothing(b.w.journal, Sync(b.w, a).w.journal, o.task);
    if !b.w.active {
      GoneJournalsNothing(b.w, a);
    }
  }

  lemma SyncSpares(o: Watch, b: Batch, linked: Record, facts: TaskFacts, ctx: Context)
    requires Sparing(o, b) && facts.taskId != "" && Get(b.applied, facts.taskId) == Some(linked) && linked.state == Linked && ctx.project == o.project
    requires facts.taskId == o.task ==> CannotLeave(linked, o.project)
    ensures var g := SyncLinked(b, linked, facts, ctx);
            && Ends(o, g) && IsLinked(Get(g.batch.applied, facts.taskId))
            && (facts.taskId == o.task && Rooted(linked, o.project) ==> Steady(Get(g.batch.applied, o.task), o.project))
            && (facts.taskId != o.task ==> Get(g.batch.applied, o.task) == Get(b.applied, o.task))
  {
    hide Sync, Rooted, CannotLeave, Sparing, SparedBy;
    PassSpares(o, b, linked, facts, ctx);
  }

  /** A link of the task's own issue, and the pass that follows. */
  lemma LinkSpares(o: Watch, b: Batch, linked: Record, facts: TaskFacts, ctx: Context)
    requires Sparing(o, b) && facts.taskId != "" && linked.taskId == facts.taskId && linked.state == Linked && ctx.project == o.project
    requires Current(linked).scope == Owned && (facts.taskId == o.task ==> !IsLinked(Get(b.applied, o.task)))
    ensures Effect(o, b, facts.taskId, SyncLinked(SetRecord(b, linked), linked, facts, ctx))
  {
    hide SyncLinked, Sparing, SetRecord;
    SetsSafely(o, b, linked);
    SyncSpares(o, SetRecord(b, linked), linked, facts, ctx);
  }

  // ----- the phases of a batch -----

  /** What a step about one task leaves: a task without a link, or linked to an issue of its own, stays clear of any
      other, and the rest is not touched. */
  predicate Effect(o: Watch, b: Batch, own: string, g: Progress) {
    && Ends(o, g)
    && (own != o.task ==> Get(g.batch.applied, o.task) == Get(b.applied, o.task))
    && (own == o.task ==> Steady(Get(g.batch.applied, o.task), o.project))
  }

  lemma SetEffect(o: Watch, b: Batch, r: Record)
    requires Sparing(o, b) && r.taskId != "" && (r.taskId == o.task ==> !IsLinked(Get(b.applied, o.task)))
    requires r.state != Linked
    requires r.taskId == o.task && IsReconciling(Get(b.applied, o.task)) && !HoldsAssociation(Some(r)) ==> r.reason == Some(CreateFailed)
    ensures Effect(o, b, r.taskId, More(SetRecord(b, r)))
  {
    hide Sparing, SetRecord;
    SetsSafely(o, b, r);
  }

  lemma ReconcileOneSpares(o: Watch, b: Batch, previous: Record)
    requires Sparing(o, b) && previous.taskId != "" && Get(b.applied, previous.taskId) == Some(previous)
    ensures var g := ReconcileOne(b, previous);
            && Ends(o, g) && (Get(g.batch.applied, o.task) == Get(b.applied, o.task) || Becomes(o, Get(b.applied, o.task), Get(g.batch.applied, o.task)))
  {
    hide Sparing, SparedBy, SetRecord, ReadbackMatches, Evolve, Contains, Block;
    if previous.state == Reconciling && Truthy(previous.marker) {
      var (w1, lookup) := FindByMarker(b.w, previous.marker.value);
      Waits(o, b, w1);
      var b1 := b.(w := w1);
      Blocks(o, b1, previous);
      Gone(o, b);
      Gone(o, b1);
      if lookup.Hit? {
        var (w2, read) := ReadIssue(w1, lookup.id);
        Waits(o, b1, w2);
        Blocks(o, b1.(w := w2), previous);
        if read.Some? {
          SetsSafely(o, b1.(w := w2), Reconciled(previous, read.value));
        }
      }
    }
  }

  /** An unconfirmed create is found and linked: the issue is the task's own. */
  predicate Becomes(o: Watch, d: Option<Record>, e: Option<Record>) {
    !IsLinked(d) && IsLinked(e) && Current(e.value).scope == Owned
  }

  lemma Blocks(o: Watch, b: Batch, previous: Record)
    requires Sparing(o, b)
    ensures Sparing(o, Block(b, previous)) && Block(b, previous).applied == b.applied
  {
  }

  lemma Gone(o: Watch, b: Batch)
    requires Sparing(o, b)
    ensures SparedBy(o, b.w)
  {
  }

  lemma {:induction false} ReconcileAllSpares(o: Watch, b: Batch, order: seq<Record>)
    requires Sparing(o, b) && Distinct(order) && forall r | r in order :: Get(b.applied, r.taskId) == Some(r)
    ensures var g := ReconcileAll(b, order);
            && Ends(o, g) && (Get(g.batch.applied, o.task) == Get(b.applied, o.task) || Becomes(o, Get(b.applied, o.task), Get(g.batch.applied, o.task)))
    ensures ReconcileAll(b, order).More? ==>
              forall t | (forall r | r in order :: r.taskId != t) :: Get(ReconcileAll(b, order).batch.applied, t) == Get(b.applied, t)
    decreases |order|
  {
    if order != [] {
      var n := |order| - 1;
      var front, last := order[..n], order[n];
      assert last in order && forall r | r in front :: r in order;
      KeyedOrder(o, b, order);
      ReconcileAllSpares(o, b, front);
      var first := ReconcileAll(b, front);
      if first.More? {
        hide ReconcileOne, Sparing, SparedBy;
        ReconcileOneSpares(o, first.batch, last);
        ReconcileOneTouches(first.batch, last);
      }
    }
  }

  lemma KeyedOrder(o: Watch, b: Batch, order: seq<Record>)
    requires Sparing(o, b) && forall r | r in order :: Get(b.applied, r.taskId) == Some(r)
    ensures forall r | r in order :: r.taskId != ""
  {
  }

  lemma {:induction false} ResolveJournals(w: World, names: seq<string>)
    ensures var w1 := ResolveFirst(w, names).0; w1.journal == w.journal && (w1.active ==> w.active)
    decreases |names|
  {
    if names != [] {
      ResolveJournals(Resolve(w, names[0]).0, names[1..]);
    }
  }

  /** Filing begins without an association. */
  predicate Unfiled(o: Watch, b: Batch, c: Candidate, ctx: Context) {
    Sparing(o, b) && c.facts.taskId != "" && ctx.project == o.project && (c.facts.taskId == o.task ==> !HoldsAssociation(Get(b.applied, o.task)))
  }

  lemma FileNewSpares(o: Watch, b: Batch, c: Candidate, ctx: Context)
    requires Unfiled(o, b, c, ctx)
    ensures Effect(o, b, c.facts.taskId, FileNew(b, c, ctx))
  {
    hide Sparing, SetRecord, FileIn, ResolveFirst, ProjectNames, NamedProject;
    var own, names := c.facts.taskId, ProjectNames(c, ctx);
    SetEffect(o, b, Because(own, Skipped, NoProject));
    if names != [] {
      ResolveJournals(b.w, names);
      var (w1, selection) := ResolveFirst(b.w, names);
      var b1 := b.(w := w1);
      Waits(o, b, w1);
      Gone(o, b1);
      SetEffect(o, b1, Because(own, Failed, ProjectUnresolved).(
        project := Some(names[0]), substitutedFrom := if |names| > 1 then NamedProject(c) else None));
      if selection.Selected? {
        FileInSpares(o, b1, c, ctx, selection.target);
      }
    }
  }

  lemma FileInSpares(o: Watch, b: Batch, c: Candidate, ctx: Context, target: Resolved)
    requires Unfiled(o, b, c, ctx)
    ensures Effect(o, b, c.facts.taskId, FileIn(b, c, ctx, target))
  {
    hide Sparing, SetRecord, CreateRoot, TaskMarker, RootState, Lower, ParentIssue, ParentOf;
    var own := c.facts.taskId;
    SetEffect(o, b, Because(own, Skipped, StateUnavailable).(project := Some(target.project)));
    SetEffect(o, b, Because(own, Skipped, ParentUnpublished).(project := Some(target.project)));
    var intent := Intent(own, WriteInFlight, TaskMarker(ctx.sessionKey, own), target, ParentIssue(b, c));
    SetsSafely(o, b, intent);
    Gone(o, SetRecord(b, intent));
    CreateRootSpares(o, SetRecord(b, intent), c, ctx, target, ParentIssue(b, c), ParentOf(b, c));
  }

  /** While a create is under way. */
  predicate UnderWay(o: Watch, b: Batch, c: Candidate, ctx: Context) {
    Sparing(o, b) && c.facts.taskId != "" && ctx.project == o.project && (c.facts.taskId == o.task ==> !IsLinked(Get(b.applied, o.task)))
  }

  lemma SendJournals(w: World, c: Candidate, ctx: Context, target: Resolved, parentIssue: Option<nat>)
    ensures var w1 := SendRoot(w, c, ctx, target, parentIssue).0; w1.journal == w.journal && (w1.active ==> w.active)
  {
    hide Evolve, Settle, RootDescription, RootState, Lower;
  }

  lemma CreateRootSpares(o: Watch, b: Batch, c: Candidate, ctx: Context, target: Resolved, parentIssue: Option<nat>, parent: Option<Record>)
    requires UnderWay(o, b, c, ctx)
    ensures Effect(o, b, c.facts.taskId, CreateRoot(b, c, ctx, target, parentIssue, parent))
  {
    hide Sparing, SetRecord, SendRoot, ReadBack, TaskMarker;
    var own, marker := c.facts.taskId, TaskMarker(ctx.sessionKey, c.facts.taskId);
    SendJournals(b.w, c, ctx, target, parentIssue);
    var (w1, answer, id) := SendRoot(b.w, c, ctx, target, parentIssue);
    var b1 := b.(w := w1);
    Waits(o, b, w1);
    Gone(o, b1);
    SetEffect(o, b1, Intent(own, AmbiguousWrite, marker, target, parentIssue));
    SetEffect(o, b1, Because(own, Failed, CreateFailed).(project := Some(target.project)));
    ReadBackSpares(o, b1, c, ctx, target, parentIssue, id, parent);
  }

  lemma ReadBackSpares(o: Watch, b: Batch, c: Candidate, ctx: Context, target: Resolved, parentIssue: Option<nat>, id: nat, parent: Option<Record>)
    requires UnderWay(o, b, c, ctx)
    ensures Effect(o, b, c.facts.taskId, ReadBack(b, c, ctx, target, parentIssue, id, parent))
  {
    hide Sparing, SetRecord, SyncLinked, Evolve, TaskMarker, ReadbackMatches, CreatedIdentifier, LinkRecord;
    var marker := TaskMarker(ctx.sessionKey, c.facts.taskId);
    var doubt := Intent(c.facts.taskId, ReadbackUnverified, marker, target, parentIssue).(issueId := Some(id), identifier := CreatedIdentifier(b.w, id));
    var (w1, read) := ReadIssue(b.w, id);
    var b1 := b.(w := w1);
    Waits(o, b, w1);
    SetEffect(o, b1, doubt);
    SetEffect(o, b1, doubt.(reason := Some(ReadbackMismatch)));
    if read.Some? {
      LinkIsOwn(c, read.value, target, parent);
      LinkSpares(o, b1, LinkRecord(c, read.value, target, parent), c.facts, ctx);
    }
  }

  lemma LinkIsOwn(c: Candidate, view: IssueView, target: Resolved, parent: Option<Record>)
    ensures var r := LinkRecord(c, view, target, parent); r.taskId == c.facts.taskId && r.state == Linked && Current(r).scope == Owned
  {
  }

  /** Naming an issue: what it gives up is no link, and the record it begins with carries no comment marker. */
  lemma NamesSafely(o: Watch, b: Batch, r: Record)
    requires Sparing(o, b) && r.taskId != "" && (r.taskId == o.task ==> o.names && !IsLinked(Get(b.applied, o.task)))
    ensures Sparing(o, SetRecord(b, r)) && Get(SetRecord(b, r).applied, r.taskId) == Some(r)
    ensures r.taskId != o.task ==> Get(SetRecord(b, r).applied, o.task) == Get(b.applied, o.task)
  {
    hide FateOf;
    Sets(o, b, r);
  }

  lemma AdoptNamedSpares(o: Watch, b: Batch, c: Candidate, ctx: Context, named: string)
    requires Sparing(o, b) && c.facts.taskId != "" && ctx.project == o.project
    requires c.facts.taskId == o.task ==> o.names && !IsLinked(Get(b.applied, o.task))
    ensures var g := AdoptNamed(b, c, ctx, named);
            Ends(o, g) && (c.facts.taskId != o.task ==> Get(g.batch.applied, o.task) == Get(b.applied, o.task))
  {
    hide Sparing, SparedBy, SetRecord, Sync, FindByIdentifier, IsIdentifier, Upper, Trim;
    var task, wanted := c.facts.taskId, Upper(Trim(named));
    if !IsIdentifier(wanted) {
      NamesSafely(o, b, Because(task, Skipped, InvalidHojaIssue));
    } else {
      var (w1, lookup) := FindByIdentifier(b.w, wanted);
      var b1 := b.(w := w1);
      LooksUp(o, b, wanted);
      match lookup
      case NoAnswer => NamesSafely(o, b1, Because(task, Failed, LookupFailed).(identifier := Some(wanted)));
      case NoHit => NamesSafely(o, b1, Because(task, Failed, IssueNotFound).(identifier := Some(wanted)));
      case Hit(id, identifier) =>
        if Upper(identifier) != wanted {
          NamesSafely(o, b1, Because(task, Failed, IdentifierMismatch).(identifier := Some(wanted)));
        } else {
          var adopted := AdoptedRecord(c, id, identifier);
          NamesSafely(o, b1, adopted);
          PassSpares(o, SetRecord(b1, adopted), adopted, c.facts, ctx);
        }
    }
  }

  lemma LooksUp(o: Watch, b: Batch, wanted: string)
    requires Sparing(o, b)
    ensures Sparing(o, b.(w := FindByIdentifier(b.w, wanted).0))
  {
    hide Sparing, Evolve;
    Waits(o, b, FindByIdentifier(b.w, wanted).0);
  }

  /** What one operation needs: the pass it may start cannot leave a commented issue, and an issue is named only where
      that is allowed. */
  predicate MayRun(o: Watch, b: Batch, c: Candidate) {
    && c.facts.taskId != ""
    && (c.facts.taskId == o.task ==>
          MayPass(Get(b.applied, o.task), o.project) && (c.meta.hojaIssue.Some? && !IsLinked(Get(b.applied, o.task)) ==> o.names))
  }

  /** The task stays clear of other issues when it was, unless the operation names one for it. */
  predicate StaysClear(o: Watch, d: Option<Record>, e: Option<Record>) {
    Steady(d, o.project) ==> Steady(e, o.project) && (IsLinked(d) ==> IsLinked(e))
  }

  lemma PublishOneSpares(o: Watch, b: Batch, c: Candidate, ctx: Context)
    requires Sparing(o, b) && ctx.project == o.project && MayRun(o, b, c)
    ensures var g := PublishOne(b, c, ctx);
            && Ends(o, g)
            && (c.facts.taskId != o.task ==> Get(g.batch.applied, o.task) == Get(b.applied, o.task))
            && (c.meta.hojaIssue.None? || IsLinked(Get(b.applied, o.task)) || c.facts.taskId != o.task ==>
                  StaysClear(o, Get(b.applied, o.task), Get(g.batch.applied, o.task)))
  {
    hide Sparing, SyncLinked, AdoptNamed, FileNew, Rooted, Block;
    var previous := Get(b.applied, c.facts.taskId);
    Gone(o, b);
    if !b.w.active {
    } else if IsLinked(previous) {
      SyncSpares(o, b, previous.value, c.facts, ctx);
    } else if c.kind.ToSync? {
    } else if c.meta.hojaIssue.Some? {
      AdoptNamedSpares(o, b, c, ctx, c.meta.hojaIssue.value);
    } else if previous.Some? && previous.value.state == Reconciling {
      Blocks(o, b, previous.value);
    } else {
      FileNewSpares(o, b, c, ctx);
    }
  }

  /** A task that is clear of other issues stays so through a whole batch that names none for it. */
  lemma {:induction false} ClearBatchSpares(o: Watch, b: Batch, cs: seq<Candidate>, ctx: Context)
    requires Sparing(o, b) && ctx.project == o.project && Steady(Get(b.applied, o.task), o.project)
    requires forall c | c in cs :: c.facts.taskId != "" && (c.facts.taskId == o.task && c.meta.hojaIssue.Some? ==> IsLinked(Get(b.applied, o.task)))
    ensures var g := PublishAll(b, cs, ctx);
            Ends(o, g) && (g.More? ==> StaysClear(o, Get(b.applied, o.task), Get(g.batch.applied, o.task)))
    decreases |cs|
  {
    hide Sparing, SparedBy, PublishOne, Rooted;
    if cs != [] {
      var n := |cs| - 1;
      assert cs[n] in cs && forall c | c in cs[..n] :: c in cs;
      ClearBatchSpares(o, b, cs[..n], ctx);
      var first := PublishAll(b, cs[..n], ctx);
      if first.More? {
        PublishOneSpares(o, first.batch, cs[n], ctx);
      }
    }
  }

  predicate AboutOnce(cs: seq<Candidate>, task: string) {
    forall i, j | 0 <= i < j < |cs| :: !(cs[i].facts.taskId == task && cs[j].facts.taskId == task)
  }

  /** One operation on a record that cannot leave a commented issue is as safe. */
  lemma {:induction false} SingleOperationSpares(o: Watch, b: Batch, cs: seq<Candidate>, ctx: Context)
    requires Sparing(o, b) && ctx.project == o.project && MayPass(Get(b.applied, o.task), o.project) && AboutOnce(cs, o.task)
    requires forall c | c in cs :: c.facts.taskId != "" && (c.facts.taskId == o.task && c.meta.hojaIssue.Some? ==> o.names)
    ensures var g := PublishAll(b, cs, ctx);
            Ends(o, g) && (g.More? && (forall c | c in cs :: c.facts.taskId != o.task) ==> Get(g.batch.applied, o.task) == Get(b.applied, o.task))
    decreases |cs|
  {
    hide Sparing, SparedBy, PublishOne, CannotLeave;
    if cs != [] {
      var n := |cs| - 1;
      assert cs[n] in cs && forall c | c in cs[..n] :: c in cs;
      SingleOperationSpares(o, b, cs[..n], ctx);
      var first := PublishAll(b, cs[..n], ctx);
      if first.More? {
        if cs[n].facts.taskId == o.task {
          assert forall c | c in cs[..n] :: c.facts.taskId != o.task;
        }
        PublishOneSpares(o, first.batch, cs[n], ctx);
      }
    }
  }

  lemma {:induction false} RejectAllSpares(o: Watch, b: Batch, tasks: seq<string>)
    requires Sparing(o, b) && o.task !in tasks && "" !in tasks
    ensures Sparing(o, RejectAll(b, tasks)) && Get(RejectAll(b, tasks).applied, o.task) == Get(b.applied, o.task)
    decreases |tasks|
  {
    hide Sparing, SetRecord;
    if tasks != [] {
      var n := |tasks| - 1;
      RejectAllSpares(o, b, tasks[..n]);
      assert tasks[n] in tasks;
      SetsSafely(o, RejectAll(b, tasks[..n]), Because(tasks[n], Skipped, InvalidHojaMetadata));
    }
  }

  // ----- what can be checked before a batch -----

  predicate Unflagged(items: seq<Item>, task: string) {
    forall item | item in items && item.facts.taskId == task :: item.meta.GetOr(NO_META).hoja != InvalidFlag
  }

  predicate Unnamed(items: seq<Item>, task: string) {
    forall item | item in items && item.facts.taskId == task :: item.meta.GetOr(NO_META).hojaIssue.None?
  }

  predicate OnceAbout(items: seq<Item>, task: string) {
    forall i, j | 0 <= i < j < |items| :: !(items[i].facts.taskId == task && items[j].facts.taskId == task)
  }

  /** The guard: no invalid flag; and either no pass can take the task to another issue and none is newly named for it,
      or there is one operation on it and its record carries no comment marker yet. */
  predicate HomeBatch(items: seq<Item>, d: Option<Record>, project: Option<string>, task: string) {
    && Unflagged(items, task)
    && ((Steady(d, project) && (IsLinked(d) || Unnamed(items, task))) || (MayPass(d, project) && OnceAbout(items, task)))
  }

  lemma {:induction false} CandidatesAbout(items: seq<Item>, records: Records, task: string)
    ensures Unflagged(items, task) ==> task !in RejectedTasks(items, records)
    ensures Unnamed(items, task) ==> forall c | c in Candidates(items, records) && c.facts.taskId == task :: c.meta.hojaIssue.None?
    ensures (forall item | item in items :: item.facts.taskId != task) ==> forall c | c in Candidates(items, records) :: c.facts.taskId != task
    decreases |items|
  {
    if items != [] {
      var front, last := items[..|items| - 1], items[|items| - 1];
      assert last in items && forall item | item in front :: item in items;
      CandidatesAbout(front, records, task);
    }
  }

  lemma {:induction false} CandidatesOnce(items: seq<Item>, records: Records, task: string)
    requires OnceAbout(items, task)
    ensures AboutOnce(Candidates(items, records), task)
    decreases |items|
  {
    if items != [] {
      var front, last := items[..|items| - 1], items[|items| - 1];
      CandidatesOnce(front, records, task);
      CandidatesAbout(front, records, task);
      if last.facts.taskId == task {
        forall item | item in front ensures item.facts.taskId != task {
          var i :| 0 <= i < |front| && front[i] == item;
          assert items[i] == item;
        }
      }
    }
  }

  lemma BatchSpares(w: World, items: seq<Item>, records: Records, order: seq<Record>, ctx: Context, task: string)
    requires Keyed(records) && Enumerates(order, records) && task != "" && (w.active ==> Get(records, task) == Get(Replay(w.journal), task))
    requires HomeBatch(items, Get(records, task), ctx.project, task)
    ensures Spared(!Unnamed(items, task), FateOf(w.journal, task), FateOf(PublishBatch(w, items, records, order, ctx).batch.w.journal, task))
  {
    var o := Watch(task, !Unnamed(items, task), FateOf(w.journal, task), ctx.project);
    var b := Batch(w, records, [], []);
    assert Sparing(o, b);
    ReconcileAllSpares(o, b, order);
    var first := ReconcileAll(b, order);
    if first.More? {
      var b1 := first.batch;
      hide Sparing, ReconcileAll, RejectAll, PublishAll, Candidates, RejectedTasks, Rooted;
      CandidatesAreNamed(items, b1.applied);
      CandidatesAbout(items, b1.applied, task);
      RejectAllSpares(o, b1, RejectedTasks(items, b1.applied));
      var b2, cs := RejectAll(b1, RejectedTasks(items, b1.applied)), Candidates(items, b1.applied);
      Gone(o, b1);
      OwnIsSteady(o, Get(records, task), Get(b1.applied, task));
      if Steady(Get(records, task), ctx.project) && (IsLinked(Get(records, task)) || Unnamed(items, task)) {
        ClearBatchSpares(o, b2, cs, ctx);
      } else {
        CandidatesOnce(items, b1.applied, task);
        SingleOperationSpares(o, b2, cs, ctx);
      }
      Concludes(o, PublishAll(b2, cs, ctx));
    }
  }

  lemma OwnIsSteady(o: Watch, d: Option<Record>, e: Option<Record>)
    ensures Becomes(o, d, e) ==> Steady(e, o.project)
  {
  }

  lemma Concludes(o: Watch, g: Progress)
    requires Ends(o, g)
    ensures SparedBy(o, g.batch.w)
  {
  }

  // ----- runs -----

  predicate HomeEvent(c: Chat, e: Event, task: string) {
    e.TaskBatch? && c.enabled ==> HomeBatch(e.items, Get(c.records, task), e.project, task)
  }

  predicate HomeRun(c: Chat, events: seq<Event>, task: string, sessionKey: string) {
    events == [] ||
    (HomeRun(c, events[..|events| - 1], task, sessionKey)
     && HomeEvent(Run(c, events[..|events| - 1], sessionKey), events[|events| - 1], task))
  }

  predicate NamesNothing(e: Event, task: string) {
    e.TaskBatch? ==> Unnamed(e.items, task)
  }

  lemma NextSpares(c: Chat, e: Event, task: string, sessionKey: string)
    requires ChatAudited(c, sessionKey) && Ordered(c, e) && HomeEvent(c, e, task) && task != ""
    requires e.TaskBatch? && c.enabled ==> Agrees(c, task)
    ensures Spared(!NamesNothing(e, task), FateOf(c.journal, task), FateOf(Next(c, e, sessionKey).journal, task))
  {
    hide Spared, PublishBatch, HomeBatch, Unnamed, Enumerates;
    SpareSelf(!NamesNothing(e, task), FateOf(c.journal, task));
    if e.TaskBatch? && c.enabled {
      BatchSpares(WorldOf(c, e.script), e.items, c.records, e.order, ContextOf(e, sessionKey), task);
    }
  }

  lemma SpareSelf(names: bool, f: Fate)
    ensures Spared(names, f, f)
  {
  }

  /** Nothing is ever journaled for the empty task id. */
  lemma {:induction false} NamelessFate(journal: seq<Entry>)
    ensures FateOf(journal, "") == NOTHING_LOST
  {
    if journal != [] {
      NamelessFate(journal[..|journal| - 1]);
    }
  }

  lemma {:induction false} HomeRunKeeps(c: Chat, events: seq<Event>, task: string, sessionKey: string)
    requires NewChat(c) && OrderedRun(c, events, sessionKey) && CurrentRun(c, events, task, sessionKey) && HomeRun(c, events, task, sessionKey)
    ensures var f := FateOf(Run(c, events, sessionKey).journal, task); !f.unlinked && !f.moved
  {
    hide NewChat, ChatAudited, ChatOk, Next, HomeEvent, Ordered;
    if task == "" {
      NamelessFate(Run(c, events, sessionKey).journal);
    } else if events == [] {
      NewIsUnspoilt(c, task);
    } else {
      var n := |events| - 1;
      HomeRunKeeps(c, events[..n], task, sessionKey);
      Reached(c, events[..n], task, sessionKey);
      NextSpares(Run(c, events[..n], sessionKey), events[n], task, sessionKey);
    }
  }

  lemma NewIsUnspoilt(c: Chat, task: string)
    requires NewChat(c)
    ensures FateOf(c.journal, task) == NOTHING_LOST
  {
  }

  /** When every batch meets the guard, at most one completion comment per answer revision is ever committed, on whatever
      issues, now and after any lost write lands. */
  lemma HomeRunsCommentOnce(c: Chat, events: seq<Event>, task: string, sessionKey: string, afterwards: seq<EnvStep>, marker: string)
    requires NewChat(c) && OrderedRun(c, events, sessionKey) && CurrentRun(c, events, task, sessionKey) && HomeRun(c, events, task, sessionKey)
    ensures OneCompletion(Evolve(Run(c, events, sessionKey).server, afterwards).comments, task, marker)
  {
    hide Run, Evolve, FateOf, OneCompletion, NewChat, OrderedRun, CurrentRun, HomeRun;
    HomeRunKeeps(c, events, task, sessionKey);
    AtMostOneComment(c, events, task, sessionKey, afterwards, marker);
  }

  /** The operation is about another task, or neither carries an invalid flag nor names an issue. */
  predicate Careful(e: Event, task: string) {
    e.TaskBatch? ==> Unflagged(e.items, task) && Unnamed(e.items, task)
  }

  /** A task that was never linked to somebody else's issue is linked to its own, if at all. */
  lemma OwnLinksOnly(c: Chat, task: string, e: Event)
    requires ChatOk(c, task) && FateOf(c.journal, task) == NOTHING_LOST && Careful(e, task) && Agrees(c, task)
    ensures HomeEvent(c, e, task)
  {
    hide TaskInv, JournalAllowed, FateOf;
    UnsharedStays(c.journal, task);
  }

  lemma {:induction false} CarefulRunKeeps(c: Chat, events: seq<Event>, task: string, sessionKey: string)
    requires NewChat(c) && OrderedRun(c, events, sessionKey) && CurrentRun(c, events, task, sessionKey)
    requires forall e | e in events :: Careful(e, task)
    ensures FateOf(Run(c, events, sessionKey).journal, task) == NOTHING_LOST
    decreases |events|
  {
    hide NewChat, ChatAudited, ChatOk, Next, HomeEvent, Ordered, Agrees;
    if task == "" {
      NamelessFate(Run(c, events, sessionKey).journal);
    } else if events == [] {
      NewIsUnspoilt(c, task);
    } else {
      var n := |events| - 1;
      var before, e := Run(c, events[..n], sessionKey), events[n];
      assert e in events && forall x | x in events[..n] :: x in events;
      CarefulRunKeeps(c, events[..n], task, sessionKey);
      Reached(c, events[..n], task, sessionKey);
      if e.TaskBatch? && before.enabled {
        OwnLinksOnly(before, task, e);
      } else {
        IdleIsHome(before, e, task);
      }
      NextSpares(before, e, task, sessionKey);
    }
  }

  lemma IdleIsHome(c: Chat, e: Event, task: string)
    requires !(e.TaskBatch? && c.enabled)
    ensures HomeEvent(c, e, task)
  {
  }

  /** When no operation about the task carries an invalid flag or names an issue, nothing of it is ever thrown away, given
      up, shared or left: at most one root issue or sub-issue is committed for it, and at most one completion comment per
      answer revision, whatever else happens. */
  lemma CarefulRunsLoseNothing(c: Chat, events: seq<Event>, task: string, sessionKey: string, afterwards: seq<EnvStep>, marker: string)
    requires NewChat(c) && OrderedRun(c, events, sessionKey) && CurrentRun(c, events, task, sessionKey)
    requires forall e | e in events :: Careful(e, task)
    ensures FateOf(Run(c, events, sessionKey).journal, task) == NOTHING_LOST
    ensures var end := Evolve(Run(c, events, sessionKey).server, afterwards);
            Committed(end, RootKey(task)) + Committed(end, SubKey(task)) <= 1 && OneCompletion(end.comments, task, marker)
  {
    hide Run, Evolve, FateOf, OneCompletion, NewChat, OrderedRun, CurrentRun, Committed, Careful;
    CarefulRunKeeps(c, events, task, sessionKey);
    AtMostOneOwnIssue(c, events, task, sessionKey, afterwards);
    AtMostOneComment(c, events, task, sessionKey, afterwards, marker);
  }
}

/** What becomes of a create whose outcome is unknown: it is linked exactly when the search finds an issue and the
    read-back proves it, and otherwise it stays as it was and is reported as blocked. */
module HojaReconciling {
  import opened Wrappers
  import opened JsText
  import opened HojaRecords
  import opened HojaServer
  import opened HojaWorld
  import opened LifecycleSync
  import opened Publish
  import opened HojaSafety
  import opened HojaPublishSafety
  import opened HojaLinks
  import opened HojaOperations
  import opened HojaUntouched

  /** The search answers, and it answers with this issue. */
  predicate SearchAnswers(w: World, r: Record, i: nat)
    requires r.marker.Some?
  {
    var s := Await(w).server;
    NextTick(w).reply.Done? && i == Picked(w, r.marker.value) && i < |s.issues| && Contains(s.issues[i].description, r.marker.value)
  }

  /** The issue, read a moment later, is the one this create was to make: it carries the exact marker line, and stands in
      the recorded project beneath the expected parent. */
  predicate Proven(w: World, r: Record, i: nat)
    requires r.marker.Some?
  {
    var w1 := Await(w);
    var s := Await(w1).server;
    && w1.active && NextTick(w1).reply.Done? && i < |s.issues|
    && HasLine(s.issues[i].description, "Link marker: " + r.marker.value)
    && (r.projectId.Some? && r.projectId.value != "" ==> s.issues[i].projectId == r.projectId.value)
    && s.issues[i].parent == r.expectedParent
  }

  predicate FoundAt(w: World, r: Record, i: nat)
    requires r.marker.Some?
  {
    SearchAnswers(w, r, i) && Proven(w, r, i)
  }

  /** What is recorded of a create that was found. */
  predicate LinkedThrough(d: Record, r: Record, i: nat, s: Server)
    requires i < |s.issues|
  {
    var parent := s.issues[i].parent;
    && d.taskId == r.taskId && d.state == Linked && d.issueId == Some(i) && d.identifier == Some(s.issues[i].identifier)
    && d.project == r.project && d.marker == r.marker && d.reason.None? && d.lifecycle.None?
    && d.projectId == (if r.projectId == Some("") then None else r.projectId)
    && d.parentIdentifier == (if parent.Some? && parent.value < |s.issues| && s.issues[parent.value].identifier != ""
                              then Some(s.issues[parent.value].identifier) else None)
  }

  /** Resolving one unconfirmed create. */
  lemma ReconcilesIff(b: Batch, r: Record)
    requires Pending(r) && b.w.active
    ensures var g, i := ReconcileOne(b, r), Picked(b.w, r.marker.value);
            && (g.Stopped? <==> SearchAnswers(b.w, r, i) && !Await(b.w).active)
            && (FoundAt(b.w, r, i) ==>
                  && g.More? && r.taskId in g.batch.applied
                  && LinkedThrough(g.batch.applied[r.taskId], r, i, Await(Await(b.w)).server)
                  && g.batch.applied == b.applied[r.taskId := g.batch.applied[r.taskId]]
                  && g.batch.blocked == b.blocked && g.batch.changed == b.changed + [g.batch.applied[r.taskId]]
                  && g.batch.w.journal == b.w.journal + (if g.batch.w.active then [Link(g.batch.applied[r.taskId])] else []))
            && (g.More? && !FoundAt(b.w, r, i) ==>
                  && g.batch.applied == b.applied && g.batch.changed == b.changed && g.batch.w.journal == b.w.journal
                  && (if Mentions(b.blocked, r.taskId) then g.batch.blocked == b.blocked else g.batch.blocked == b.blocked + [r]))
            && g.batch.w.asked == b.w.asked
  {
    hide Evolve, HasLine, Contains, Mentions;
  }

  // ----- in a batch -----

  /** Where the batch stands on the association: linked to the issue that was found, and journaled so, or as it was and
      blocked. `journal` is what its own turn left. */
  predicate Concluded(b: Batch, r: Record, found: bool, i: nat, s: Server, project: Option<string>, journal: seq<Entry>) {
    var d := Get(b.applied, r.taskId);
    && Keyed(b.applied) && journal <= b.w.journal
    && if found
       then && i < |s.issues| && IsLinked(d) && d.value.issueId == Some(i) && d.value.identifier == Some(s.issues[i].identifier)
            && d.value.project == r.project && Rooted(d.value, project) && !Mentions(b.blocked, r.taskId)
            && journal != [] && journal[|journal| - 1].Link? && LinkedThrough(journal[|journal| - 1].record, r, i, s)
       else d == Some(r) && r in b.blocked
  }

  lemma {:induction false} TurnIsActive(b: Batch, order: seq<Record>, k: nat)
    requires k <= |order| && ReconcileAll(b, order).More?
    ensures ReconcileAll(b, order[..k]).More? && (ReconcileAll(b, order).batch.w.active ==> ReconcileAll(b, order[..k]).batch.w.active)
    decreases |order|
  {
    hide ReconcileOne;
    if k == |order| {
      assert order[..k] == order;
    } else {
      var n := |order| - 1;
      assert order[..n][..k] == order[..k];
      TurnIsActive(b, order[..n], k);
      StepIsActive(ReconcileAll(b, order[..n]).batch, order[n]);
    }
  }

  lemma StepIsActive(b: Batch, r: Record)
    ensures ReconcileOne(b, r).batch.w.active ==> b.w.active
  {
    hide Evolve, ReadbackMatches, Contains, Block, Reconciled;
  }

  /** The steps after the association's own turn leave it alone. */
  lemma {:induction false} LaterTurnsLeave(b: Batch, order: seq<Record>, k: nat)
    requires k < |order| && (forall r | r in order :: r.taskId != "") && Distinct(order)
    requires ReconcileAll(b, order).More? && ReconcileAll(b, order[..k + 1]).More? && Keyed(ReconcileAll(b, order[..k + 1]).batch.applied)
    ensures Left(ReconcileAll(b, order[..k + 1]).batch, ReconcileAll(b, order).batch, order[k].taskId)
    decreases |order|
  {
    hide ReconcileOne, Left;
    var task, turn := order[k].taskId, ReconcileAll(b, order[..k + 1]).batch;
    if k + 1 == |order| {
      assert order[..k + 1] == order;
      NothingYet(turn, task);
    } else {
      var n := |order| - 1;
      assert order[..n][..k + 1] == order[..k + 1];
      assert order[n] in order;
      assert forall r | r in order[..n] :: r in order;
      LaterTurnsLeave(b, order[..n], k);
      ReconcileOneLeaves(turn, ReconcileAll(b, order[..n]).batch, order[n], task);
    }
  }

  lemma ResolvedStays(from: Batch, b: Batch, r: Record, found: bool, i: nat, s: Server, project: Option<string>, journal: seq<Entry>)
    requires Concluded(from, r, found, i, s, project, journal) && Left(from, b, r.taskId)
    ensures Concluded(b, r, found, i, s, project, journal)
  {
    hide Rooted;
  }

  /** An operation on the task neither flags it nor names an issue: a found one is synced, another stays blocked. */
  lemma OwnOperationKeeps(b: Batch, c: Candidate, ctx: Context, r: Record, found: bool, i: nat, s: Server, journal: seq<Entry>)
    requires Concluded(b, r, found, i, s, ctx.project, journal) && Pending(r) && c.facts.taskId == r.taskId && r.taskId != "" && c.meta.hojaIssue.None?
    requires PublishOne(b, c, ctx).More?
    ensures Concluded(PublishOne(b, c, ctx).batch, r, found, i, s, ctx.project, journal)
  {
    hide Sync, AdoptNamed, FileNew, Rooted;
    if found {
      var linked := b.applied[r.taskId];
      var a := ArgsFor(linked, c.facts, ctx);
      RootedAlike(linked, ctx.project, a.project);
      SyncStaysRooted(b.w, a, r.taskId);
      SyncLinks(b.w, a, r.taskId);
      RootedAlike(Sync(b.w, a).record, ctx.project, a.project);
    }
  }

  lemma RootedAlike(r: Record, project: Option<string>, effective: Option<string>)
    requires r.project.Some? || effective == project
    ensures Rooted(r, effective) <==> Rooted(r, project)
  {
  }

  lemma {:induction false} OperationsKeep(b: Batch, cs: seq<Candidate>, ctx: Context, r: Record, found: bool, i: nat, s: Server, journal: seq<Entry>)
    requires Concluded(b, r, found, i, s, ctx.project, journal) && Pending(r) && r.taskId != "" && PublishAll(b, cs, ctx).More?
    requires forall c | c in cs :: c.facts.taskId != "" && (c.facts.taskId == r.taskId ==> c.meta.hojaIssue.None?)
    ensures Concluded(PublishAll(b, cs, ctx).batch, r, found, i, s, ctx.project, journal)
    decreases |cs|
  {
    hide Concluded, PublishOne, Left;
    if cs != [] {
      var n := |cs| - 1;
      assert cs[n] in cs && forall c | c in cs[..n] :: c in cs;
      OperationsKeep(b, cs[..n], ctx, r, found, i, s, journal);
      var b1 := PublishAll(b, cs[..n], ctx).batch;
      if cs[n].facts.taskId == r.taskId {
        OwnOperationKeeps(b1, cs[n], ctx, r, found, i, s, journal);
      } else {
        ResolvedIsKeyed(b1, r, found, i, s, ctx.project, journal);
        NothingYet(b1, r.taskId);
        PublishOneLeaves(b1, b1, cs[n], ctx, r.taskId);
        ResolvedStays(b1, PublishOne(b1, cs[n], ctx).batch, r, found, i, s, ctx.project, journal);
      }
    }
  }

  lemma ResolvedIsKeyed(b: Batch, r: Record, found: bool, i: nat, s: Server, project: Option<string>, journal: seq<Entry>)
    requires Concluded(b, r, found, i, s, project, journal)
    ensures Keyed(b.applied)
  {
  }

  /** The association's own turn. */
  lemma OwnTurn(b: Batch, r: Record, project: Option<string>)
    requires Pending(r) && b.w.active && Keyed(b.applied) && Get(b.applied, r.taskId) == Some(r) && r.taskId != "" && !Mentions(b.blocked, r.taskId)
    requires ReconcileOne(b, r).More? && ReconcileOne(b, r).batch.w.active
    ensures var i := Picked(b.w, r.marker.value);
            Concluded(ReconcileOne(b, r).batch, r, FoundAt(b.w, r, i), i, Await(Await(b.w)).server, project, ReconcileOne(b, r).batch.w.journal)
  {
    ReconcilesIff(b, r);
    hide ReconcileOne, FoundAt, Picked, Await, LinkedThrough;
    var i, s, b1 := Picked(b.w, r.marker.value), Await(Await(b.w)).server, ReconcileOne(b, r).batch;
    if FoundAt(b.w, r, i) {
      LinkedThroughMeans(b1.applied[r.taskId], r, i, s, project);
      assert b1.w.journal[|b1.w.journal| - 1] == Link(b1.applied[r.taskId]);
    }
  }

  lemma LinkedThroughMeans(d: Record, r: Record, i: nat, s: Server, project: Option<string>)
    requires i < |s.issues| && LinkedThrough(d, r, i, s)
    ensures d.taskId == r.taskId && d.state == Linked && d.issueId == Some(i) && d.identifier == Some(s.issues[i].identifier) && d.project == r.project
    ensures Rooted(d, project)
  {
  }

  /** The batch when the association's turn comes. */
  function TurnOf(w: World, records: Records, order: seq<Record>, k: nat): Batch
    requires k <= |order|
  {
    ReconcileAll(Batch(w, records, [], []), order[..k]).batch
  }

  lemma TurnFindsIt(w: World, records: Records, order: seq<Record>, k: nat)
    requires Keyed(records) && Enumerates(order, records) && k < |order|
    ensures var b := TurnOf(w, records, order, k);
            Keyed(b.applied) && Get(b.applied, order[k].taskId) == Some(order[k]) && !Mentions(b.blocked, order[k].taskId)
  {
    var b, task := Batch(w, records, [], []), order[k].taskId;
    assert order[k] in order && forall r | r in order :: r.taskId in records && r.taskId != "";
    forall r | r in order[..k] ensures r.taskId != task && r.taskId != "" {
      assert r in order;
    }
    NothingYet(b, task);
    ReconcileAllLeaves(b, b, order[..k], task);
  }

  /** In a batch that is not cut short, whose operations on the task neither flag it nor name an issue, an unconfirmed
      create ends linked if and only if the search finds an issue that the read-back proves. It is then linked to exactly
      that issue and no longer blocked; otherwise it stays as it was and is reported as blocked. */
  lemma LostCreateIsLinkedIff(w: World, items: seq<Item>, records: Records, order: seq<Record>, k: nat, ctx: Context)
    requires ctx.enabled && Keyed(records) && Enumerates(order, records) && k < |order| && Pending(order[k])
    requires Unflagged(items, order[k].taskId) && Unnamed(items, order[k].taskId)
    requires PublishBatch(w, items, records, order, ctx).More?
    ensures var turn, end := TurnOf(w, records, order, k).w, PublishBatch(w, items, records, order, ctx).batch;
            var i := Picked(turn, order[k].marker.value);
            && (IsLinked(Get(end.applied, order[k].taskId)) <==> FoundAt(turn, order[k], i))
            && Concluded(end, order[k], FoundAt(turn, order[k], i), i, Await(Await(turn)).server, ctx.project, TurnOf(w, records, order, k + 1).w.journal)
            && (FoundAt(turn, order[k], i) ==> |TurnOf(w, records, order, k + 1).w.journal| == |turn.journal| + 1)
  {
    var b, r := Batch(w, records, [], []), order[k];
    var turn, journal := TurnOf(w, records, order, k), TurnOf(w, records, order, k + 1).w.journal;
    hide Concluded, TurnOf, FoundAt, Picked, Await, ReconcileAll, PublishAll, RejectAll, Candidates, RejectedTasks, Left, Unflagged, Unnamed, Enumerates;
    TurnConcludes(w, records, order, k, ctx);
    var i, s := Picked(turn.w, r.marker.value), Await(Await(turn.w)).server;
    var found := FoundAt(turn.w, r, i);
    AfterTurn(w, items, records, order, k, ctx, found, i, s, journal);
    LinkedMeansFound(PublishBatch(w, items, records, order, ctx).batch, r, found, i, s, ctx.project, journal);
  }

  lemma TurnConcludes(w: World, records: Records, order: seq<Record>, k: nat, ctx: Context)
    requires Keyed(records) && Enumerates(order, records) && k < |order| && Pending(order[k]) && w.active
    requires ReconcileAll(Batch(w, records, [], []), order).More? && ReconcileAll(Batch(w, records, [], []), order).batch.w.active
    ensures var turn, next := TurnOf(w, records, order, k).w, TurnOf(w, records, order, k + 1);
            var i := Picked(turn, order[k].marker.value);
            && Concluded(next, order[k], FoundAt(turn, order[k], i), i, Await(Await(turn)).server, ctx.project, next.w.journal)
            && (FoundAt(turn, order[k], i) ==> |next.w.journal| == |turn.journal| + 1)
  {
    var b, r, turn := Batch(w, records, [], []), order[k], TurnOf(w, records, order, k);
    TurnFindsIt(w, records, order, k);
    TurnIsActive(b, order, k);
    TurnIsActive(b, order, k + 1);
    assert order[..k + 1][..k] == order[..k];
    assert r in order && forall x | x in order :: x.taskId in records && x.taskId != "";
    ReconcilesIff(turn, r);
    hide FoundAt, Picked, Await, ReconcileOne, Concluded, Enumerates, LinkedThrough;
    OwnTurn(turn, r, ctx.project);
  }

  lemma LinkedMeansFound(b: Batch, r: Record, found: bool, i: nat, s: Server, project: Option<string>, journal: seq<Entry>)
    requires Concluded(b, r, found, i, s, project, journal) && Pending(r)
    ensures IsLinked(Get(b.applied, r.taskId)) <==> found
  {
  }

  lemma AfterTurn(w: World, items: seq<Item>, records: Records, order: seq<Record>, k: nat, ctx: Context, found: bool, i: nat, s: Server, journal: seq<Entry>)
    requires ctx.enabled && Keyed(records) && Enumerates(order, records) && k < |order| && Pending(order[k]) && w.active
    requires Unflagged(items, order[k].taskId) && Unnamed(items, order[k].taskId)
    requires PublishBatch(w, items, records, order, ctx).More?
    requires Concluded(TurnOf(w, records, order, k + 1), order[k], found, i, s, ctx.project, journal)
    ensures Concluded(PublishBatch(w, items, records, order, ctx).batch, order[k], found, i, s, ctx.project, journal)
  {
    var b, r := Batch(w, records, [], []), order[k];
    var task, next, b1 := r.taskId, TurnOf(w, records, order, k + 1), ReconcileAll(b, order).batch;
    assert r in order && forall x | x in order :: x.taskId in records && x.taskId != "";
    TurnIsActive(b, order, k + 1);
    hide ReconcileAll, PublishAll, RejectAll, Candidates, RejectedTasks, Left, Unflagged, Unnamed, Enumerates, Concluded;
    ResolvedIsKeyed(next, r, found, i, s, ctx.project, journal);
    LaterTurnsLeave(b, order, k);
    ResolvedStays(next, b1, r, found, i, s, ctx.project, journal);
    ResolvedIsKeyed(b1, r, found, i, s, ctx.project, journal);
    CandidatesAreNamed(items, b1.applied);
    CandidatesAbout(items, b1.applied, task);
    var b2, cs := RejectAll(b1, RejectedTasks(items, b1.applied)), Candidates(items, b1.applied);
    NothingYet(b1, task);
    RejectAllLeaves(b1, b1, RejectedTasks(items, b1.applied), task);
    ResolvedStays(b1, b2, r, found, i, s, ctx.project, journal);
    OperationsKeep(b2, cs, ctx, r, found, i, s, journal);
  }
}

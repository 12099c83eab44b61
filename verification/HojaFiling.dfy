/** From no association to truthful issues: what a batch of new tasks achieves when nothing goes wrong. */
module HojaFiling {
  import opened Wrappers
  import opened JsText
  import opened ManagedBlock
  import opened Markers
  import opened AnswerRevision
  import opened HojaRecords
  import opened HojaServer
  import opened HojaWorld
  import opened LifecycleSync
  import opened Publish
  import opened HojaSafety
  import opened HojaPublishSafety
  import opened HojaUntouched
  import opened HojaReconciling
  import opened HojaConvergence

  /** The project a name resolves to, found again by its own name, with the states this task will need. */
  predicate Destination(s: Server, name: string, target: Resolved, c: Candidate) {
    && Lower(Trim(name)) in s.projects && s.projects[Lower(Trim(name))] == target
    && target.project != "" && Lower(Trim(target.project)) in s.projects && s.projects[Lower(Trim(target.project))] == target
    && Lower(RootState(c)) in target.states && Lower(WantedState(c.facts)) in target.states
  }

  /** A top-level task that can be filed: alive, not completed without its answers, and with texts that hold no fence
      and leave room for the comment's marker line. */
  predicate Fileable(c: Candidate, ctx: Context) {
    && c.kind.ToPublish? && c.meta.hojaIssue.None? && !Truthy(c.parentTaskId)
    && c.facts.status != "deleted" && (c.facts.status == "completed" ==> AcceptedCompletion(c.facts))
    && Proper(ManagedSection(c.facts), MANAGED)
    && (var head := DescriptionHead(c.description, c.facts.taskId, ctx.sessionKey);
        !Contains(head, MANAGED.start) && !Contains(head, MANAGED.end))
    && |CommentHead(c.facts, MarkerOf(c, ctx))| <= COMMENT_LIMIT
  }

  function MarkerOf(c: Candidate, ctx: Context): string {
    AnswerMarker(ctx.sessionKey, c.facts.taskId, RevisionOf(c.facts))
  }

  function Filed(c: Candidate, ctx: Context, target: Resolved): Issue {
    NewIssue("", target, RootDescription(c, ctx), RootState(c), None, RootKey(c.facts.taskId))
  }

  /** The issue is on the server, the last one, and the chat is linked to it. */
  predicate LinkedTo(s: Server, i: nat, c: Candidate, ctx: Context, target: Resolved, r: Record) {
    && i < |s.issues| && s.issues[i] == Filed(c, ctx, target)
    && r == LinkRecord(c, ViewOf(s, i), target, None)
  }

  /** An issue as this session files it is ready for its first pass. */
  lemma FiledIssueIsReady(s: Server, i: nat, c: Candidate, ctx: Context, target: Resolved, name: string, r: Record)
    requires Fileable(c, ctx) && Destination(s, name, target, c) && LinkedTo(s, i, c, ctx, target, r)
    ensures Ready(s, i, ArgsFor(r, c.facts, ctx))
  {
    hide OwnedOutside, Proper, ManagedSection, RootDescription, TaskMarker, Fits, CommentHead, SameState, AcceptedCompletion;
    hide WantedState, Substituted, AnswerMarker, RevisionOf, Contains, DescriptionHead, Lower, Trim, RootState;
    FiledIssueIsOwned(c, ctx);
    CommentFits(ArgsFor(r, c.facts, ctx));
  }

  /** The request and its read-back. */
  lemma QuietCreate(b: Batch, c: Candidate, ctx: Context, target: Resolved)
    requires Quiet(b.w) && Lower(RootState(c)) in target.states
    ensures var s, i := b.w.server.(issues := b.w.server.issues + [Filed(c, ctx, target)]), |b.w.server.issues|;
            var linked := LinkRecord(c, ViewOf(s, i), target, None);
            var b1 := SendBatch(b, c, ctx, target);
            && Quiet(b1.w) && b1.w.server == s && b1.applied == b.applied
            && CreateRoot(b, c, ctx, target, None, None) == SyncLinked(SetRecord(b1, linked), linked, c.facts, ctx)
  {
    hide RootDescription, TaskMarker, HasLinkMarker, RootState, Lower, LinkRecord;
    RootIsRecognized(c, ctx);
  }

  lemma RootIsRecognized(c: Candidate, ctx: Context)
    ensures HasLinkMarker(RootDescription(c, ctx), TaskMarker(ctx.sessionKey, c.facts.taskId))
  {
    hide HasLinkMarker;
    OwnDescriptionIsRecognized(c.description, c.facts.taskId, ctx.sessionKey, ManagedSection(c.facts));
  }

  /** The batch after the create was answered and read back. */
  function SendBatch(b: Batch, c: Candidate, ctx: Context, target: Resolved): Batch {
    var (w1, answer, id) := SendRoot(b.w, c, ctx, target, None);
    b.(w := ReadIssue(w1, id).0)
  }

  lemma ResolvesFirst(w: World, names: seq<string>, target: Resolved)
    requires Quiet(w) && names != [] && Lower(Trim(names[0])) in w.server.projects && w.server.projects[Lower(Trim(names[0]))] == target
    ensures ResolveFirst(w, names) == (w, Selected(target))
  {
    hide Lower, Trim;
    QuietAwait(w);
  }

  /** Without an association the batch files the task: it writes the intent and sends the create. */
  lemma QuietFiles(b: Batch, c: Candidate, ctx: Context, target: Resolved)
    requires Quiet(b.w) && Fileable(c, ctx) && ProjectNames(c, ctx) != [] && Destination(b.w.server, ProjectNames(c, ctx)[0], target, c)
    requires c.facts.taskId in b.applied ==> b.applied[c.facts.taskId].state == Skipped || b.applied[c.facts.taskId].state == Failed
    ensures var b1 := SetRecord(b, Intent(c.facts.taskId, WriteInFlight, TaskMarker(ctx.sessionKey, c.facts.taskId), target, None));
            Quiet(b1.w) && b1.w.server == b.w.server && PublishOne(b, c, ctx) == CreateRoot(b1, c, ctx, target, None, None)
  {
    hide ProjectNames, CreateRoot, Lower, Trim, RootState, TaskMarker, WantedState, Proper, Contains, CommentHead, AcceptedCompletion, ResolveFirst;
    hide SyncLinked, AdoptNamed, Block, DescriptionHead, MarkerOf, ManagedSection;
    ResolvesFirst(b.w, ProjectNames(c, ctx), target);
  }

  /** The chat is linked to an issue it filed for this task, and both tell the truth about it. */
  predicate Truthful(s: Server, i: nat, c: Candidate, ctx: Context, d: Option<Record>) {
    && i < |s.issues| && s.issues[i].key == RootKey(c.facts.taskId) && IsLinked(d) && d.value.issueId == Some(i)
    && IssueTruthful(s, i, ArgsFor(d.value, c.facts, ctx)) && RecordTruthful(d.value, ArgsFor(d.value, c.facts, ctx))
  }

  /** What the server already holds stays; issues and comments are only added. */
  predicate OnlyAdds(s: Server, t: Server) {
    |s.issues| <= |t.issues| && t.issues[..|s.issues|] == s.issues && s.comments <= t.comments && s.projects == t.projects
  }

  lemma LinkedConverges(w: World, i: nat, c: Candidate, ctx: Context, target: Resolved, name: string, r: Record)
    requires Quiet(w) && Fileable(c, ctx) && Destination(w.server, name, target, c) && LinkedTo(w.server, i, c, ctx, target, r)
    requires |w.server.issues| == i + 1
    ensures var synced := Sync(w, ArgsFor(r, c.facts, ctx));
            && !synced.stopped && Quiet(synced.w) && (synced.saved || synced.record == r) && synced.record.taskId == r.taskId
            && Truthful(synced.w.server, i, c, ctx, Some(synced.record))
            && |synced.w.server.issues| == i + 1 && synced.w.server.issues[..i] == w.server.issues[..i]
            && w.server.comments <= synced.w.server.comments && synced.w.server.projects == w.server.projects
  {
    hide Sync, Ready, IssueTruthful, RecordTruthful, Fileable, Destination, MergeManagedDescription, ManagedSection;
    hide RootDescription, Substituted, Present, RootState, CommentsOn, Visible;
    var a := ArgsFor(r, c.facts, ctx);
    FiledIssueIsReady(w.server, i, c, ctx, target, name, r);
    QuietPassConverges(w, a, i);
    var synced := Sync(w, a);
    SameTruth(synced.w.server, i, synced.record, a, ArgsFor(synced.record, c.facts, ctx));
  }

  lemma SameTruth(s: Server, i: nat, r: Record, a: SyncArgs, again: SyncArgs)
    requires i < |s.issues| && IssueTruthful(s, i, a) && RecordTruthful(r, a)
    requires again.facts == a.facts && again.sessionKey == a.sessionKey
    ensures IssueTruthful(s, i, again) && RecordTruthful(r, again)
  {
  }

  lemma SyncedIsReported(b: Batch, c: Candidate, ctx: Context, r: Record)
    requires r.taskId == c.facts.taskId && Get(b.applied, c.facts.taskId) == Some(r)
    requires var synced := Sync(b.w, ArgsFor(r, c.facts, ctx));
             !synced.stopped && (synced.saved || synced.record == r) && synced.record.taskId == r.taskId
    ensures var g, synced := SyncLinked(b, r, c.facts, ctx), Sync(b.w, ArgsFor(r, c.facts, ctx));
            g.More? && g.batch.w == synced.w && g.batch.applied == b.applied[c.facts.taskId := synced.record]
  {
    hide Sync;
  }

  /** The first declared project exists and fits the task. */
  predicate HasDestination(s: Server, c: Candidate, ctx: Context) {
    && ProjectNames(c, ctx) != []
    && var key := Lower(Trim(ProjectNames(c, ctx)[0]));
       key in s.projects && Destination(s, ProjectNames(c, ctx)[0], s.projects[key], c)
  }

  /** One candidate after another: each becomes the last issue, and the associations of the others stay. */
  ghost predicate FiledNext(b: Batch, after: Batch, c: Candidate, ctx: Context) {
    && Quiet(after.w) && OnlyAdds(b.w.server, after.w.server) && |after.w.server.issues| == |b.w.server.issues| + 1
    && (forall t | t != c.facts.taskId :: Get(after.applied, t) == Get(b.applied, t))
    && Truthful(after.w.server, |b.w.server.issues|, c, ctx, Get(after.applied, c.facts.taskId))
  }

  /** A task without an association becomes one issue of its own that tells the truth about it: owned, described, in the
      right state, and already commented on and closed when the task is already done. Nothing else changes. */
  lemma QuietFilingConverges(b: Batch, c: Candidate, ctx: Context)
    requires Quiet(b.w) && Fileable(c, ctx) && HasDestination(b.w.server, c, ctx) && !HoldsAssociation(Get(b.applied, c.facts.taskId))
    ensures PublishOne(b, c, ctx).More? && FiledNext(b, PublishOne(b, c, ctx).batch, c, ctx)
  {
    hide PublishOne, CreateRoot, SendBatch, Fileable, SyncLinked, Sync, Truthful, ProjectNames, RootDescription;
    hide Lower, Trim, TaskMarker, WantedState, Substituted;
    var name := ProjectNames(c, ctx)[0];
    var target := b.w.server.projects[Lower(Trim(name))];
    var b1 := SetRecord(b, Intent(c.facts.taskId, WriteInFlight, TaskMarker(ctx.sessionKey, c.facts.taskId), target, None));
    assert Lower(RootState(c)) in target.states;
    QuietFiles(b, c, ctx, target);
    QuietCreate(b1, c, ctx, target);
    var b2, i := SendBatch(b1, c, ctx, target), |b.w.server.issues|;
    var linked := LinkRecord(c, ViewOf(b2.w.server, i), target, None);
    var b3 := SetRecord(b2, linked);
    LinkedConverges(b3.w, i, c, ctx, target, name, linked);
    SyncedIsReported(b3, c, ctx, linked);
  }

  // ----- a whole batch -----

  /** Tasks of their own, each without an association and with somewhere to go. */
  predicate AllNew(cs: seq<Candidate>, s: Server, records: Records, ctx: Context) {
    && (forall i, j | 0 <= i < j < |cs| :: cs[i].facts.taskId != cs[j].facts.taskId)
    && forall c | c in cs :: Fileable(c, ctx) && HasDestination(s, c, ctx) && !HoldsAssociation(Get(records, c.facts.taskId))
  }

  /** Every candidate has its own new issue, in order, and each is truthful. */
  ghost predicate AllFiled(b: Batch, after: Batch, cs: seq<Candidate>, ctx: Context) {
    && Quiet(after.w) && OnlyAdds(b.w.server, after.w.server) && |after.w.server.issues| == |b.w.server.issues| + |cs|
    && (forall t | forall c | c in cs :: c.facts.taskId != t :: Get(after.applied, t) == Get(b.applied, t))
    && forall k | 0 <= k < |cs| :: Truthful(after.w.server, |b.w.server.issues| + k, cs[k], ctx, Get(after.applied, cs[k].facts.taskId))
  }

  lemma StaysTruthful(s: Server, t: Server, i: nat, c: Candidate, ctx: Context, d: Option<Record>)
    requires Truthful(s, i, c, ctx, d) && OnlyAdds(s, t)
    ensures Truthful(t, i, c, ctx, d)
  {
    hide MergeManagedDescription, ManagedSection, Contains, SameState, WantedState, AnswerMarker, RevisionOf, AcceptedCompletion, HasAnswerMarker, RecordTruthful;
    hide Visible, CommentsOn;
    assert t.issues[i] == s.issues[i] by { assert t.issues[..|s.issues|][i] == s.issues[i]; }
    if AcceptedCompletion(c.facts) {
      VisibleStays(s.comments, t.comments, i, CommentMarker(ArgsFor(d.value, c.facts, ctx)));
    }
  }

  lemma StillNew(b: Batch, b1: Batch, front: seq<Candidate>, c: Candidate, ctx: Context)
    requires AllFiled(b, b1, front, ctx) && HasDestination(b.w.server, c, ctx)
    requires forall x | x in front :: x.facts.taskId != c.facts.taskId
    ensures Quiet(b1.w) && HasDestination(b1.w.server, c, ctx) && Get(b1.applied, c.facts.taskId) == Get(b.applied, c.facts.taskId)
  {
    hide ProjectNames, RootState, WantedState, Truthful;
  }

  lemma {:induction false} QuietPublishAll(b: Batch, cs: seq<Candidate>, ctx: Context)
    requires Quiet(b.w) && AllNew(cs, b.w.server, b.applied, ctx)
    ensures PublishAll(b, cs, ctx).More? && AllFiled(b, PublishAll(b, cs, ctx).batch, cs, ctx)
    decreases |cs|
  {
    hide Fileable, HasDestination, Truthful, FiledNext, AllFiled, AllNew, PublishOne;
    if cs == [] {
      NothingFiled(b, ctx);
    } else {
      var n := |cs| - 1;
      var front, c := cs[..n], cs[n];
      NewBeforeLast(cs, b.w.server, b.applied, ctx);
      QuietPublishAll(b, front, ctx);
      var b1 := PublishAll(b, front, ctx).batch;
      StillNew(b, b1, front, c, ctx);
      QuietFilingConverges(b1, c, ctx);
      FilesOneMore(b, b1, PublishOne(b1, c, ctx).batch, front, c, ctx);
      assert cs == front + [c];
    }
  }

  lemma NothingFiled(b: Batch, ctx: Context)
    requires Quiet(b.w)
    ensures AllFiled(b, b, [], ctx)
  {
  }

  lemma NewBeforeLast(cs: seq<Candidate>, s: Server, records: Records, ctx: Context)
    requires AllNew(cs, s, records, ctx) && cs != []
    ensures var front, c := cs[..|cs| - 1], cs[|cs| - 1];
            && AllNew(front, s, records, ctx) && (forall x | x in front :: x.facts.taskId != c.facts.taskId)
            && Fileable(c, ctx) && HasDestination(s, c, ctx) && !HoldsAssociation(Get(records, c.facts.taskId))
  {
    hide Fileable, HasDestination;
    var front := cs[..|cs| - 1];
    assert forall x | x in front :: x in cs;
    assert cs[|cs| - 1] in cs;
  }

  lemma FilesOneMore(b: Batch, b1: Batch, b2: Batch, front: seq<Candidate>, c: Candidate, ctx: Context)
    requires AllFiled(b, b1, front, ctx) && FiledNext(b1, b2, c, ctx)
    requires forall x | x in front :: x.facts.taskId != c.facts.taskId
    ensures AllFiled(b, b2, front + [c], ctx)
  {
    hide Truthful;
    var cs := front + [c];
    forall k | 0 <= k < |cs| ensures Truthful(b2.w.server, |b.w.server.issues| + k, cs[k], ctx, Get(b2.applied, cs[k].facts.taskId)) {
      if k < |front| {
        assert front[k] in front;
        StaysTruthful(b1.w.server, b2.w.server, |b.w.server.issues| + k, cs[k], ctx, Get(b1.applied, cs[k].facts.taskId));
      }
    }
    forall t | forall x | x in cs :: x.facts.taskId != t ensures Get(b2.applied, t) == Get(b.applied, t) {
      assert c in cs && forall x | x in front :: x in cs;
    }
    assert b2.w.server.issues[..|b.w.server.issues|] == b.w.server.issues;
  }

  // ----- which operations file a task -----

  /** A created task, or one updated with Hoja metadata, that stands on its own and is neither kept out nor given an
      issue. */
  predicate NewTask(item: Item) {
    var m := item.meta.GetOr(NO_META);
    && item.succeeded && item.facts.taskId != ""
    && (item.op == CreateTask || (item.op == UpdateTask && (m.hoja != NoFlag || m.hojaProject.Some? || m.hojaAssignee.Some?)))
    && (m.hoja == NoFlag || m.hoja == MarkPublish) && m.hojaIssue.None? && (item.parentTaskId.None? || item.parentTaskId == Some(""))
  }

  /** The new tasks among the operations, in order. */
  function NewOnes(items: seq<Item>): seq<Candidate> {
    if items == [] then []
    else
      var last := items[|items| - 1];
      NewOnes(items[..|items| - 1])
      + (if NewTask(last) then [Candidate(last.facts, last.parentTaskId, last.description, last.meta.GetOr(NO_META), ToPublish)] else [])
  }

  /** Every operation files a new task or is not for Hoja. */
  predicate FilesOrIgnores(items: seq<Item>, records: Records) {
    forall item | item in items :: NewTask(item) || NotForHoja(item, Get(records, item.facts.taskId))
  }

  lemma OneChoice(item: Item, records: Records)
    requires NewTask(item) || NotForHoja(item, Get(records, item.facts.taskId))
    ensures Considered(item) ==> !CandidateFor(item, records).RejectedMeta?
    ensures Considered(item) && CandidateFor(item, records).Chosen? <==> NewTask(item)
    ensures NewTask(item) ==>
              CandidateFor(item, records).candidate == Candidate(item.facts, item.parentTaskId, item.description, item.meta.GetOr(NO_META), ToPublish)
  {
    NotForHojaIsIgnored(item, records);
  }

  /** The candidates of such a batch are its new tasks. */
  lemma {:induction false} CandidatesAreNewOnes(items: seq<Item>, records: Records)
    requires FilesOrIgnores(items, records)
    ensures Candidates(items, records) == NewOnes(items) && RejectedTasks(items, records) == []
    decreases |items|
  {
    hide NewTask, NotForHoja, CandidateFor, Considered;
    if items != [] {
      var n := |items| - 1;
      assert items[n] in items && forall item | item in items[..n] :: item in items;
      CandidatesAreNewOnes(items[..n], records);
      OneChoice(items[n], records);
    }
  }

  // ----- the reconciliation of a quiet batch -----

  /** What a search that answers, and a read-back that answers, come to: the first issue that mentions the marker is the
      one the create was to make. */
  predicate QuietlyFound(s: Server, r: Record)
    requires r.marker.Some?
  {
    var i := FirstWith(s.issues, r.marker.value);
    && i < |s.issues| && HasLine(s.issues[i].description, "Link marker: " + r.marker.value)
    && (r.projectId.Some? && r.projectId.value != "" ==> s.issues[i].projectId == r.projectId.value)
    && s.issues[i].parent == r.expectedParent
  }

  lemma QuietlyFoundIsFound(w: World, r: Record)
    requires Quiet(w) && Pending(r)
    ensures FoundAt(w, r, Picked(w, r.marker.value)) <==> QuietlyFound(w.server, r)
  {
    hide HasLine, Contains;
    QuietAwait(w);
  }

  lemma QuietReconcileOne(b: Batch, r: Record)
    requires Quiet(b.w)
    ensures var g := ReconcileOne(b, r); g.More? && Quiet(g.batch.w) && g.batch.w.server == b.w.server
  {
    hide HasLinkMarker, Contains, Reconciled;
    QuietAwait(b.w);
  }

  lemma {:induction false} QuietReconcileAll(b: Batch, order: seq<Record>)
    requires Quiet(b.w)
    ensures var g := ReconcileAll(b, order); g.More? && Quiet(g.batch.w) && g.batch.w.server == b.w.server
    decreases |order|
  {
    hide ReconcileOne;
    if order != [] {
      QuietReconcileAll(b, order[..|order| - 1]);
      QuietReconcileOne(ReconcileAll(b, order[..|order| - 1]).batch, order[|order| - 1]);
    }
  }

  // ----- the whole batch -----

  lemma NewOnesAreOf(items: seq<Item>, t: string)
    requires forall item | item in items :: item.facts.taskId != t
    ensures forall c | c in NewOnes(items) :: c.facts.taskId != t
  {
    if items != [] {
      assert items[|items| - 1] in items && forall item | item in items[..|items| - 1] :: item in items;
      NewOnesAreOf(items[..|items| - 1], t);
    }
  }

  /** No operation is about an association that is still to be resolved. */
  predicate AboutOthers(items: seq<Item>, order: seq<Record>) {
    forall item, r | item in items && r in order && Pending(r) :: item.facts.taskId != r.taskId
  }

  lemma SameForItems(b: Batch, items: seq<Item>, order: seq<Record>)
    requires Keyed(b.applied) && (forall r | r in order :: r.taskId != "") && AboutOthers(items, order)
    ensures forall item | item in items :: Get(ReconcileAll(b, order).batch.applied, item.facts.taskId) == Get(b.applied, item.facts.taskId)
  {
    forall item | item in items ensures Get(ReconcileAll(b, order).batch.applied, item.facts.taskId) == Get(b.applied, item.facts.taskId) {
      NothingYet(b, item.facts.taskId);
      ReconcileAllLeaves(b, b, order, item.facts.taskId);
    }
  }

  lemma StillAllNew(b: Batch, b1: Batch, items: seq<Item>, ctx: Context)
    requires AllNew(NewOnes(items), b.w.server, b.applied, ctx) && b1.w.server == b.w.server
    requires forall item | item in items :: Get(b1.applied, item.facts.taskId) == Get(b.applied, item.facts.taskId)
    ensures AllNew(NewOnes(items), b1.w.server, b1.applied, ctx)
  {
    hide Fileable, HasDestination;
    forall c | c in NewOnes(items) ensures Get(b1.applied, c.facts.taskId) == Get(b.applied, c.facts.taskId) {
      if forall item | item in items :: item.facts.taskId != c.facts.taskId {
        NewOnesAreOf(items, c.facts.taskId);
      }
    }
  }

  /** A quiet batch of new tasks files every one of them, each as one issue of its own that tells the truth about it, in
      the order of the operations; and of the creates whose outcome was unknown exactly those are linked whose issue is
      found. Every issue and comment that was there stays, and so does every other association. */
  lemma QuietBatchConverges(w: World, items: seq<Item>, records: Records, order: seq<Record>, ctx: Context)
    requires Quiet(w) && ctx.enabled && Keyed(records) && Enumerates(order, records) && AboutOthers(items, order)
    requires FilesOrIgnores(items, records) && AllNew(NewOnes(items), w.server, records, ctx)
    ensures var g, resolved := PublishBatch(w, items, records, order, ctx), ReconcileAll(Batch(w, records, [], []), order).batch;
            && g.More? && resolved.w.server == w.server && AllFiled(resolved, g.batch, NewOnes(items), ctx)
            && (forall t | t in records && !Pending(records[t]) :: Get(resolved.applied, t) == Get(records, t))
            && forall k | 0 <= k < |order| && Pending(order[k]) ::
                 IsLinked(Get(g.batch.applied, order[k].taskId)) <==> QuietlyFound(w.server, order[k])
  {
    hide AllNew, AllFiled, Candidates, RejectedTasks, PublishAll, ReconcileAll, FilesOrIgnores, QuietlyFound, Enumerates;
    var b := Batch(w, records, [], []);
    QuietReconcileAll(b, order);
    var b1 := ReconcileAll(b, order).batch;
    OrderIsNamed(records, order);
    SameForItems(b, items, order);
    SameChoices(items, records, b1.applied);
    CandidatesAreNewOnes(items, b1.applied);
    StillAllNew(b, b1, items, ctx);
    NoneRejected(b1);
    QuietPublishAll(b1, NewOnes(items), ctx);
    forall t | t in records && !Pending(records[t]) ensures Get(b1.applied, t) == Get(records, t) {
      OnlyOwnRecord(records, order, t);
      NothingYet(b, t);
      ReconcileAllLeaves(b, b, order, t);
    }
    forall k | 0 <= k < |order| && Pending(order[k])
      ensures IsLinked(Get(PublishBatch(w, items, records, order, ctx).batch.applied, order[k].taskId)) <==> QuietlyFound(w.server, order[k]) {
      QuietlyResolved(w, items, records, order, k, ctx);
    }
  }

  lemma OrderIsNamed(records: Records, order: seq<Record>)
    requires Keyed(records) && Enumerates(order, records)
    ensures forall r | r in order :: r.taskId != ""
  {
    assert forall r | r in order :: r.taskId in records;
  }

  lemma OnlyOwnRecord(records: Records, order: seq<Record>, t: string)
    requires Enumerates(order, records) && t in records
    ensures forall r | r in order && r.taskId == t :: r == records[t]
  {
  }

  lemma SameChoices(items: seq<Item>, records: Records, others: Records)
    requires FilesOrIgnores(items, records) && forall item | item in items :: Get(others, item.facts.taskId) == Get(records, item.facts.taskId)
    ensures FilesOrIgnores(items, others)
  {
    hide NewTask, NotForHoja;
  }

  lemma QuietlyResolved(w: World, items: seq<Item>, records: Records, order: seq<Record>, k: nat, ctx: Context)
    requires Quiet(w) && ctx.enabled && Keyed(records) && Enumerates(order, records) && AboutOthers(items, order) && k < |order| && Pending(order[k])
    requires PublishBatch(w, items, records, order, ctx).More?
    ensures IsLinked(Get(PublishBatch(w, items, records, order, ctx).batch.applied, order[k].taskId)) <==> QuietlyFound(w.server, order[k])
  {
    var b, r := Batch(w, records, [], []), order[k];
    assert r in order;
    hide Concluded, FoundAt, QuietlyFound, Picked, PublishBatch, ReconcileAll, Enumerates;
    QuietReconcileAll(b, order[..k]);
    QuietlyFoundIsFound(TurnOf(w, records, order, k).w, r);
    LostCreateIsLinkedIff(w, items, records, order, k, ctx);
  }

  lemma NoneRejected(b: Batch)
    ensures RejectAll(b, []) == b
  {
  }
}

/** `publishBatch` and the chat's event handlers, step by step: `applied`, `changed` and `blocked` are reassigned in
    loops through `Set`, `Commit` and `Block`, and the chat keeps `records` and `enabled` between batches. */
module HojaPublisher {
  import opened Wrappers
  import opened JsText
  import opened ManagedBlock
  import opened Markers
  import opened HojaRecords
  import opened HojaServer
  import opened HojaWorld
  import P = Publish
  import HojaSession
  import R = HojaRuns

  method PublishCandidates(items: seq<P.Item>, records: Records) returns (candidates: seq<P.Candidate>, rejected: seq<string>)
    ensures candidates == P.Candidates(items, records) && rejected == P.RejectedTasks(items, records)
  {
    candidates, rejected := [], [];
    for i := 0 to |items|
      invariant candidates == P.Candidates(items[..i], records) && rejected == P.RejectedTasks(items[..i], records)
    {
      assert items[..i + 1][..i] == items[..i];
      if !P.Considered(items[i]) {
        continue;
      }
      match P.CandidateFor(items[i], records) {
        case RejectedMeta => rejected := rejected + [items[i].facts.taskId];
        case Chosen(candidate) => candidates := candidates + [candidate];
        case Ignored =>
      }
    }
    assert items[..|items|] == items;
  }

  class Publication {
    var world: World
    var applied: Records
    var changed: seq<Record>
    var blocked: seq<Record>

    constructor (w: World, records: Records)
      ensures State() == P.Batch(w, records, [], [])
    {
      world, applied, changed, blocked := w, records, [], [];
    }

    function State(): P.Batch
      reads this
    {
      P.Batch(world, applied, changed, blocked)
    }

    method Set(r: Record)
      modifies this
      ensures State() == P.SetRecord(old(State()), r)
    {
      applied := applied[r.taskId := r];
      changed := changed + [r];
      if world.active {
        world := world.(journal := world.journal + [Link(r)]);
      }
    }

    method Commit(r: Record)
      modifies this
      ensures State() == P.CommitRecord(old(State()), r)
    {
      applied := applied[r.taskId := r];
      changed := changed + [r];
    }

    method Block(previous: Record)
      modifies this
      ensures State() == P.Block(old(State()), previous)
    {
      if !P.Mentions(blocked, previous.taskId) {
        blocked := blocked + [previous];
      }
    }

    method Reconcile(previous: Record) returns (stopped: bool)
      modifies this
      ensures P.ReconcileOne(old(State()), previous) == (if stopped then P.Stopped(State()) else P.More(State()))
    {
      stopped := false;
      if previous.state != Reconciling || !Truthy(previous.marker) {
        return;
      }
      if !world.active {
        return true;
      }
      var (w1, lookup) := FindByMarker(world, previous.marker.value);
      world := w1;
      if !lookup.Hit? {
        Block(previous);
        return;
      }
      if !world.active {
        return true;
      }
      var (w2, read) := ReadIssue(world, lookup.id);
      world := w2;
      if read.None? || !P.ReadbackMatches(read.value, previous.marker.value, previous.projectId, previous.expectedParent) {
        Block(previous);
        return;
      }
      Set(P.Reconciled(previous, read.value));
    }

    method SyncLinked(linked: Record, facts: TaskFacts, ctx: P.Context) returns (stopped: bool)
      modifies this
      ensures P.SyncLinked(old(State()), linked, facts, ctx) == (if stopped then P.Stopped(State()) else P.More(State()))
    {
      var synced := HojaSession.SyncTask(world, P.ArgsFor(linked, facts, ctx));
      world := synced.w;
      if synced.stopped {
        return true;
      }
      if synced.saved {
        Commit(synced.record);
      }
      stopped := false;
    }

    method AdoptNamed(c: P.Candidate, ctx: P.Context, named: string) returns (stopped: bool)
      modifies this
      ensures P.AdoptNamed(old(State()), c, ctx, named) == (if stopped then P.Stopped(State()) else P.More(State()))
    {
      var task, wanted := c.facts.taskId, Upper(Trim(named));
      stopped := false;
      if !P.IsIdentifier(wanted) {
        Set(Because(task, Skipped, InvalidHojaIssue));
        return;
      }
      var (w1, lookup) := FindByIdentifier(world, wanted);
      world := w1;
      if !lookup.Hit? {
        Set(Because(task, Failed, if lookup.NoAnswer? then LookupFailed else IssueNotFound).(identifier := Some(wanted)));
        return;
      }
      if Upper(lookup.identifier) != wanted {
        Set(Because(task, Failed, IdentifierMismatch).(identifier := Some(wanted)));
        return;
      }
      var adopted := P.AdoptedRecord(c, lookup.id, lookup.identifier);
      Set(adopted);
      var synced := HojaSession.SyncTask(world, P.ArgsFor(adopted, c.facts, ctx));
      world := synced.w;
      if synced.stopped {
        return true;
      }
      Commit(synced.record);
    }

    /** Tries the declared names in order. */
    method ResolveFirst(names: seq<string>) returns (selection: P.Selection)
      modifies this
      ensures (State().w, selection) == P.ResolveFirst(old(world), names)
      ensures State() == old(State()).(w := world)
    {
      for i := 0 to |names|
        invariant P.ResolveFirst(old(world), names) == P.ResolveFirst(world, names[i..])
        invariant State() == old(State()).(w := world)
      {
        var (w1, resolution) := Resolve(world, names[i]);
        assert names[i..][1..] == names[i + 1..];
        world := w1;
        if resolution.ResolvedTo? {
          return P.Selected(resolution.target);
        }
        if resolution.ResolveFailed? {
          return P.NothingResolves;
        }
        if !world.active {
          return P.SessionGone;
        }
      }
      selection := P.NothingResolves;
    }

    method FileNew(c: P.Candidate, ctx: P.Context) returns (stopped: bool)
      modifies this
      ensures P.FileNew(old(State()), c, ctx) == (if stopped then P.Stopped(State()) else P.More(State()))
    {
      var task, names := c.facts.taskId, P.ProjectNames(c, ctx);
      stopped := false;
      if names == [] {
        Set(Because(task, Skipped, NoProject));
        return;
      }
      var selection := ResolveFirst(names);
      if selection.SessionGone? {
        return true;
      }
      if selection.NothingResolves? {
        Set(Because(task, Failed, ProjectUnresolved).(
          project := Some(names[0]), substitutedFrom := if |names| > 1 then P.NamedProject(c) else None));
        return;
      }
      stopped := FileIn(c, ctx, selection.target);
    }

    method FileIn(c: P.Candidate, ctx: P.Context, target: Resolved) returns (stopped: bool)
      modifies this
      ensures P.FileIn(old(State()), c, ctx, target) == (if stopped then P.Stopped(State()) else P.More(State()))
    {
      var task := c.facts.taskId;
      stopped := false;
      if Lower(P.RootState(c)) !in target.states {
        Set(Because(task, Skipped, StateUnavailable).(project := Some(target.project)));
        return;
      }
      var parent, parentIssue := P.ParentOf(State(), c), P.ParentIssue(State(), c);
      if Truthy(c.parentTaskId) && parentIssue.None? {
        Set(Because(task, Skipped, ParentUnpublished).(project := Some(target.project)));
        return;
      }
      var marker := TaskMarker(ctx.sessionKey, task);
      Set(P.Intent(task, WriteInFlight, marker, target, parentIssue));
      if !world.active {
        return true;
      }
      stopped := CreateRoot(c, ctx, target, parentIssue, parent);
    }

    method CreateRoot(c: P.Candidate, ctx: P.Context, target: Resolved, parentIssue: Option<nat>, parent: Option<Record>) returns (stopped: bool)
      modifies this
      ensures P.CreateRoot(old(State()), c, ctx, target, parentIssue, parent) == (if stopped then P.Stopped(State()) else P.More(State()))
    {
      hide P.ReadBack, P.SendRoot, TaskMarker;
      var task, marker := c.facts.taskId, TaskMarker(ctx.sessionKey, c.facts.taskId);
      stopped := false;
      var (w1, answer, id) := P.SendRoot(world, c, ctx, target, parentIssue);
      world := w1;
      if answer.Ambiguous? {
        Set(P.Intent(task, AmbiguousWrite, marker, target, parentIssue));
        return;
      }
      if answer.Refused? {
        Set(Because(task, Failed, CreateFailed).(project := Some(target.project)));
        return;
      }
      if !world.active {
        return true;
      }
      stopped := ReadBack(c, ctx, target, parentIssue, id, parent);
    }

    method ReadBack(c: P.Candidate, ctx: P.Context, target: Resolved, parentIssue: Option<nat>, id: nat, parent: Option<Record>) returns (stopped: bool)
      modifies this
      ensures P.ReadBack(old(State()), c, ctx, target, parentIssue, id, parent) == (if stopped then P.Stopped(State()) else P.More(State()))
    {
      hide P.ReadbackMatches, P.SyncLinked, P.LinkRecord, P.CreatedIdentifier, TaskMarker, ReadIssue;
      var task, marker := c.facts.taskId, TaskMarker(ctx.sessionKey, c.facts.taskId);
      stopped := false;
      var doubt := P.Intent(task, ReadbackUnverified, marker, target, parentIssue).(issueId := Some(id), identifier := P.CreatedIdentifier(world, id));
      var (w2, read) := ReadIssue(world, id);
      world := w2;
      if read.None? {
        Set(doubt);
        return;
      }
      if !P.ReadbackMatches(read.value, marker, Some(target.projectId), parentIssue) {
        Set(doubt.(reason := Some(ReadbackMismatch)));
        return;
      }
      var linked := P.LinkRecord(c, read.value, target, parent);
      Set(linked);
      stopped := SyncLinked(linked, c.facts, ctx);
    }

    method PublishOne(c: P.Candidate, ctx: P.Context) returns (stopped: bool)
      modifies this
      ensures P.PublishOne(old(State()), c, ctx) == (if stopped then P.Stopped(State()) else P.More(State()))
    {
      stopped := false;
      if !world.active {
        return true;
      }
      var previous := Get(applied, c.facts.taskId);
      if c.kind.ToSync? {
        if P.IsLinked(previous) && previous.value.issueId.Some? {
          stopped := SyncLinked(previous.value, c.facts, ctx);
        }
        return;
      }
      if P.IsLinked(previous) {
        stopped := SyncLinked(previous.value, c.facts, ctx);
        return;
      }
      if c.meta.hojaIssue.Some? {
        stopped := AdoptNamed(c, ctx, c.meta.hojaIssue.value);
        return;
      }
      if previous.Some? && previous.value.state == Reconciling {
        Block(previous.value);
        return;
      }
      stopped := FileNew(c, ctx);
    }

    method Run(items: seq<P.Item>, order: seq<Record>, ctx: P.Context) returns (stopped: bool)
      requires State() == P.Batch(world, applied, [], [])
      modifies this
      ensures P.PublishBatch(old(world), items, old(applied), order, ctx) == (if stopped then P.Stopped(State()) else P.More(State()))
    {
      stopped := false;
      if !ctx.enabled {
        return;
      }
      if !world.active {
        return true;
      }
      hide P.ReconcileAll, P.RejectAll, P.PublishAll, P.Candidates, P.RejectedTasks;
      stopped := ReconcileEach(order);
      if stopped {
        return;
      }
      var candidates, rejected := PublishCandidates(items, applied);
      if !world.active {
        return true;
      }
      RejectEach(rejected);
      stopped := PublishEach(candidates, ctx);
    }

    method ReconcileEach(order: seq<Record>) returns (stopped: bool)
      modifies this
      ensures P.ReconcileAll(old(State()), order) == (if stopped then P.Stopped(State()) else P.More(State()))
    {
      hide P.ReconcileOne;
      ghost var b := State();
      stopped := false;
      for i := 0 to |order|
        invariant P.ReconcileAll(b, order[..i]) == P.More(State())
      {
        assert order[..i + 1][..i] == order[..i];
        stopped := Reconcile(order[i]);
        if stopped {
          StoppedStays(b, order, i + 1);
          return;
        }
      }
      assert order[..|order|] == order;
    }

    method RejectEach(rejected: seq<string>)
      modifies this
      ensures State() == P.RejectAll(old(State()), rejected)
    {
      hide P.SetRecord;
      ghost var b := State();
      for i := 0 to |rejected|
        invariant State() == P.RejectAll(b, rejected[..i])
      {
        assert rejected[..i + 1][..i] == rejected[..i];
        Set(Because(rejected[i], Skipped, InvalidHojaMetadata));
      }
      assert rejected[..|rejected|] == rejected;
    }

    method PublishEach(candidates: seq<P.Candidate>, ctx: P.Context) returns (stopped: bool)
      modifies this
      ensures P.PublishAll(old(State()), candidates, ctx) == (if stopped then P.Stopped(State()) else P.More(State()))
    {
      hide P.PublishOne;
      ghost var b := State();
      stopped := false;
      for i := 0 to |candidates|
        invariant P.PublishAll(b, candidates[..i], ctx) == P.More(State())
      {
        assert candidates[..i + 1][..i] == candidates[..i];
        stopped := PublishOne(candidates[i], ctx);
        if stopped {
          PublishStoppedStays(b, candidates, i + 1, ctx);
          return;
        }
      }
      assert candidates[..|candidates|] == candidates;
    }
  }

  /** A batch that stopped stays stopped: the rest of the loop does nothing. */
  lemma {:induction false} StoppedStays(b: P.Batch, order: seq<Record>, n: nat)
    requires n <= |order| && P.ReconcileAll(b, order[..n]).Stopped?
    ensures P.ReconcileAll(b, order) == P.ReconcileAll(b, order[..n])
    decreases |order|
  {
    if n == |order| {
      assert order[..n] == order;
    } else {
      var front := order[..|order| - 1];
      assert front[..n] == order[..n];
      StoppedStays(b, front, n);
    }
  }

  lemma {:induction false} PublishStoppedStays(b: P.Batch, cs: seq<P.Candidate>, n: nat, ctx: P.Context)
    requires n <= |cs| && P.PublishAll(b, cs[..n], ctx).Stopped?
    ensures P.PublishAll(b, cs, ctx) == P.PublishAll(b, cs[..n], ctx)
    decreases |cs|
  {
    if n == |cs| {
      assert cs[..n] == cs;
    } else {
      var front := cs[..|cs| - 1];
      assert front[..n] == cs[..n];
      PublishStoppedStays(b, front, n, ctx);
    }
  }

  method PublishBatch(w: World, items: seq<P.Item>, records: Records, order: seq<Record>, ctx: P.Context) returns (outcome: P.Progress)
    ensures outcome == P.PublishBatch(w, items, records, order, ctx)
  {
    var publication := new Publication(w, records);
    var stopped := publication.Run(items, order, ctx);
    outcome := if stopped then P.Stopped(publication.State()) else P.More(publication.State());
  }

  /** The chat's closure state and its handlers. */
  class HojaMode {
    var server: Server
    var journal: seq<Entry>
    var asked: seq<Audit>
    var records: Records
    var enabled: bool
    var abandoned: bool
    const sessionKey: string

    constructor (server: Server, sessionKey: string)
      ensures State() == R.Chat(server, [], [], map[], true, false) && this.sessionKey == sessionKey
    {
      this.server, this.sessionKey := server, sessionKey;
      journal, asked, records, enabled, abandoned := [], [], map[], true, false;
    }

    function State(): R.Chat
      reads this
    {
      R.Chat(server, journal, asked, records, enabled, abandoned)
    }

    method SetEnabled(on: bool)
      modifies this
      ensures State() == R.Next(old(State()), R.Toggle(on), sessionKey)
    {
      enabled := on;
    }

    method SessionStart(on: bool)
      modifies this
      ensures State() == R.Next(old(State()), R.Restart(on), sessionKey)
    {
      enabled := on;
      records := ReplayHojaRecords(journal);
      abandoned := false;
    }

    /** A TaskManage result. What the batch did is durable; the associations move on only if the session is still the
        one that started it. */
    method ToolResult(items: seq<P.Item>, order: seq<Record>, script: seq<Tick>, project: Option<string>, fallbackProject: Option<string>)
      modifies this
      ensures State() == R.Next(old(State()), R.TaskBatch(items, order, script, project, fallbackProject), sessionKey)
    {
      if !enabled {
        return;
      }
      var outcome := PublishBatch(World(server, journal, true, script, [], asked), items, records, order,
                                  P.Context(true, sessionKey, project, fallbackProject));
      var w := outcome.batch.w;
      server, journal, asked := w.server, w.journal, w.asked;
      if w.active {
        records := outcome.batch.applied;
      } else {
        abandoned := true;
      }
    }
  }
}

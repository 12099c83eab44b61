/** What one batch with a given script does, from any chat: the building blocks of `HojaCounterexamples`. */
module HojaScenarios {
  import opened Wrappers
  import opened JsText
  import opened ManagedBlock
  import opened Markers
  import opened AnswerRevision
  import opened HojaRecords
  import opened HojaServer
  import opened HojaWorld
  import opened LifecycleSync
  import opened Publish
  import opened HojaSafety
  import opened HojaJustified
  import opened HojaConvergence
  import opened HojaLinks
  import opened HojaPublishSafety
  import opened HojaRuns

  const DESTINATION := Resolved("team", "project", "p", {Lower("Todo")})

  /** A plain piece of work. */
  function Work(task: string): TaskFacts {
    TaskFacts(task, "work", "pending", None, [])
  }

  function ContextIn(sessionKey: string, project: Option<string>): Context {
    Context(true, sessionKey, project, None)
  }

  function ContextFor(sessionKey: string): Context {
    ContextIn(sessionKey, None)
  }

  // ----- lost writes land -----

  lemma {:induction false} EvolveCons(s: Server, step: EnvStep, steps: seq<EnvStep>)
    ensures Evolve(s, [step] + steps) == Evolve(Apply(s, step), steps)
    decreases |steps|
  {
    if steps == [] {
      assert [step] + steps == [step] && [step][..0] == [];
      assert Evolve(s, [step][..0]) == s;
    } else {
      var n := |steps| - 1;
      assert ([step] + steps)[..n + 1] == [step] + steps[..n];
      EvolveCons(s, step, steps[..n]);
    }
  }

  /** A late write lands: what may exist does not change, and there is one late write less. */
  lemma LandsFirst(s: Server)
    requires s.late != []
    ensures var t := Apply(s, CommitLate(0));
            |t.late| < |s.late| && forall k: Key :: k != OtherKey ==> Total(t, k) == Total(s, k)
  {
    hide Total, Commit;
    var rest := s.(late := s.late[..0] + s.late[1..]);
    CommitKeepsLate(rest, s.late[0]);
    forall k: Key | k != OtherKey ensures Total(Commit(rest, s.late[0]), k) == Total(s, k) {
      WithoutOneLate(s, 0, k);
      CommitCounts(rest, s.late[0], k);
    }
  }

  /** Every lost write can still land. */
  lemma LateLands(s: Server) returns (steps: seq<EnvStep>)
    ensures forall k: Key :: k != OtherKey ==> Committed(Evolve(s, steps), k) == Total(s, k)
    decreases |s.late|
  {
    hide Apply, Committed;
    if s.late == [] {
      steps := [];
      assert LateKeys(s.late) == [];
    } else {
      hide Total;
      LandsFirst(s);
      steps := LateLands(Apply(s, CommitLate(0)));
      EvolveCons(s, CommitLate(0), steps);
      steps := [CommitLate(0)] + steps;
    }
  }

  lemma CommitKeepsLate(s: Server, write: Late)
    ensures Commit(s, write).late == s.late
  {
  }

  lemma LostCounts(s: Server, write: Late, committed: bool, k: Key)
    requires k != OtherKey
    ensures Total(Settle(s, write, Lost(committed)), k) == Total(s, k) + (if LateKey(write) == k then 1 else 0)
  {
    hide Commit;
    if committed {
      hide Total;
      CommitCounts(s, write, k);
    } else {
      assert LateKeys(s.late + [write]) == LateKeys(s.late) + [LateKey(write)];
    }
  }

  // ----- a batch of one operation -----

  const NO_ANSWER := Tick([], Rejected, 0, "", false)

  /** One lookup without an answer for each association a batch tries to reconcile. */
  function Misses(order: seq<Record>): seq<Tick> {
    if order == [] then []
    else Misses(order[..|order| - 1]) + (if Pending(order[|order| - 1]) then [NO_ANSWER] else [])
  }

  function OperationIn(item: Item, order: seq<Record>, script: seq<Tick>, project: Option<string>): Event {
    TaskBatch([item], order, Misses(order) + script, project, None)
  }

  function OneOperation(item: Item, order: seq<Record>, script: seq<Tick>): Event {
    OperationIn(item, order, script, None)
  }

  /** The batch once every reconciliation went without an answer. */
  function Unanswered(c: Chat, order: seq<Record>, script: seq<Tick>): Batch {
    ReconcileAll(Batch(WorldOf(c, Misses(order) + script), c.records, [], []), order).batch
  }

  lemma {:induction false} ReconcileMisses(b: Batch, order: seq<Record>, script: seq<Tick>)
    requires b.w.active && b.w.script == Misses(order) + script
    ensures var g := ReconcileAll(b, order);
            g.More? && g.batch.w == b.w.(script := script) && g.batch.applied == b.applied
    decreases |order|
  {
    if order == [] {
      assert Misses(order) + script == script;
    } else {
      var front, last := order[..|order| - 1], order[|order| - 1];
      var rest := (if Pending(last) then [NO_ANSWER] else []) + script;
      assert b.w.script == Misses(front) + rest;
      ReconcileMisses(b, front, rest);
      assert Evolve(b.w.server, []) == b.w.server;
      if Pending(last) {
        assert rest[1..] == script && rest[0] == NO_ANSWER;
      } else {
        assert rest == script;
      }
    }
  }

  lemma CandidatesOfOne(item: Item, records: Records)
    requires Considered(item)
    ensures Candidates([item], records) == match CandidateFor(item, records) case Chosen(c) => [c] case _ => []
    ensures RejectedTasks([item], records) == if CandidateFor(item, records).RejectedMeta? then [item.facts.taskId] else []
  {
    assert [item][..0] == [];
    assert Candidates([item][..0], records) == [] && RejectedTasks([item][..0], records) == [];
  }

  lemma AllOfOne(b: Batch, c: Candidate, ctx: Context)
    ensures PublishAll(b, [c], ctx) == PublishOne(b, c, ctx) && PublishAll(b, [], ctx) == More(b)
  {
    assert [c][..0] == [];
    assert PublishAll(b, [c][..0], ctx) == More(b);
  }

  lemma RejectsOne(b: Batch, task: string)
    ensures RejectAll(b, []) == b && RejectAll(b, [task]) == SetRecord(b, Because(task, Skipped, InvalidHojaMetadata))
  {
    assert [task][..0] == [];
    assert RejectAll(b, [task][..0]) == b;
  }

  /** A batch of one operation is that operation. */
  lemma BatchOfOneIn(c: Chat, item: Item, order: seq<Record>, script: seq<Tick>, project: Option<string>, sessionKey: string)
    requires Considered(item)
    ensures var b := Unanswered(c, order, script);
            && b.w == WorldOf(c, script) && b.applied == c.records
            && Outcome(c, OperationIn(item, order, script, project), sessionKey) ==
                 match CandidateFor(item, c.records)
                 case Chosen(candidate) => PublishOne(b, candidate, ContextIn(sessionKey, project))
                 case RejectedMeta => More(SetRecord(b, Because(item.facts.taskId, Skipped, InvalidHojaMetadata)))
                 case Ignored => More(b)
  {
    hide ReconcileAll, PublishOne, CandidateFor, SetRecord, RejectAll, PublishAll, Candidates, RejectedTasks, Misses;
    var b, ctx := Unanswered(c, order, script), ContextIn(sessionKey, project);
    ReconcileMisses(Batch(WorldOf(c, Misses(order) + script), c.records, [], []), order, script);
    CandidatesOfOne(item, b.applied);
    RejectsOne(b, item.facts.taskId);
    match CandidateFor(item, b.applied)
    case Chosen(candidate) => AllOfOne(b, candidate, ctx);
    case RejectedMeta => AllOfOne(SetRecord(b, Because(item.facts.taskId, Skipped, InvalidHojaMetadata)), Filing(item.facts.taskId), ctx);
    case Ignored => AllOfOne(b, Filing(item.facts.taskId), ctx);
  }

  lemma BatchOfOne(c: Chat, item: Item, order: seq<Record>, script: seq<Tick>, sessionKey: string)
    requires Considered(item)
    ensures var b := Unanswered(c, order, script);
            && b.w == WorldOf(c, script) && b.applied == c.records
            && Outcome(c, OneOperation(item, order, script), sessionKey) ==
                 match CandidateFor(item, c.records)
                 case Chosen(candidate) => PublishOne(b, candidate, ContextFor(sessionKey))
                 case RejectedMeta => More(SetRecord(b, Because(item.facts.taskId, Skipped, InvalidHojaMetadata)))
                 case Ignored => More(b)
  {
    hide Outcome, Unanswered, PublishOne, CandidateFor, SetRecord, Misses;
    BatchOfOneIn(c, item, order, script, None, sessionKey);
  }

  /** A complete enumeration always exists. */
  lemma {:induction false} Enumeration(records: Records) returns (order: seq<Record>)
    requires Keyed(records)
    ensures Enumerates(order, records)
    decreases |records.Keys|
  {
    hide Enumerates;
    if records == map[] {
      order := [];
      NothingToEnumerate();
    } else {
      var t :| t in records;
      var rest := records - {t};
      assert rest.Keys == records.Keys - {t};
      order := Enumeration(rest);
      EnumerationGrows(order, records, t);
      order := order + [records[t]];
    }
  }

  lemma NothingToEnumerate()
    ensures Enumerates([], map[])
  {
  }

  lemma EnumerationGrows(order: seq<Record>, records: Records, t: string)
    requires Keyed(records) && t in records && Enumerates(order, records - {t})
    ensures Enumerates(order + [records[t]], records)
  {
    var rest, longer := records - {t}, order + [records[t]];
    forall i, j | 0 <= i < j < |longer| ensures longer[i].taskId != longer[j].taskId {
      assert longer[i] in order && Get(rest, longer[i].taskId) == Some(longer[i]);
    }
    forall r | r in longer ensures Get(records, r.taskId) == Some(r) {
      assert r in order ==> Get(rest, r.taskId) == Some(r);
    }
    forall u | u in records ensures records[u] in longer {
      assert u != t ==> u in rest && rest[u] in order;
    }
  }

  // ----- 1. an invalid flag -----

  function Operation(facts: TaskFacts, flag: Flag, named: Option<string>): Item {
    Item(true, CreateTask, facts, None, None, Some(Meta(flag, named, Some("p"), None)))
  }

  /** The flag overwrites whatever the task's record said. */
  lemma InvalidFlagBatch(c: Chat, task: string, order: seq<Record>, sessionKey: string)
    requires c.enabled && task != ""
    ensures var r := Because(task, Skipped, InvalidHojaMetadata);
            Next(c, OneOperation(Operation(Work(task), InvalidFlag, None), order, []), sessionKey)
              == c.(records := c.records[task := r], journal := c.journal + [Link(r)])
  {
    hide Outcome, PublishOne, Misses;
    BatchOfOne(c, Operation(Work(task), InvalidFlag, None), order, [], sessionKey);
  }

  // ----- 2. naming an issue that cannot be had -----

  function Naming(facts: TaskFacts, named: string): Candidate {
    Candidate(facts, None, None, Meta(NoFlag, Some(named), Some("p"), None), ToPublish)
  }

  lemma FailedNameBatch(c: Chat, task: string, named: string, order: seq<Record>, sessionKey: string) returns (r: Record)
    requires c.enabled && task != "" && !IsLinked(Get(c.records, task))
    ensures r.taskId == task && !HoldsAssociation(Some(r)) && r.reason.Some? && r.reason.value in NAMED_FAILURES
    ensures Next(c, OneOperation(Operation(Work(task), NoFlag, Some(named)), order, [NO_ANSWER]), sessionKey)
              == c.(records := c.records[task := r], journal := c.journal + [Link(r)])
  {
    hide Outcome, PublishOne, Misses, IsIdentifier, Upper, Trim;
    var wanted := Upper(Trim(named));
    r := if IsIdentifier(wanted) then Because(task, Failed, LookupFailed).(identifier := Some(wanted)) else Because(task, Skipped, InvalidHojaIssue);
    BatchOfOne(c, Operation(Work(task), NoFlag, Some(named)), order, [NO_ANSWER], sessionKey);
    AdoptionFails(Unanswered(c, order, [NO_ANSWER]), task, named, ContextFor(sessionKey));
  }

  lemma AdoptionFails(b: Batch, task: string, named: string, ctx: Context)
    requires b.w.active && b.w.script == [NO_ANSWER] && !IsLinked(Get(b.applied, task))
    ensures var wanted := Upper(Trim(named));
            var r := if IsIdentifier(wanted) then Because(task, Failed, LookupFailed).(identifier := Some(wanted)) else Because(task, Skipped, InvalidHojaIssue);
            var g := PublishOne(b, Naming(Work(task), named), ctx);
            && g.More? && g.batch.applied == b.applied[task := r]
            && g.batch.w.server == b.w.server && g.batch.w.active && g.batch.w.asked == b.w.asked
            && g.batch.w.journal == b.w.journal + [Link(r)]
  {
    hide FileNew, SyncLinked, IsIdentifier, Upper, Trim;
    assert Evolve(b.w.server, []) == b.w.server;
  }

  // ----- 3. filing, when the answer is lost -----

  function Filing(task: string): Candidate {
    Candidate(Work(task), None, None, Meta(NoFlag, None, Some("p"), None), ToPublish)
  }

  /** Somebody sets the project up before the request is processed. */
  const PROJECT_APPEARS := ProjectAppears("p")

  function ProjectAppears(key: string): Tick {
    Tick([SetProject(key, Some(DESTINATION))], Done, 0, "", false)
  }

  function WithProject(s: Server): Server {
    WithProjectNamed(s, "p")
  }

  function WithProjectNamed(s: Server, key: string): Server {
    s.(projects := s.projects[key := DESTINATION])
  }

  /** The answer is lost: the write has committed, or it may later; the session may end at that await. */
  function LostTick(committed: bool, ends: bool): Tick {
    Tick([], Lost(committed), 0, "T-1", ends)
  }

  lemma ProjectName()
    ensures Trim("p") == "p" && Lower("p") == "p"
  {
    assert TrimEnd("p") == "p" && TrimStart("p") == "p";
  }

  lemma ProjectResolves(w: World)
    requires w.script != [] && w.script[0] == PROJECT_APPEARS
    ensures Resolve(w, "p") == (w.(server := WithProject(w.server), script := w.script[1..]), ResolvedTo(DESTINATION))
  {
    ProjectName();
    ProjectResolvesAs(w, "p");
  }

  lemma ProjectResolvesAs(w: World, project: string)
    requires w.script != [] && w.script[0] == ProjectAppears(Lower(Trim(project)))
    ensures Resolve(w, project) ==
              (w.(server := WithProjectNamed(w.server, Lower(Trim(project))), script := w.script[1..]), ResolvedTo(DESTINATION))
  {
    hide Lower, Trim;
    var steps := w.script[0].others;
    assert steps[..0] == [];
    assert Evolve(w.server, steps[..0]) == w.server;
  }

  function RootIssue(task: string, sessionKey: string): Issue {
    NewIssue("T-1", DESTINATION, RootDescription(Filing(task), ContextFor(sessionKey)), "Todo", None, RootKey(task))
  }

  function InFlight(task: string, sessionKey: string): Record {
    Intent(task, WriteInFlight, TaskMarker(sessionKey, task), DESTINATION, None)
  }

  function Doubt(task: string, sessionKey: string): Record {
    Intent(task, AmbiguousWrite, TaskMarker(sessionKey, task), DESTINATION, None)
  }

  lemma FilingResolves(b: Batch, task: string, sessionKey: string)
    requires b.w.active && b.w.script != [] && b.w.script[0] == PROJECT_APPEARS && !HoldsAssociation(Get(b.applied, task))
    ensures PublishOne(b, Filing(task), ContextFor(sessionKey))
         == FileIn(b.(w := b.w.(server := WithProject(b.w.server), script := b.w.script[1..])), Filing(task), ContextFor(sessionKey), DESTINATION)
  {
    hide FileIn, ProjectNames, Resolve;
    var ctx := ContextFor(sessionKey);
    assert ProjectNames(Filing(task), ctx) == ["p"] by { NamesOf(Filing(task), ctx); }
    ProjectResolves(b.w);
  }

  lemma NamesOf(c: Candidate, ctx: Context)
    requires c.meta.hojaProject == Some("p") && ctx.project == None && ctx.fallbackProject == None
    ensures ProjectNames(c, ctx) == ["p"]
  {
    ProjectName();
    assert Trim("") == "";
    assert Add([], Some("p")) == ["p"];
  }

  lemma FilingIsLost(b: Batch, task: string, sessionKey: string, committed: bool, ends: bool)
    requires b.w.active && b.w.script == [LostTick(committed, ends)]
    ensures var g := FileIn(b, Filing(task), ContextFor(sessionKey), DESTINATION);
            && g.More? && g.batch.w.active == !ends
            && g.batch.w.server == Settle(b.w.server, LateIssue(RootIssue(task, sessionKey)), Lost(committed))
            && g.batch.applied == b.applied[task := Doubt(task, sessionKey)]
            && g.batch.w.journal == b.w.journal + [Link(InFlight(task, sessionKey))] + (if ends then [] else [Link(Doubt(task, sessionKey))])
  {
    hide RootDescription, TaskMarker, SendRoot, Journal, Lower;
    var b1 := SetRecord(b, InFlight(task, sessionKey));
    Journaled(b.w, InFlight(task, sessionKey));
    LosesTheAnswer(b1.w, task, sessionKey, committed, ends);
    var w1 := SendRoot(b1.w, Filing(task), ContextFor(sessionKey), DESTINATION, None).0;
    Journaled(w1, Doubt(task, sessionKey));
    assert Lower("Todo") in DESTINATION.states;
  }

  lemma Journaled(w: World, r: Record)
    ensures Journal(w, r) == if w.active then w.(journal := w.journal + [Link(r)]) else w
  {
  }

  lemma LosesTheAnswer(w: World, task: string, sessionKey: string, committed: bool, ends: bool)
    requires w.active && w.script == [LostTick(committed, ends)]
    ensures var (w1, answer, _) := SendRoot(w, Filing(task), ContextFor(sessionKey), DESTINATION, None);
            && answer.Ambiguous? && w1.active == !ends && w1.journal == w.journal
            && w1.server == Settle(w.server, LateIssue(RootIssue(task, sessionKey)), Lost(committed))
  {
    hide RootDescription, TaskMarker, Settle;
    assert Evolve(w.server, []) == w.server;
    assert Lower("Todo") in DESTINATION.states;
  }

  /** A task without an association in memory is filed, whatever the journal and the server already hold of it. */
  lemma FilingBatch(c: Chat, task: string, order: seq<Record>, committed: bool, ends: bool, sessionKey: string)
    requires c.enabled && task != "" && !HoldsAssociation(Get(c.records, task))
    ensures var d := Next(c, OneOperation(Operation(Work(task), NoFlag, None), order, [PROJECT_APPEARS, LostTick(committed, ends)]), sessionKey);
            && d.enabled && d.abandoned == (c.abandoned || ends)
            && d.records == (if ends then c.records else c.records[task := Doubt(task, sessionKey)])
            && d.journal == c.journal + [Link(InFlight(task, sessionKey))] + (if ends then [] else [Link(Doubt(task, sessionKey))])
            && forall k: Key :: k != OtherKey ==> Total(d.server, k) == Total(c.server, k) + (if k == RootKey(task) then 1 else 0)
  {
    var script := [PROJECT_APPEARS, LostTick(committed, ends)];
    var b := Unanswered(c, order, script);
    hide Outcome, PublishOne, FileIn, TaskMarker, RootDescription, Misses, Total, Settle;
    BatchOfOne(c, Operation(Work(task), NoFlag, None), order, script, sessionKey);
    FilingResolves(b, task, sessionKey);
    var b1 := b.(w := b.w.(server := WithProject(b.w.server), script := script[1..]));
    assert script[1..] == [LostTick(committed, ends)];
    FilingIsLost(b1, task, sessionKey, committed, ends);
    forall k: Key | k != OtherKey ensures
        Total(Settle(WithProject(c.server), LateIssue(RootIssue(task, sessionKey)), Lost(committed)), k) == Total(c.server, k) + (if k == RootKey(task) then 1 else 0)
    {
      LostCounts(WithProject(c.server), LateIssue(RootIssue(task, sessionKey)), committed, k);
      SameTotal(c.server, k);
    }
  }

  lemma SameTotal(s: Server, k: Key)
    ensures Total(WithProject(s), k) == Total(s, k)
  {
  }

  // ----- an operation without a project -----

  function Plain(task: string): Item {
    Item(true, CreateTask, Work(task), None, None, None)
  }

  lemma NoProjectBatch(c: Chat, task: string, order: seq<Record>, sessionKey: string)
    requires c.enabled && task != "" && !HoldsAssociation(Get(c.records, task))
    ensures Next(c, OneOperation(Plain(task), order, []), sessionKey).journal == c.journal + [Link(Because(task, Skipped, NoProject))]
  {
    hide Outcome, PublishOne, Misses;
    BatchOfOne(c, Plain(task), order, [], sessionKey);
    NothingToFileIn(Unanswered(c, order, []), task, ContextFor(sessionKey));
  }

  lemma NothingToFileIn(b: Batch, task: string, ctx: Context)
    requires b.w.active && !HoldsAssociation(Get(b.applied, task)) && ctx.project.None? && ctx.fallbackProject.None?
    ensures PublishOne(b, Candidate(Work(task), None, None, NO_META, ToPublish), ctx) == More(SetRecord(b, Because(task, Skipped, NoProject)))
  {
    hide SetRecord;
    assert Trim("") == "";
  }

  // ----- 4. naming an issue that can be had -----

  /** Somebody gives issue `i` this description and the name the operation uses, just before a request about it. */
  function Renamed(i: nat, description: string): Tick {
    Tick([EditIssue(i, "T-9", description, DONE_STATE, "team", "project", None)], Done, i, "", false)
  }

  function WithIssue(s: Server, i: nat, description: string): Server
    requires i < |s.issues|
  {
    s.(issues := s.issues[i := Issue("T-9", description, DONE_STATE, "team", "project", None, s.issues[i].key)])
  }

  lemma SameIssueTotal(s: Server, i: nat, description: string, k: Key)
    requires i < |s.issues|
    ensures Total(WithIssue(s, i, description), k) == Total(s, k)
  {
    assert IssueKeys(WithIssue(s, i, description).issues) == IssueKeys(s.issues);
  }

  lemma RenamedEvolves(s: Server, i: nat, description: string)
    requires i < |s.issues|
    ensures Evolve(s, Renamed(i, description).others) == WithIssue(s, i, description)
  {
    var steps := Renamed(i, description).others;
    assert steps[..0] == [];
    assert Evolve(s, steps[..0]) == s;
  }

  lemma NameIsAnIdentifier()
    ensures Upper(Trim("T-9")) == "T-9" && Upper("T-9") == "T-9" && IsIdentifier("T-9")
  {
    assert TrimEnd("T-9") == "T-9" && TrimStart("T-9") == "T-9";
    IndexIs("T-9", "-", 1);
  }

  function Adoption(facts: TaskFacts, i: nat): Record {
    AdoptedRecord(Naming(facts, "T-9"), i, "T-9")
  }

  /** The batch when an adopted issue's first pass begins. */
  function AdoptionBatch(b: Batch, facts: TaskFacts, i: nat, description: string, rest: seq<Tick>): Batch
    requires i < |b.w.server.issues|
  {
    SetRecord(b.(w := b.w.(server := WithIssue(b.w.server, i, description), script := rest)), Adoption(facts, i))
  }

  /** The lookup finds the issue; the task is linked to it and a pass begins. */
  lemma Adopts(b: Batch, facts: TaskFacts, i: nat, description: string, rest: seq<Tick>, ctx: Context)
    requires b.w.active && i < |b.w.server.issues| && b.w.script == [Renamed(i, description)] + rest
    requires !IsLinked(Get(b.applied, facts.taskId))
    ensures var b1 := AdoptionBatch(b, facts, i, description, rest);
            var r := Sync(b1.w, ArgsFor(Adoption(facts, i), facts, ctx));
            PublishOne(b, Naming(facts, "T-9"), ctx) == if r.stopped then Stopped(b1.(w := r.w)) else More(CommitRecord(b1.(w := r.w), r.record))
  {
    hide Sync, IsIdentifier, Upper, Trim, Evolve, SetRecord;
    NameIsAnIdentifier();
    RenamedEvolves(b.w.server, i, description);
    assert b.w.script[1..] == rest;
  }

  function NamingOperation(facts: TaskFacts): Item {
    Item(true, CreateTask, facts, None, None, Some(Meta(NoFlag, Some("T-9"), Some("p"), None)))
  }

  function AdoptedWorld(c: Chat, facts: TaskFacts, i: nat, description: string, rest: seq<Tick>): World
    requires i < |c.server.issues|
  {
    World(WithIssue(c.server, i, description), c.journal + [Link(Adoption(facts, i))], true, rest, [], c.asked)
  }

  function FirstPass(c: Chat, facts: TaskFacts, i: nat, description: string, rest: seq<Tick>, sessionKey: string): SyncResult
    requires i < |c.server.issues|
  {
    Sync(AdoptedWorld(c, facts, i, description, rest), ArgsFor(Adoption(facts, i), facts, ContextFor(sessionKey)))
  }

  /** What a batch leaves when the pass that ends it does not stop. */
  predicate EndsWith(d: Chat, c: Chat, r: SyncResult) {
    && d.server == r.w.server && d.journal == r.w.journal && d.asked == r.w.asked && d.enabled && d.abandoned == (c.abandoned || !r.w.active)
    && d.records == if r.w.active then c.records[r.record.taskId := r.record] else c.records
  }

  lemma NamingBatch(c: Chat, facts: TaskFacts, i: nat, description: string, order: seq<Record>, rest: seq<Tick>, sessionKey: string)
    requires c.enabled && facts.taskId != "" && i < |c.server.issues| && !IsLinked(Get(c.records, facts.taskId))
    requires var r := FirstPass(c, facts, i, description, rest, sessionKey); !r.stopped && r.record.taskId == facts.taskId
    ensures EndsWith(Next(c, OneOperation(NamingOperation(facts), order, [Renamed(i, description)] + rest), sessionKey), c,
                     FirstPass(c, facts, i, description, rest, sessionKey))
  {
    hide Outcome, PublishOne, Misses, Sync, Renamed;
    var script := [Renamed(i, description)] + rest;
    BatchOfOne(c, NamingOperation(facts), order, script, sessionKey);
    Adopts(Unanswered(c, order, script), facts, i, description, rest, ContextFor(sessionKey));
  }

  // ----- 5. a sub-issue, when the answer is lost -----

  /** The request for a sub-issue leaves and its answer is lost. */
  lemma SubissueIsLost(p: Pass, a: SyncArgs, l: Lifecycle, view: IssueView, ends: bool)
    requires p.w.active && p.w.script == [LostTick(true, ends)] && view.teamId == DESTINATION.teamId && a.facts == Work(a.facts.taskId)
    requires p.record.taskId == a.facts.taskId && p.record.state == Linked
    ensures var flow := IntendSubissue(p, a, l, view, DESTINATION);
            && flow.Halt? && var r := flow.result;
               && !r.stopped && r.saved && r.w.active == !ends && r.record.taskId == a.facts.taskId && r.record.state == Linked
               && OnlyLinks(p.w.journal, r.w.journal, a.facts.taskId) && SubCount(r.w.asked, a.facts.taskId) == SubCount(p.w.asked, a.facts.taskId) + 1
               && |p.w.server.issues| <= |r.w.server.issues|
               && forall k: Key :: k != OtherKey ==> Total(r.w.server, k) == Total(p.w.server, k) + (if k == SubKey(a.facts.taskId) then 1 else 0)
  {
    hide SubissueDescription, Lower, Journal, Total, Settle, SubCount;
    assert Lower(StateFor(a.facts)) in DESTINATION.states;
    var p1 := Save(p, PendingSubissue(l, view));
    Journaled(p.w, p1.record);
    assert Evolve(p1.w.server, []) == p1.w.server;
    var description := SubissueDescription(a.facts, a.marker);
    var key, request := SubKey(a.facts.taskId), CreateIssue(DESTINATION, a.facts.subject, description, StateFor(a.facts), Some(view.id));
    var write := LateIssue(NewIssue("T-1", DESTINATION, description, StateFor(a.facts), Some(view.id), key));
    var w1 := Send(p1.w, a.facts, key, request, write).0;
    SettleChanges(p.w.server, write, Lost(true));
    AskedGrows(p1.w.asked, AuditNow(p1.w, a.facts, key, request), a.facts.taskId);
    Journaled(w1, Unconfirmed(p1.(w := w1), SubissueAmbiguous).record);
    forall k: Key | k != OtherKey ensures Total(w1.server, k) == Total(p.w.server, k) + (if k == key then 1 else 0) {
      LostCounts(p.w.server, write, true, k);
    }
  }

  lemma QuietRead(w: World, i: nat)
    requires w.active && w.script != [] && w.script[0] == QUIET && i < |w.server.issues|
    ensures ReadIssue(w, i) == (w.(script := w.script[1..], seen := w.seen + [ViewOf(w.server, i)]), Some(ViewOf(w.server, i)))
  {
    assert Evolve(w.server, []) == w.server;
  }

  /** A read after others have acted. */
  lemma ReadsAfter(w: World, s: Server, i: nat)
    requires w.active && w.script != [] && w.script[0].reply.Done? && !w.script[0].ends
    requires Evolve(w.server, w.script[0].others) == s && i < |s.issues|
    ensures ReadIssue(w, i) == (w.(server := s, script := w.script[1..], seen := w.seen + [ViewOf(s, i)]), Some(ViewOf(s, i)))
  {
  }

  /** A pass over an adopted issue without the marker line files a sub-issue beneath it. */
  lemma PassFilesBeneath(w: World, a: SyncArgs, i: nat, ends: bool)
    requires w.active && w.script == [QUIET, PROJECT_APPEARS, LostTick(true, ends)] && i < |w.server.issues|
    requires w.server.issues[i].description == "" && w.server.issues[i].teamId == DESTINATION.teamId
    requires a.record == Adoption(Work(a.facts.taskId), i) && a.facts == Work(a.facts.taskId)
    ensures var r := Sync(w, a);
            && !r.stopped && r.w.active == !ends && r.record.taskId == a.facts.taskId && r.record.state == Linked
            && OnlyLinks(w.journal, r.w.journal, a.facts.taskId) && SubCount(r.w.asked, a.facts.taskId) == SubCount(w.asked, a.facts.taskId) + 1
            && |w.server.issues| <= |r.w.server.issues|
            && forall k: Key :: k != OtherKey ==> Total(r.w.server, k) == Total(w.server, k) + (if k == SubKey(a.facts.taskId) then 1 else 0)
  {
    hide IntendSubissue, HasLinkMarker, Describe, Complete, ReadIssue, Resolve, Total, SubCount, OnlyLinks;
    var w1, view, l := ReadIssue(w.(seen := []), i).0, ViewOf(w.server, i), Begin(Adopted);
    QuietRead(w.(seen := []), i);
    ProjectResolves(w1);
    var p2 := Pass(w1.(server := WithProject(w.server), script := w1.script[1..]), a.record, false, 0);
    NoMarkerInEmpty(a.marker);
    assert Sync(w, a) == IntendSubissue(p2, a, l, view, DESTINATION).result by {
      SubissueIsLost(p2, a, l, view, ends);
    }
    SubissueIsLost(p2, a, l, view, ends);
    forall k: Key ensures Total(WithProject(w.server), k) == Total(w.server, k) {
      SameTotal(w.server, k);
    }
  }

  lemma NoMarkerInEmpty(marker: string)
    ensures !HasLinkMarker("", marker)
  {
    EmptyHasNoLine(LinkLine(marker));
  }

  /** A task that memory does not link adopts an issue and files beneath it. */
  lemma AdoptsAndFiles(c: Chat, task: string, i: nat, order: seq<Record>, ends: bool, sessionKey: string)
    requires c.enabled && task != "" && i < |c.server.issues| && !IsLinked(Get(c.records, task))
    ensures var d := Next(c, OneOperation(NamingOperation(Work(task)), order, [Renamed(i, "")] + [QUIET, PROJECT_APPEARS, LostTick(true, ends)]), sessionKey);
            && d.enabled && d.abandoned == (c.abandoned || ends) && (ends ==> d.records == c.records)
            && OnlyLinks(c.journal, d.journal, task) && SubCount(d.asked, task) == SubCount(c.asked, task) + 1
            && |c.server.issues| <= |d.server.issues|
            && forall k: Key :: k != OtherKey ==> Total(d.server, k) == Total(c.server, k) + (if k == SubKey(task) then 1 else 0)
  {
    hide Sync, Outcome, Misses, Total, SubCount;
    var rest := [QUIET, PROJECT_APPEARS, LostTick(true, ends)];
    var w, a := AdoptedWorld(c, Work(task), i, "", rest), ArgsFor(Adoption(Work(task), i), Work(task), ContextFor(sessionKey));
    assert WithIssue(c.server, i, "").issues[i].description == "";
    PassFilesBeneath(w, a, i, ends);
    NamingBatch(c, Work(task), i, "", order, rest, sessionKey);
    forall k: Key ensures Total(w.server, k) == Total(c.server, k) {
      SameIssueTotal(c.server, i, "", k);
    }
  }

  // ----- 6. a completion comment, when the answer is lost -----

  /** A description the session owns and has nothing to change in. */
  function OwnText(facts: TaskFacts, sessionKey: string): string {
    MergeManagedDescription(LinkLine(TaskMarker(sessionKey, facts.taskId)), ManagedSection(facts))
  }

  lemma OwnTextIsOwn(facts: TaskFacts, sessionKey: string)
    requires Proper(ManagedSection(facts), MANAGED)
    ensures var text := OwnText(facts, sessionKey);
            && OwnedOutside(text, TaskMarker(sessionKey, facts.taskId)) && HasLinkMarker(text, TaskMarker(sessionKey, facts.taskId))
            && MergeManagedDescription(text, ManagedSection(facts)) == text
  {
    hide ManagedSection, MergeManagedDescription, OwnedOutside, HasLinkMarker, LinkLine, TaskMarker;
    var marker := TaskMarker(sessionKey, facts.taskId);
    BareLineIsOwned(sessionKey, facts.taskId);
    MergeStaysOwned(LinkLine(marker), ManagedSection(facts), marker);
    OwnedOutsideIsOwned(OwnText(facts, sessionKey), marker);
  }

  lemma BareLineIsOwned(sessionKey: string, task: string)
    ensures OwnedOutside(LinkLine(TaskMarker(sessionKey, task)), TaskMarker(sessionKey, task))
  {
    hide HasLine, TaskMarker;
    var line := LinkLine(TaskMarker(sessionKey, task));
    LineHasNoFence(sessionKey, task);
    LinkLineIsOneLine(sessionKey, task);
    OneLineHasItself(line);
    assert TaskMarker(sessionKey, task) != "" by { MarkerIsSomething(sessionKey, task); }
    ManagedLetters();
    LacksFirst(line, MANAGED_START);
    LacksFirst(line, MANAGED_END);
    BeforeIsTerminated(line, line, MANAGED);
  }

  lemma MarkerIsSomething(sessionKey: string, task: string)
    ensures TaskMarker(sessionKey, task) != ""
  {
  }

  lemma LineHasNoFence(sessionKey: string, task: string)
    ensures '<' !in LinkLine(TaskMarker(sessionKey, task))
  {
    assert '<' !in "Link marker: " && '<' !in "hoja-task:" && '<' !in ":";
    assert '<' !in SessionToken(sessionKey) && '<' !in TaskToken(task);
  }

  predicate Completable(facts: TaskFacts) {
    facts.taskId != "" && AcceptedCompletion(facts) && Proper(ManagedSection(facts), MANAGED)
  }

  /** A completion comment leaves and its answer is lost. */
  lemma CommentIsLost(p: Pass, a: SyncArgs, l: Lifecycle, view: IssueView, committed: bool, ends: bool)
    requires p.w.active && p.w.script == [LostTick(committed, ends)] && AcceptedCompletion(a.facts)
    requires !Unresolved(l) && !Visible(view.comments, CommentMarker(a))
    requires p.record.taskId == a.facts.taskId && p.record.state == Linked
    ensures var r := Complete(p, a, l, view, false);
            && !r.stopped && r.saved && r.w.active == !ends && r.record.taskId == a.facts.taskId && r.record.state == Linked
            && OnlyLinks(p.w.journal, r.w.journal, a.facts.taskId)
            && |p.w.server.issues| <= |r.w.server.issues|
            && (!committed ==> r.w.server.comments == p.w.server.comments)
            && (committed ==> AddsComment(p.w.server.comments, r.w.server.comments, CommentKey(a.facts.taskId, view.id, CommentMarker(a))))
            && forall k: Key :: k != OtherKey ==>
                 Total(r.w.server, k) == Total(p.w.server, k) + (if k == CommentKey(a.facts.taskId, view.id, CommentMarker(a)) then 1 else 0)
  {
    hide CompletionComment, AnswerMarker, RevisionOf, Sent, Visible, AcceptedCompletion, Journal, Total, Settle, Close, FollowTask;
    var marker := CommentMarker(a);
    var p1 := Save(p, l.(comment := Some(CommentPending), commentMarker := Some(marker)));
    Journaled(p.w, p1.record);
    assert Evolve(p1.w.server, []) == p1.w.server;
    var key, body := CommentKey(a.facts.taskId, view.id, marker), CompletionComment(a.facts, marker);
    var write := LateComment(Comment(view.id, Sent(body), key));
    var w1 := Send(p1.w, a.facts, key, PostComment(view.id, marker, body), write).0;
    LostKeepsComments(p.w.server, write);
    SettleChanges(p.w.server, write, Lost(committed));
    Journaled(w1, CommentDoubt(p1.(w := w1), CommentAmbiguous).record);
    forall k: Key | k != OtherKey ensures Total(w1.server, k) == Total(p.w.server, k) + (if k == key then 1 else 0) {
      LostCounts(p.w.server, write, committed, k);
    }
  }

  /** One comment more, on the issue its key names. */
  predicate AddsComment(before: seq<Comment>, after: seq<Comment>, k: Key) {
    && |after| == |before| + 1 && after[..|before|] == before
    && k.CommentKey? && after[|before|].key == k && after[|before|].issue == k.issue
  }

  lemma LostKeepsComments(s: Server, write: Late)
    ensures Settle(s, write, Lost(false)).comments == s.comments
    ensures write.LateComment? && write.posted.key.CommentKey? && write.posted.key.issue == write.posted.issue ==>
              AddsComment(s.comments, Settle(s, write, Lost(true)).comments, LateKey(write))
  {
  }

  /** A pass over an own, described issue without this revision's comment posts it. */
  lemma PassPosts(w: World, a: SyncArgs, i: nat, s: Server, committed: bool, ends: bool)
    requires w.active && |w.script| == 2 && w.script[1] == LostTick(committed, ends) && Completable(a.facts)
    requires w.script[0].reply.Done? && !w.script[0].ends && Evolve(w.server, w.script[0].others) == s
    requires a.record.issueId == Some(i) && i < |s.issues| && a.record.taskId == a.facts.taskId && a.record.state == Linked
    requires s.issues[i].description == OwnText(a.facts, a.sessionKey) && a.marker == TaskMarker(a.sessionKey, a.facts.taskId)
    requires !VisibleOn(s, i, CommentMarker(a)) && !Unresolved(Current(a.record))
    ensures var r := Sync(w, a);
            && !r.stopped && r.saved && r.w.active == !ends && r.record.taskId == a.facts.taskId && r.record.state == Linked
            && OnlyLinks(w.journal, r.w.journal, a.facts.taskId)
            && |s.issues| <= |r.w.server.issues|
            && (!committed ==> r.w.server.comments == s.comments)
            && forall k: Key :: k != OtherKey ==>
                 Total(r.w.server, k) == Total(s, k) + (if k == CommentKey(a.facts.taskId, i, CommentMarker(a)) then 1 else 0)
  {
    hide HasLinkMarker, Complete, ReadIssue, Total, OnlyLinks, OwnText, MergeManagedDescription, ManagedSection, TaskMarker, Visible, CommentMarker, Unresolved, Proper, CommentsOn, AcceptedCompletion, Evolve;
    OwnTextIsOwn(a.facts, a.sessionKey);
    var w1, view := ReadIssue(w.(seen := []), i).0, ViewOf(s, i);
    ReadsAfter(w.(seen := []), s, i);
    var p := Pass(w1, a.record, false, 0);
    CompletionIsAlive(a.facts);
    assert Sync(w, a) == Complete(p, a, Current(a.record), view, false);
    CommentIsLost(p, a, Current(a.record), view, committed, ends);
  }

  lemma CompletionIsAlive(facts: TaskFacts)
    requires AcceptedCompletion(facts)
    ensures facts.status != "deleted"
  {
  }

  /** A task that memory does not link adopts an issue and posts to it. */
  lemma AdoptsAndPosts(c: Chat, facts: TaskFacts, i: nat, order: seq<Record>, committed: bool, ends: bool, sessionKey: string)
    requires c.enabled && Completable(facts) && i < |c.server.issues| && !IsLinked(Get(c.records, facts.taskId))
    requires !VisibleOn(c.server, i, MarkerFor(sessionKey, facts))
    ensures var d := Next(c, OneOperation(NamingOperation(facts), order, [Renamed(i, OwnText(facts, sessionKey))] + [QUIET, LostTick(committed, ends)]), sessionKey);
            && d.enabled && d.abandoned == (c.abandoned || ends) && (ends ==> d.records == c.records)
            && OnlyLinks(c.journal, d.journal, facts.taskId) && |c.server.issues| <= |d.server.issues|
            && (!committed ==> d.server.comments == c.server.comments)
            && forall k: Key :: k != OtherKey ==>
                 Total(d.server, k) == Total(c.server, k) + (if k == CommentKey(facts.taskId, i, MarkerFor(sessionKey, facts)) then 1 else 0)
  {
    hide Sync, Outcome, Misses, Total, OwnText, AnswerMarker, RevisionOf, TaskMarker, Visible, CommentsOn, Completable;
    var text, rest := OwnText(facts, sessionKey), [QUIET, LostTick(committed, ends)];
    var w, a := AdoptedWorld(c, facts, i, text, rest), ArgsFor(Adoption(facts, i), facts, ContextFor(sessionKey));
    assert facts.taskId != "" by { CompletableIsNamed(facts); }
    assert Evolve(w.server, []) == w.server;
    PassPosts(w, a, i, w.server, committed, ends);
    NamingBatch(c, facts, i, text, order, rest, sessionKey);
    forall k: Key ensures Total(w.server, k) == Total(c.server, k) {
      SameIssueTotal(c.server, i, text, k);
    }
  }

  lemma CompletableIsNamed(facts: TaskFacts)
    requires Completable(facts)
    ensures facts.taskId != ""
  {
  }

  function Update(facts: TaskFacts): Item {
    Item(true, UpdateTask, facts, None, None, None)
  }

  /** The pass over a linked record that a batch of one update makes. */
  function LaterPass(c: Chat, linked: Record, facts: TaskFacts, script: seq<Tick>, project: Option<string>, sessionKey: string): SyncResult {
    Sync(WorldOf(c, script), ArgsFor(linked, facts, ContextIn(sessionKey, project)))
  }

  lemma UpdateBatch(c: Chat, linked: Record, facts: TaskFacts, order: seq<Record>, script: seq<Tick>, project: Option<string>, sessionKey: string)
    requires c.enabled && facts.taskId != "" && Get(c.records, facts.taskId) == Some(linked) && linked.state == Linked && linked.issueId.Some?
    requires var r := LaterPass(c, linked, facts, script, project, sessionKey); !r.stopped && r.saved && r.record.taskId == facts.taskId
    ensures EndsWith(Next(c, OperationIn(Update(facts), order, script, project), sessionKey), c, LaterPass(c, linked, facts, script, project, sessionKey))
  {
    hide Outcome, PublishOne, Misses, Sync;
    BatchOfOneIn(c, Update(facts), order, script, project, sessionKey);
    SyncsLinked(Unanswered(c, order, script), linked, facts, ContextIn(sessionKey, project));
  }

  lemma SyncsLinked(b: Batch, linked: Record, facts: TaskFacts, ctx: Context)
    requires b.w.active && Get(b.applied, facts.taskId) == Some(linked) && linked.state == Linked && linked.issueId.Some?
    ensures PublishOne(b, Candidate(facts, None, None, NO_META, ToSync), ctx) == SyncLinked(b, linked, facts, ctx)
  {
    hide SyncLinked, AdoptNamed, FileNew;
  }

  /** A linked task, owing nothing, posts to the issue it is linked to. */
  lemma PostsAgain(c: Chat, linked: Record, facts: TaskFacts, i: nat, order: seq<Record>, committed: bool, ends: bool, sessionKey: string)
    requires c.enabled && Completable(facts) && Get(c.records, facts.taskId) == Some(linked) && linked.taskId == facts.taskId
    requires linked.state == Linked && linked.issueId == Some(i) && i < |c.server.issues| && !Unresolved(Current(linked))
    requires !VisibleOn(c.server, i, MarkerFor(sessionKey, facts))
    ensures var d := Next(c, OneOperation(Update(facts), order, [Renamed(i, OwnText(facts, sessionKey)), LostTick(committed, ends)]), sessionKey);
            && OnlyLinks(c.journal, d.journal, facts.taskId)
            && forall k: Key :: k != OtherKey ==>
                 Total(d.server, k) == Total(c.server, k) + (if k == CommentKey(facts.taskId, i, MarkerFor(sessionKey, facts)) then 1 else 0)
  {
    hide Sync, Outcome, Misses, Total, OwnText, AnswerMarker, RevisionOf, TaskMarker, Visible, CommentsOn, Completable, Evolve, Unresolved, OnlyLinks;
    var text := OwnText(facts, sessionKey);
    var script, s := [Renamed(i, text), LostTick(committed, ends)], WithIssue(c.server, i, text);
    assert facts.taskId != "" by { CompletableIsNamed(facts); }
    RenamedEvolves(c.server, i, text);
    PassPosts(WorldOf(c, script), ArgsFor(linked, facts, ContextFor(sessionKey)), i, s, committed, ends);
    UpdateBatch(c, linked, facts, order, script, None, sessionKey);
    forall k: Key ensures Total(s, k) == Total(c.server, k) {
      SameIssueTotal(c.server, i, text, k);
    }
  }

  // ----- 7. from an adopted issue to a sub-issue -----

  /** The comment leaves the client with its marker line. */
  predicate Fitting(facts: TaskFacts, sessionKey: string) {
    |CommentHead(facts, MarkerFor(sessionKey, facts))| <= COMMENT_LIMIT
  }

  /** The record of a task whose comment is on the issue it adopted. */
  predicate ClosedOn(r: Record, facts: TaskFacts, i: nat) {
    && r.taskId == facts.taskId && r.state == Linked && r.issueId == Some(i)
    && Current(r).scope == Adopted && Current(r).subissue.None? && !Unresolved(Current(r))
  }

  lemma PassCloses(w: World, a: SyncArgs, i: nat, sessionKey: string)
    requires w.active && w.script == [] && i < |w.server.issues| && Completable(a.facts) && Fitting(a.facts, sessionKey)
    requires a == ArgsFor(Adoption(a.facts, i), a.facts, ContextFor(sessionKey))
    requires w.server.issues[i].description == OwnText(a.facts, sessionKey) && w.server.issues[i].state == DONE_STATE
    requires !VisibleOn(w.server, i, MarkerFor(sessionKey, a.facts))
    ensures var r := Sync(w, a);
            && !r.stopped && r.w.active && r.saved && ClosedOn(r.record, a.facts, i) && r.record.project == Some("p")
            && OnlyLinks(w.journal, r.w.journal, a.facts.taskId) && |r.w.server.issues| == |w.server.issues|
            && AddsComment(w.server.comments, r.w.server.comments, CommentKey(a.facts.taskId, i, MarkerFor(sessionKey, a.facts)))
  {
    hide Sync, OnlyLinks, OwnText, AnswerMarker, RevisionOf, TaskMarker, Visible, CommentsOn, ManagedSection, MergeManagedDescription, OwnedOutside, Proper, SameState;
    hide HasLinkMarker, Contains, Fits, CommentHead, AcceptedCompletion, ViewOf;
    OwnTextIsOwn(a.facts, sessionKey);
    StatesAreTrimmed();
    CommentFits(a);
    CompletionIsAlive(a.facts);
    assert Ready(w.server, i, a);
    QuietPassConverges(w, a, i);
    SyncLinks(w, a, a.facts.taskId);
  }

  /** A task that memory does not link adopts an issue, posts to it and closes it. */
  lemma AdoptsAndCloses(c: Chat, facts: TaskFacts, i: nat, order: seq<Record>, sessionKey: string)
    requires c.enabled && Completable(facts) && Fitting(facts, sessionKey) && i < |c.server.issues| && !IsLinked(Get(c.records, facts.taskId))
    requires !VisibleOn(c.server, i, MarkerFor(sessionKey, facts))
    ensures var d := Next(c, OneOperation(NamingOperation(facts), order, [Renamed(i, OwnText(facts, sessionKey))] + []), sessionKey);
            && d.enabled && d.abandoned == c.abandoned && facts.taskId in d.records && ClosedOn(d.records[facts.taskId], facts, i)
            && d.records[facts.taskId].project == Some("p")
            && OnlyLinks(c.journal, d.journal, facts.taskId) && |c.server.issues| == |d.server.issues|
            && AddsComment(c.server.comments, d.server.comments, CommentKey(facts.taskId, i, MarkerFor(sessionKey, facts)))
  {
    hide Sync, Outcome, Misses, OwnText, AnswerMarker, RevisionOf, TaskMarker, Visible, CommentsOn, Completable, Fitting;
    var text := OwnText(facts, sessionKey);
    var w, a := AdoptedWorld(c, facts, i, text, []), ArgsFor(Adoption(facts, i), facts, ContextFor(sessionKey));
    assert facts.taskId != "" by { CompletableIsNamed(facts); }
    PassCloses(w, a, i, sessionKey);
    NamingBatch(c, facts, i, text, order, [], sessionKey);
  }

  /** The new sub-issue is described by somebody before its read-back. */
  function ChildDescribed(child: nat, parent: nat, description: string): Tick {
    Tick([EditIssue(child, "T-10", description, DONE_STATE, "team", "project", Some(parent))], Done, 0, "", false)
  }

  /** A sub-issue is created, read back and taken over. */
  lemma SubissueIsTaken(p: Pass, a: SyncArgs, l: Lifecycle, view: IssueView, text: string, rest: seq<Tick>)
    requires p.w.active && p.w.script == [QUIET, ChildDescribed(|p.w.server.issues|, view.id, text)] + rest && view.teamId == DESTINATION.teamId
    requires AcceptedCompletion(a.facts) && HasLinkMarker(text, a.marker) && LinkedAs(p.record, a.facts.taskId)
    ensures var flow, n := FileSubissue(p, a, l, view, DESTINATION), |p.w.server.issues|;
            && flow.Go? && var g := flow.value;
               && g.p.w.active && g.p.w.script == rest && LinkedAs(g.p.record, a.facts.taskId)
               && g.view.id == n && g.view.description == text && g.view.comments == CommentsOn(p.w.server.comments, n)
               && g.lifecycle.comment == l.comment && g.p.w.server.comments == p.w.server.comments
               && |g.p.w.server.issues| == n + 1
  {
    hide SubissueDescription, Lower, HasLinkMarker, Journal, CommentsOn, AcceptedCompletion;
    assert Lower(StateFor(a.facts)) in DESTINATION.states by { CompletedIsTodo(a.facts); }
    var n := |p.w.server.issues|;
    assert Evolve(p.w.server, []) == p.w.server;
    var (w1, answer, child) := Create(p.w, a.facts, SubKey(a.facts.taskId), DESTINATION, a.facts.subject,
                                      SubissueDescription(a.facts, a.marker), StateFor(a.facts), Some(view.id));
    assert answer.Accepted? && child == n && w1.active && w1.script == [ChildDescribed(n, view.id, text)] + rest;
    var steps := ChildDescribed(n, view.id, text).others;
    assert steps[..0] == [];
    assert Evolve(w1.server, steps[..0]) == w1.server;
    assert w1.script[1..] == rest;
    assert ReadIssue(w1, n).1.Some?;
    var (w2, read) := ReadIssue(w1, n);
    Journaled(w2, ChildRecord(p.record, l, view, read.value));
  }

  lemma CompletedIsTodo(facts: TaskFacts)
    requires AcceptedCompletion(facts)
    ensures Lower(StateFor(facts)) in DESTINATION.states
  {
  }

  /** The adopted issue has lost the marker line: the pass moves to a new sub-issue and posts there. */
  lemma PassMoves(w: World, a: SyncArgs, i: nat, project: Option<string>, sessionKey: string)
    requires Truthy(a.project)
    requires var n := |w.server.issues|;
             && w.active && i < n && !VisibleOn(w.server, n, MarkerFor(sessionKey, a.facts))
             && w.script == [Renamed(i, ""), ProjectAppears(Lower(Trim(a.project.value)))] + ([QUIET, ChildDescribed(n, i, OwnText(a.facts, sessionKey))] + [LostTick(true, false)])
    requires Completable(a.facts) && ClosedOn(a.record, a.facts, i) && a == ArgsFor(a.record, a.facts, ContextIn(sessionKey, project))
    ensures var r := Sync(w, a);
            && !r.stopped && r.saved && r.w.active && OnlyLinks(w.journal, r.w.journal, a.facts.taskId) && LinkedAs(r.record, a.facts.taskId)
            && AddsComment(w.server.comments, r.w.server.comments, CommentKey(a.facts.taskId, |w.server.issues|, MarkerFor(sessionKey, a.facts)))
  {
    hide Complete, FileSubissue, ReadIssue, Resolve, OwnText, MergeManagedDescription, ManagedSection, TaskMarker, AnswerMarker, RevisionOf;
    hide HasLinkMarker, Visible, CommentsOn, Proper, AcceptedCompletion, OnlyLinks, Unresolved, Journal, Evolve, AddsComment, Lower, Trim;
    var text, n, tail := OwnText(a.facts, sessionKey), |w.server.issues|, [LostTick(true, false)];
    var s := WithIssue(w.server, i, "");
    RenamedEvolves(w.server, i, "");
    ReadsAfter(w.(seen := []), s, i);
    var w1, view, l := ReadIssue(w.(seen := []), i).0, ViewOf(s, i), Current(a.record);
    NoMarkerInEmpty(a.marker);
    ProjectResolvesAs(w1, a.project.value);
    OwnTextIsOwn(a.facts, sessionKey);
    CompletionIsAlive(a.facts);
    var p2 := Pass(w1.(server := WithProjectNamed(s, Lower(Trim(a.project.value))), script := w1.script[1..]), a.record, false, 0);
    var p3 := Save(p2, PendingSubissue(l, view));
    Journaled(p2.w, p3.record);
    SubissueIsTaken(p3, a, l, view, text, tail);
    var g := FileSubissue(p3, a, l, view, DESTINATION).value;
    assert Locate(Pass(w.(seen := []), a.record, false, 0), a, i) == Go(g);
    assert Sync(w, a) == Complete(g.p, a, g.lifecycle, g.view, false);
    assert !Unresolved(g.lifecycle) by { SamePhase(g.lifecycle, l); }
    CommentIsLost(g.p, a, g.lifecycle, g.view, true, false);
    SyncLinks(w, a, a.facts.taskId);
  }

  lemma SamePhase(l: Lifecycle, m: Lifecycle)
    requires l.comment == m.comment
    ensures Unresolved(l) == Unresolved(m)
  {
  }

  /** The project a pass over the record files a sub-issue in. */
  function SubissueProject(r: Record, project: Option<string>): Option<string> {
    if r.project.Some? then r.project else project
  }

  function Moving(c: Chat, facts: TaskFacts, i: nat, name: string, sessionKey: string): seq<Tick> {
    [Renamed(i, ""), ProjectAppears(Lower(Trim(name)))]
      + ([QUIET, ChildDescribed(|c.server.issues|, i, OwnText(facts, sessionKey))] + [LostTick(true, false)])
  }

  /** The same as a batch of one update. */
  lemma MovesAndPosts(c: Chat, facts: TaskFacts, i: nat, order: seq<Record>, project: Option<string>, sessionKey: string)
    requires var n := |c.server.issues|; c.enabled && i < n && !VisibleOn(c.server, n, MarkerFor(sessionKey, facts))
    requires Completable(facts) && facts.taskId in c.records && ClosedOn(c.records[facts.taskId], facts, i)
    requires Truthy(SubissueProject(c.records[facts.taskId], project))
    ensures var script := Moving(c, facts, i, SubissueProject(c.records[facts.taskId], project).value, sessionKey);
            var d := Next(c, OperationIn(Update(facts), order, script, project), sessionKey);
            && OnlyLinks(c.journal, d.journal, facts.taskId)
            && AddsComment(c.server.comments, d.server.comments, CommentKey(facts.taskId, |c.server.issues|, MarkerFor(sessionKey, facts)))
  {
    hide Sync, Outcome, Misses, OwnText, AnswerMarker, RevisionOf, TaskMarker, Visible, CommentsOn, Completable, Unresolved, OnlyLinks, AddsComment, Lower, Trim;
    var linked := c.records[facts.taskId];
    var script := Moving(c, facts, i, SubissueProject(linked, project).value, sessionKey);
    assert facts.taskId != "" by { CompletableIsNamed(facts); }
    PassMoves(WorldOf(c, script), ArgsFor(linked, facts, ContextIn(sessionKey, project)), i, project, sessionKey);
    UpdateBatch(c, linked, facts, order, script, project, sessionKey);
  }
}

/** Why the conditions of `HojaRuns` are there. Each lemma starts from any chat in the situation it names and gives the
    continuation that breaks the theorem while every other condition of it holds. */
module HojaCounterexamples {
  import opened Wrappers
  import opened ManagedBlock
  import opened HojaRecords
  import opened HojaServer
  import opened HojaWorld
  import opened LifecycleSync
  import opened Publish
  import opened HojaSafety
  import opened HojaJustified
  import opened HojaPublishSafety
  import opened HojaRuns
  import opened HojaLinks
  import opened HojaOperations
  import opened HojaScenarios

  // ----- runs, one event at a time -----

  lemma RunOfOne(c: Chat, e: Event, task: string, sessionKey: string)
    ensures Run(c, [e], sessionKey) == Next(c, e, sessionKey)
    ensures OrderedRun(c, [e], sessionKey) <==> Ordered(c, e)
    ensures CurrentRun(c, [e], task, sessionKey) <==> (e.TaskBatch? && c.enabled ==> Agrees(c, task))
  {
    hide Next;
    assert [e][..0] == [];
    assert Run(c, [e][..0], sessionKey) == c;
  }

  lemma RunOfTwo(c: Chat, e1: Event, e2: Event, task: string, sessionKey: string)
    ensures var d := Next(c, e1, sessionKey);
            && Run(c, [e1, e2], sessionKey) == Next(d, e2, sessionKey)
            && (OrderedRun(c, [e1, e2], sessionKey) <==> Ordered(c, e1) && Ordered(d, e2))
            && (CurrentRun(c, [e1, e2], task, sessionKey) <==>
                  (e1.TaskBatch? && c.enabled ==> Agrees(c, task)) && (e2.TaskBatch? && d.enabled ==> Agrees(d, task)))
  {
    hide Next;
    RunOfOne(c, e1, task, sessionKey);
    assert [e1, e2][..1] == [e1];
  }

  /** A batch, the mode off and on again, and another batch. */
  function Interrupted(e1: Event, e2: Event): seq<Event> {
    [e1, Toggle(false), Toggle(true), e2]
  }

  lemma RunInterrupted(c: Chat, e1: Event, e2: Event, sessionKey: string)
    ensures var d := Next(c, e1, sessionKey).(enabled := true);
            && Run(c, Interrupted(e1, e2), sessionKey) == Next(d, e2, sessionKey)
            && (OrderedRun(c, Interrupted(e1, e2), sessionKey) <==> Ordered(c, e1) && Ordered(d, e2))
  {
    hide Next;
    var events := Interrupted(e1, e2);
    assert events[..3][..2] == [e1, Toggle(false)] && events[..3][2] == Toggle(true) && events[3] == e2;
    RunOfTwo(c, e1, Toggle(false), "", sessionKey);
    Toggles(Next(c, e1, sessionKey), sessionKey);
    Toggles(Next(c, e1, sessionKey).(enabled := false), sessionKey);
    assert Run(c, events[..3], sessionKey) == Next(c, e1, sessionKey).(enabled := true);
    assert OrderedRun(c, events[..3], sessionKey) <==> OrderedRun(c, events[..2], sessionKey);
    assert events[..2] == [e1, Toggle(false)];
  }

  lemma Toggles(c: Chat, sessionKey: string)
    ensures forall on :: Next(c, Toggle(on), sessionKey) == c.(enabled := on)
  {
  }

  lemma FateAppend(journal: seq<Entry>, r: Record, task: string)
    requires r.taskId == task && task != ""
    ensures FateOf(journal + [Link(r)], task) == FateAfter(FateOf(journal, task), Get(Replay(journal), task), r)
    ensures Get(Replay(journal + [Link(r)]), task) == Some(r)
  {
    ReplayAppend(journal, r);
    assert (journal + [Link(r)])[..|journal|] == journal;
  }

  lemma KeyedSet(records: Records, r: Record)
    requires Keyed(records) && r.taskId != ""
    ensures Keyed(records[r.taskId := r])
  {
  }

  /** The situation every continuation starts from. */
  predicate Running(c: Chat, task: string) {
    c.enabled && task != "" && Keyed(c.records)
  }

  // ----- a second root issue -----

  /** A lost create keeps the task's fate when nothing was linked. */
  lemma IntentsLoseNothing(journal: seq<Entry>, task: string, sessionKey: string, ends: bool)
    requires task != "" && !IsLinked(Get(Replay(journal), task))
    ensures FateOf(journal + [Link(InFlight(task, sessionKey))] + (if ends then [] else [Link(Doubt(task, sessionKey))]), task) == FateOf(journal, task)
    ensures IsReconciling(Get(Replay(journal + [Link(InFlight(task, sessionKey))]), task))
  {
    FateAppend(journal, InFlight(task, sessionKey), task);
    if ends {
      assert journal + [Link(InFlight(task, sessionKey))] + [] == journal + [Link(InFlight(task, sessionKey))];
    } else {
      FateAppend(journal + [Link(InFlight(task, sessionKey))], Doubt(task, sessionKey), task);
    }
  }

  /** Without an association in memory one more operation files the task once more, and every lost create lands. */
  lemma FilesAgain(c: Chat, task: string, sessionKey: string) returns (e: Event, afterwards: seq<EnvStep>)
    requires Running(c, task) && !HoldsAssociation(Get(c.records, task)) && Total(c.server, RootKey(task)) >= 1
    requires !IsLinked(Get(Replay(c.journal), task))
    ensures Ordered(c, e) && e.TaskBatch? && FateOf(Next(c, e, sessionKey).journal, task) == FateOf(c.journal, task)
    ensures Committed(Evolve(Next(c, e, sessionKey).server, afterwards), RootKey(task)) >= 2
  {
    hide Next, Misses, Total, Committed, Evolve, FateOf, Enumerates, Replay, Doubt, InFlight;
    var order := Enumeration(c.records);
    e := OneOperation(Operation(Work(task), NoFlag, None), order, [PROJECT_APPEARS, LostTick(true, false)]);
    FilingBatch(c, task, order, true, false, sessionKey);
    IntentsLoseNothing(c.journal, task, sessionKey, false);
    assert RootKey(task) != OtherKey;
    afterwards := LateLands(Next(c, e, sessionKey).server);
  }

  /** An unconfirmed create is what a lost answer leaves, so the situation below is reached from every chat whose memory
      holds no association for the task, a new one for instance. */
  lemma ReconcilingIsReachable(c: Chat, task: string, sessionKey: string) returns (e: Event)
    requires Running(c, task) && !HoldsAssociation(Get(c.records, task))
    ensures var d := Next(c, e, sessionKey);
            && Ordered(c, e) && e.TaskBatch? && Running(d, task) && Agrees(d, task) && IsReconciling(Get(d.records, task))
            && Total(d.server, RootKey(task)) == Total(c.server, RootKey(task)) + 1
  {
    hide Next, Misses, Total, Enumerates, Replay;
    var order := Enumeration(c.records);
    e := OneOperation(Operation(Work(task), NoFlag, None), order, [PROJECT_APPEARS, LostTick(true, false)]);
    FilingBatch(c, task, order, true, false, sessionKey);
    assert RootKey(task) != OtherKey;
    FateAppend(c.journal + [Link(InFlight(task, sessionKey))], Doubt(task, sessionKey), task);
    KeyedSet(c.records, Doubt(task, sessionKey));
  }

  /** An invalid flag gives up a link or an unconfirmed create: the next operation files the task a second time. */
  lemma InvalidFlagDuplicates(c: Chat, task: string, sessionKey: string) returns (events: seq<Event>, afterwards: seq<EnvStep>)
    requires Running(c, task) && Agrees(c, task) && Total(c.server, RootKey(task)) >= 1
    ensures OrderedRun(c, events, sessionKey) && CurrentRun(c, events, task, sessionKey)
    ensures var f, d := FateOf(c.journal, task), Get(c.records, task);
            FateOf(Run(c, events, sessionKey).journal, task) == f.(unlinked := f.unlinked || IsLinked(d), forgotten := f.forgotten || IsReconciling(d))
    ensures Committed(Evolve(Run(c, events, sessionKey).server, afterwards), RootKey(task)) >= 2
  {
    hide Next, Misses, Total, Committed, Evolve, FateOf, Enumerates, Replay, OrderedRun, CurrentRun, Run;
    var order := Enumeration(c.records);
    var e1 := OneOperation(Operation(Work(task), InvalidFlag, None), order, []);
    InvalidFlagBatch(c, task, order, sessionKey);
    var r := Because(task, Skipped, InvalidHojaMetadata);
    FateAppend(c.journal, r, task);
    KeyedSet(c.records, r);
    var e2;
    e2, afterwards := FilesAgain(Next(c, e1, sessionKey), task, sessionKey);
    RunOfTwo(c, e1, e2, task, sessionKey);
    events := [e1, e2];
  }

  /** So does naming an issue that cannot be looked up, or anything that is no issue name. */
  lemma FailedNameDuplicates(c: Chat, task: string, named: string, sessionKey: string) returns (events: seq<Event>, afterwards: seq<EnvStep>)
    requires Running(c, task) && Agrees(c, task) && !IsLinked(Get(c.records, task)) && Total(c.server, RootKey(task)) >= 1
    ensures OrderedRun(c, events, sessionKey) && CurrentRun(c, events, task, sessionKey)
    ensures var f := FateOf(c.journal, task);
            FateOf(Run(c, events, sessionKey).journal, task) == f.(forgotten := f.forgotten || IsReconciling(Get(c.records, task)))
    ensures Committed(Evolve(Run(c, events, sessionKey).server, afterwards), RootKey(task)) >= 2
  {
    hide Next, Misses, Total, Committed, Evolve, FateOf, Enumerates, Replay, OrderedRun, CurrentRun, Run;
    var order := Enumeration(c.records);
    var e1 := OneOperation(Operation(Work(task), NoFlag, Some(named)), order, [NO_ANSWER]);
    var r := FailedNameBatch(c, task, named, order, sessionKey);
    FateAppend(c.journal, r, task);
    KeyedSet(c.records, r);
    var e2;
    e2, afterwards := FilesAgain(Next(c, e1, sessionKey), task, sessionKey);
    RunOfTwo(c, e1, e2, task, sessionKey);
    events := [e1, e2];
  }

  /** The mode is switched off and on while a create is in flight: memory never learns of it, and the next operation
      files the task again. Nothing is given up, only the batch starts from stale memory. */
  lemma AbandonedDuplicates(c: Chat, task: string, sessionKey: string) returns (events: seq<Event>, afterwards: seq<EnvStep>)
    requires Running(c, task) && Agrees(c, task) && !HoldsAssociation(Get(c.records, task))
    ensures OrderedRun(c, events, sessionKey) && FateOf(Run(c, events, sessionKey).journal, task) == FateOf(c.journal, task)
    ensures Committed(Evolve(Run(c, events, sessionKey).server, afterwards), RootKey(task)) >= 2
  {
    hide Next, Misses, Total, Committed, Evolve, FateOf, Enumerates, Replay, OrderedRun, Run, Doubt, InFlight;
    var order := Enumeration(c.records);
    var e1 := OneOperation(Operation(Work(task), NoFlag, None), order, [PROJECT_APPEARS, LostTick(false, true)]);
    FilingBatch(c, task, order, false, true, sessionKey);
    IntentsLoseNothing(c.journal, task, sessionKey, true);
    assert RootKey(task) != OtherKey;
    var d := Next(c, e1, sessionKey).(enabled := true);
    assert d.journal == c.journal + [Link(InFlight(task, sessionKey))];
    var e2;
    e2, afterwards := FilesAgain(d, task, sessionKey);
    RunInterrupted(c, e1, e2, sessionKey);
    events := Interrupted(e1, e2);
  }

  /** From the same stale memory an operation without a project journals that the task has none, over the intent of a
      create in flight: a change of the association that is not allowed. */
  lemma StaleMemoryBreaksTheJournal(c: Chat, task: string, sessionKey: string) returns (events: seq<Event>)
    requires Running(c, task) && !HoldsAssociation(Get(c.records, task))
    ensures OrderedRun(c, events, sessionKey) && !JournalAllowed(Run(c, events, sessionKey).journal, task)
  {
    hide Next, Misses, Total, Enumerates, Replay, OrderedRun, Run, FateOf, JournalAllowed, Doubt, InFlight, HoldsAssociation, IsReconciling;
    var order := Enumeration(c.records);
    var e1, e2 := OneOperation(Operation(Work(task), NoFlag, None), order, [PROJECT_APPEARS, LostTick(false, true)]), OneOperation(Plain(task), order, []);
    FilingBatch(c, task, order, false, true, sessionKey);
    var d := Next(c, e1, sessionKey).(enabled := true);
    assert d.journal == c.journal + [Link(InFlight(task, sessionKey))];
    InFlightIsReconciling(c.journal, task, sessionKey);
    NoProjectBatch(d, task, order, sessionKey);
    RunInterrupted(c, e1, e2, sessionKey);
    events := Interrupted(e1, e2);
    NoProjectIsNotAllowed(d.journal, task);
  }

  lemma InFlightIsReconciling(journal: seq<Entry>, task: string, sessionKey: string)
    requires task != ""
    ensures IsReconciling(Get(Replay(journal + [Link(InFlight(task, sessionKey))]), task))
  {
    FateAppend(journal, InFlight(task, sessionKey), task);
  }

  lemma NoProjectIsNotAllowed(journal: seq<Entry>, task: string)
    requires task != "" && IsReconciling(Get(Replay(journal), task))
    ensures !JournalAllowed(journal + [Link(Because(task, Skipped, NoProject))], task)
  {
    assert (journal + [Link(Because(task, Skipped, NoProject))])[..|journal|] == journal;
  }

  // ----- a root issue and a sub-issue -----

  /** Giving up an unconfirmed create for somebody else's issue leaves room for both. */
  lemma OverrideDuplicates(c: Chat, task: string, i: nat, sessionKey: string) returns (e: Event, afterwards: seq<EnvStep>)
    requires Running(c, task) && IsReconciling(Get(c.records, task)) && Total(c.server, RootKey(task)) >= 1 && i < |c.server.issues|
    ensures Ordered(c, e)
    ensures var f, g := FateOf(c.journal, task), FateOf(Next(c, e, sessionKey).journal, task); f.unlinked == g.unlinked && f.forgotten == g.forgotten
    ensures var end := Evolve(Next(c, e, sessionKey).server, afterwards);
            Committed(end, RootKey(task)) >= 1 && Committed(end, SubKey(task)) >= 1
  {
    hide Next, Misses, Total, Committed, Evolve, FateOf, Enumerates, OnlyLinks, SubCount;
    var order := Enumeration(c.records);
    e := OneOperation(NamingOperation(Work(task)), order, [Renamed(i, "")] + [QUIET, PROJECT_APPEARS, LostTick(true, false)]);
    AdoptsAndFiles(c, task, i, order, false, sessionKey);
    LinksLoseNothing(c.journal, Next(c, e, sessionKey).journal, task);
    afterwards := LateLands(Next(c, e, sessionKey).server);
    assert RootKey(task) != OtherKey && SubKey(task) != OtherKey;
  }

  // ----- a second sub-issue -----

  lemma InvalidFlagSubissues(c: Chat, task: string, i: nat, sessionKey: string) returns (events: seq<Event>)
    requires Running(c, task) && Agrees(c, task) && SubCount(c.asked, task) >= 1 && i < |c.server.issues|
    ensures OrderedRun(c, events, sessionKey) && CurrentRun(c, events, task, sessionKey)
    ensures SubCount(Run(c, events, sessionKey).asked, task) >= 2
  {
    hide Next, Misses, Total, Enumerates, Replay, OnlyLinks, SubCount, OrderedRun, CurrentRun, Run, FateOf;
    var order := Enumeration(c.records);
    var e1 := OneOperation(Operation(Work(task), InvalidFlag, None), order, []);
    InvalidFlagBatch(c, task, order, sessionKey);
    var r := Because(task, Skipped, InvalidHojaMetadata);
    FateAppend(c.journal, r, task);
    KeyedSet(c.records, r);
    var d := Next(c, e1, sessionKey);
    var again := Enumeration(d.records);
    var e2 := OneOperation(NamingOperation(Work(task)), again, [Renamed(i, "")] + [QUIET, PROJECT_APPEARS, LostTick(true, false)]);
    AdoptsAndFiles(d, task, i, again, false, sessionKey);
    RunOfTwo(c, e1, e2, task, sessionKey);
    events := [e1, e2];
  }

  lemma AbandonedSubissues(c: Chat, task: string, i: nat, sessionKey: string) returns (events: seq<Event>)
    requires Running(c, task) && !IsLinked(Get(c.records, task)) && i < |c.server.issues|
    ensures OrderedRun(c, events, sessionKey) && FateOf(Run(c, events, sessionKey).journal, task).unlinked == FateOf(c.journal, task).unlinked
    ensures SubCount(Run(c, events, sessionKey).asked, task) >= 2
  {
    hide Next, Misses, Total, Enumerates, OnlyLinks, SubCount, OrderedRun, Run, FateOf;
    var order := Enumeration(c.records);
    var e := OneOperation(NamingOperation(Work(task)), order, [Renamed(i, "")] + [QUIET, PROJECT_APPEARS, LostTick(true, true)]);
    AdoptsAndFiles(c, task, i, order, true, sessionKey);
    var d := Next(c, e, sessionKey).(enabled := true);
    AdoptsAndFiles(d, task, i, order, true, sessionKey);
    RunInterrupted(c, e, e, sessionKey);
    LinksLoseNothing(c.journal, d.journal, task);
    LinksLoseNothing(d.journal, Next(d, e, sessionKey).journal, task);
    events := Interrupted(e, e);
  }

  // ----- a second comment on the same issue -----

  /** A comment that may still land is forgotten with the link; the same issue named again gets a second one. */
  lemma InvalidFlagComments(c: Chat, facts: TaskFacts, i: nat, sessionKey: string) returns (events: seq<Event>, afterwards: seq<EnvStep>)
    requires Running(c, facts.taskId) && Agrees(c, facts.taskId) && Completable(facts) && i < |c.server.issues|
    requires Total(c.server, CommentKey(facts.taskId, i, MarkerFor(sessionKey, facts))) >= 1 && !VisibleOn(c.server, i, MarkerFor(sessionKey, facts))
    ensures OrderedRun(c, events, sessionKey) && CurrentRun(c, events, facts.taskId, sessionKey)
    ensures Committed(Evolve(Run(c, events, sessionKey).server, afterwards), CommentKey(facts.taskId, i, MarkerFor(sessionKey, facts))) >= 2
  {
    hide Next, Misses, Total, Committed, Evolve, Enumerates, Replay, OnlyLinks, OrderedRun, CurrentRun, Run, FateOf, Completable, VisibleOn, MarkerFor;
    var task := facts.taskId;
    var order := Enumeration(c.records);
    var e1 := OneOperation(Operation(Work(task), InvalidFlag, None), order, []);
    InvalidFlagBatch(c, task, order, sessionKey);
    var r := Because(task, Skipped, InvalidHojaMetadata);
    FateAppend(c.journal, r, task);
    KeyedSet(c.records, r);
    var d := Next(c, e1, sessionKey);
    var again := Enumeration(d.records);
    var e2 := OneOperation(NamingOperation(facts), again, [Renamed(i, OwnText(facts, sessionKey))] + [QUIET, LostTick(true, false)]);
    AdoptsAndPosts(d, facts, i, again, true, false, sessionKey);
    RunOfTwo(c, e1, e2, task, sessionKey);
    events := [e1, e2];
    afterwards := LateLands(Next(d, e2, sessionKey).server);
    assert CommentKey(task, i, MarkerFor(sessionKey, facts)) != OtherKey;
  }

  lemma AbandonedComments(c: Chat, facts: TaskFacts, i: nat, sessionKey: string) returns (events: seq<Event>, afterwards: seq<EnvStep>)
    requires Running(c, facts.taskId) && !IsLinked(Get(c.records, facts.taskId)) && Completable(facts) && i < |c.server.issues|
    requires !VisibleOn(c.server, i, MarkerFor(sessionKey, facts))
    ensures OrderedRun(c, events, sessionKey)
    ensures FateOf(Run(c, events, sessionKey).journal, facts.taskId).unlinked == FateOf(c.journal, facts.taskId).unlinked
    ensures Committed(Evolve(Run(c, events, sessionKey).server, afterwards), CommentKey(facts.taskId, i, MarkerFor(sessionKey, facts))) >= 2
  {
    hide Next, Misses, Total, Committed, Evolve, Enumerates, OnlyLinks, OrderedRun, Run, FateOf, Completable, MarkerFor;
    var task := facts.taskId;
    var order := Enumeration(c.records);
    var e := OneOperation(NamingOperation(facts), order, [Renamed(i, OwnText(facts, sessionKey))] + [QUIET, LostTick(false, true)]);
    AdoptsAndPosts(c, facts, i, order, false, true, sessionKey);
    var d := Next(c, e, sessionKey).(enabled := true);
    AdoptsAndPosts(d, facts, i, order, false, true, sessionKey);
    RunInterrupted(c, e, e, sessionKey);
    LinksLoseNothing(c.journal, d.journal, task);
    LinksLoseNothing(d.journal, Next(d, e, sessionKey).journal, task);
    events := Interrupted(e, e);
    afterwards := LateLands(Next(d, e, sessionKey).server);
    assert CommentKey(task, i, MarkerFor(sessionKey, facts)) != OtherKey;
  }

  // ----- the same revision on two issues -----

  /** A comment left behind on one issue does not keep the next pass from posting the same revision to the issue the
      task is linked to now. */
  lemma LeftBehindDuplicates(c: Chat, linked: Record, facts: TaskFacts, i: nat, j: nat, sessionKey: string) returns (e: Event, afterwards: seq<EnvStep>)
    requires Running(c, facts.taskId) && Get(c.records, facts.taskId) == Some(linked) && Completable(facts)
    requires linked.state == Linked && linked.issueId == Some(j) && j < |c.server.issues| && !Unresolved(Current(linked))
    requires i != j && Total(c.server, CommentKey(facts.taskId, i, MarkerFor(sessionKey, facts))) >= 1
    requires !VisibleOn(c.server, j, MarkerFor(sessionKey, facts))
    ensures Ordered(c, e) && FateOf(Next(c, e, sessionKey).journal, facts.taskId).unlinked == FateOf(c.journal, facts.taskId).unlinked
    ensures var end, m := Evolve(Next(c, e, sessionKey).server, afterwards), MarkerFor(sessionKey, facts);
            Committed(end, CommentKey(facts.taskId, i, m)) >= 1 && Committed(end, CommentKey(facts.taskId, j, m)) >= 1
  {
    hide Next, Misses, Total, Committed, Evolve, Enumerates, OnlyLinks, FateOf, Completable, MarkerFor, Unresolved;
    var order := Enumeration(c.records);
    e := OneOperation(Update(facts), order, [Renamed(j, OwnText(facts, sessionKey)), LostTick(true, false)]);
    PostsAgain(c, linked, facts, j, order, true, false, sessionKey);
    LinksLoseNothing(c.journal, Next(c, e, sessionKey).journal, facts.taskId);
    afterwards := LateLands(Next(c, e, sessionKey).server);
    assert forall issue: nat :: CommentKey(facts.taskId, issue, MarkerFor(sessionKey, facts)) != OtherKey;
  }

  /** The second comment comes after the first and is on another issue. */
  lemma TwoCompletions(c0: seq<Comment>, c1: seq<Comment>, c2: seq<Comment>, task: string, i: nat, j: nat, marker: string)
    requires AddsComment(c0, c1, CommentKey(task, i, marker)) && AddsComment(c1, c2, CommentKey(task, j, marker))
    ensures !OneCompletion(c2, task, marker)
  {
    assert c2[|c0|] == c1[|c0|];
    assert IsCompletion(c2[|c0|].key, task, marker) && IsCompletion(c2[|c1|].key, task, marker);
  }

  lemma StillInvisible(before: seq<Comment>, after: seq<Comment>, k: Key, issue: nat)
    requires AddsComment(before, after, k) && k.issue != issue
    ensures CommentsOn(after, issue) == CommentsOn(before, issue)
  {
  }

  /** How that comes about: the adopted issue carries the marker line and gets the comment, somebody removes the line,
      and the next pass files a sub-issue and posts the same revision there. Every other condition holds. */
  lemma MovingDuplicates(c: Chat, facts: TaskFacts, i: nat, sessionKey: string) returns (events: seq<Event>)
    requires NewChat(c) && c.enabled && Completable(facts) && Fitting(facts, sessionKey) && i < |c.server.issues|
    requires !VisibleOn(c.server, i, MarkerFor(sessionKey, facts)) && !VisibleOn(c.server, |c.server.issues|, MarkerFor(sessionKey, facts))
    ensures OrderedRun(c, events, sessionKey) && CurrentRun(c, events, facts.taskId, sessionKey)
    ensures !FateOf(Run(c, events, sessionKey).journal, facts.taskId).unlinked
    ensures !OneCompletion(Run(c, events, sessionKey).server.comments, facts.taskId, MarkerFor(sessionKey, facts))
  {
    hide Next, Misses, Total, Enumerates, OnlyLinks, OrderedRun, CurrentRun, Run, Completable, Fitting, MarkerFor, AddsComment, ClosedOn, Safe;
    hide Audited, OneCompletion, OwnText, CommentsOn, Visible;
    var task, n, m := facts.taskId, |c.server.issues|, MarkerFor(sessionKey, facts);
    var order := Enumeration(c.records);
    var e1 := OneOperation(NamingOperation(facts), order, [Renamed(i, OwnText(facts, sessionKey))] + []);
    AdoptsAndCloses(c, facts, i, order, sessionKey);
    var d := Next(c, e1, sessionKey);
    NewChatIsOk(c, task, sessionKey);
    NextAudited(c, e1, sessionKey);
    NextKeeps(c, e1, task, sessionKey);
    StillInvisible(c.server.comments, d.server.comments, CommentKey(task, i, m), n);
    var again := Enumeration(d.records);
    var e2 := OperationIn(Update(facts), again, Moving(d, facts, i, "p", sessionKey), None);
    MovesAndPosts(d, facts, i, again, None, sessionKey);
    RunOfTwo(c, e1, e2, task, sessionKey);
    events := [e1, e2];
    TwoCompletions(c.server.comments, d.server.comments, Next(d, e2, sessionKey).server.comments, task, i, n, m);
    LinksLoseNothing(c.journal, d.journal, task);
    LinksLoseNothing(d.journal, Next(d, e2, sessionKey).journal, task);
  }

  // ----- exactly when one more update may post twice -----

  predicate Posted(s: Server, task: string, issue: nat, marker: string) {
    exists p | 0 <= p < |s.comments| :: s.comments[p].key == CommentKey(task, issue, marker)
  }

  /** A batch that is one plain update of the task. */
  predicate IsUpdate(c: Chat, e: Event, facts: TaskFacts, project: Option<string>) {
    e.TaskBatch? && e.items == [Update(facts)] && e.project == project && Ordered(c, e)
  }

  predicate PostsTwice(c: Chat, e: Event, afterwards: seq<EnvStep>, facts: TaskFacts, sessionKey: string) {
    !OneCompletion(Evolve(Next(c, e, sessionKey).server, afterwards).comments, facts.taskId, MarkerFor(sessionKey, facts))
  }

  /** A task in good order whose comment of this revision is on the issue it is linked to. */
  ghost predicate Commented(c: Chat, facts: TaskFacts, linked: Record, i: nat, sessionKey: string) {
    && Running(c, facts.taskId) && ChatOk(c, facts.taskId) && ChatAudited(c, sessionKey) && Agrees(c, facts.taskId)
    && !FateOf(c.journal, facts.taskId).unlinked && !FateOf(c.journal, facts.taskId).moved
    && Get(c.records, facts.taskId) == Some(linked) && linked.state == Linked && linked.issueId == Some(i) && !Unresolved(Current(linked))
    && Posted(c.server, facts.taskId, i, MarkerFor(sessionKey, facts))
  }

  lemma UpdateIsHome(c: Chat, e: Event, facts: TaskFacts, linked: Record, project: Option<string>)
    requires IsUpdate(c, e, facts, project) && Get(c.records, facts.taskId) == Some(linked) && linked.state == Linked && Rooted(linked, project)
    ensures HomeEvent(c, e, facts.taskId)
  {
    hide Rooted;
    assert forall item | item in e.items :: item == Update(facts);
  }

  lemma RootedPostsOnce(c: Chat, e: Event, afterwards: seq<EnvStep>, facts: TaskFacts, linked: Record, i: nat, project: Option<string>, sessionKey: string)
    requires Commented(c, facts, linked, i, sessionKey) && IsUpdate(c, e, facts, project) && Rooted(linked, project)
    ensures !PostsTwice(c, e, afterwards, facts, sessionKey)
  {
    hide Next, Rooted, ChatOk, ChatAudited, FateOf, OneCompletion, Evolve, Posted, HomeEvent, Agrees, MarkerFor, Ordered;
    var task := facts.taskId;
    UpdateIsHome(c, e, facts, linked, project);
    NextSpares(c, e, task, sessionKey);
    NextKeeps(c, e, task, sessionKey);
    ChatCommentsOnce(Next(c, e, sessionKey), task, afterwards, MarkerFor(sessionKey, facts));
  }

  /** The issue a task's comment is on exists. */
  lemma CommentedExists(c: Chat, facts: TaskFacts, linked: Record, i: nat, sessionKey: string)
    requires Commented(c, facts, linked, i, sessionKey)
    ensures i < |c.server.issues| && linked.taskId == facts.taskId && facts.taskId in c.records
  {
    hide FateOf, JournalAllowed, AllJustified, MarkerFor;
    var task, m := facts.taskId, MarkerFor(sessionKey, facts);
    var p :| 0 <= p < |c.server.comments| && c.server.comments[p].key == CommentKey(task, i, m);
    KeyCounts(c.server.comments, p, p);
    assert CommentAccounted(task, c.server, Get(Replay(c.journal), task), i, m);
  }

  lemma SecondIsElsewhere(before: seq<Comment>, after: seq<Comment>, task: string, i: nat, j: nat, marker: string)
    requires AddsComment(before, after, CommentKey(task, j, marker)) && i != j
    requires exists p | 0 <= p < |before| :: before[p].key == CommentKey(task, i, marker)
    ensures !OneCompletion(after, task, marker)
  {
    var p :| 0 <= p < |before| && before[p].key == CommentKey(task, i, marker);
    assert after[..|before|][p] == before[p];
    assert IsCompletion(after[p].key, task, marker) && IsCompletion(after[|before|].key, task, marker);
  }

  lemma UnrootedPostsTwice(c: Chat, facts: TaskFacts, linked: Record, i: nat, project: Option<string>, sessionKey: string) returns (e: Event)
    requires Commented(c, facts, linked, i, sessionKey) && Completable(facts) && !Rooted(linked, project)
    requires !VisibleOn(c.server, |c.server.issues|, MarkerFor(sessionKey, facts))
    ensures IsUpdate(c, e, facts, project) && PostsTwice(c, e, [], facts, sessionKey)
  {
    hide Next, ChatOk, ChatAudited, FateOf, OneCompletion, Completable, MarkerFor, Unresolved, AddsComment, Misses, OnlyLinks, Enumerates, OwnText, Moving, VisibleOn;
    CommentedExists(c, facts, linked, i, sessionKey);
    var order := Enumeration(c.records);
    e := OperationIn(Update(facts), order, Moving(c, facts, i, SubissueProject(linked, project).value, sessionKey), project);
    MovesAndPosts(c, facts, i, order, project, sessionKey);
    SecondIsElsewhere(c.server.comments, Next(c, e, sessionKey).server.comments, facts.taskId, i, |c.server.issues|, MarkerFor(sessionKey, facts));
  }

  /** A completed task whose comment is on its issue may be commented on again by one more plain update, on another issue,
      if and only if its record can still take it to one: the issue is somebody else's, no sub-issue was asked for, and
      there is a project to file one in. */
  lemma SecondCommentIff(c: Chat, facts: TaskFacts, linked: Record, i: nat, project: Option<string>, sessionKey: string)
    requires Commented(c, facts, linked, i, sessionKey) && Completable(facts)
    requires !VisibleOn(c.server, |c.server.issues|, MarkerFor(sessionKey, facts))
    ensures (exists e, afterwards :: IsUpdate(c, e, facts, project) && PostsTwice(c, e, afterwards, facts, sessionKey)) <==> !Rooted(linked, project)
  {
    hide IsUpdate, PostsTwice, Rooted, Commented, Completable, VisibleOn, MarkerFor;
    if Rooted(linked, project) {
      forall e, afterwards | IsUpdate(c, e, facts, project) ensures !PostsTwice(c, e, afterwards, facts, sessionKey) {
        RootedPostsOnce(c, e, afterwards, facts, linked, i, project, sessionKey);
      }
    } else {
      var e := UnrootedPostsTwice(c, facts, linked, i, project, sessionKey);
    }
  }
}

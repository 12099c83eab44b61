/** Whole chats: batches, mode switches and restarts in any order (extensions/hoja-mode/extension.ts). The theorems say
    what can never happen over any run; `HojaCounterexamples` shows from which chats each condition is needed. */
module HojaRuns {
  import opened Wrappers
  import opened HojaRecords
  import opened HojaServer
  import opened HojaWorld
  import opened Publish
  import opened HojaSafety
  import opened HojaJustified
  import opened HojaBatchJustified
  import opened HojaPublishSafety

  /** A chat: what is durable (server, journal), what is only in memory (`records`, `enabled`), and whether a batch has
      been abandoned since the associations were last replayed. Publication is serialized by a queue, so a run is a
      sequence of whole batches. */
  datatype Chat = Chat(server: Server, journal: seq<Entry>, asked: seq<Audit>, records: Records, enabled: bool, abandoned: bool)

  /** A batch brings its own script; a session that ends inside it is a tick of that script. `Restart` is a session
      start: a reload, a resumed chat, or a new process after a crash. */
  datatype Event =
    | TaskBatch(items: seq<Item>, order: seq<Record>, script: seq<Tick>, project: Option<string>, fallbackProject: Option<string>)
    | Toggle(on: bool)
    | Restart(on: bool)

  function ContextOf(e: Event, sessionKey: string): Context
    requires e.TaskBatch?
  {
    Context(true, sessionKey, e.project, e.fallbackProject)
  }

  function WorldOf(c: Chat, script: seq<Tick>): World {
    World(c.server, c.journal, true, script, [], c.asked)
  }

  function Outcome(c: Chat, e: Event, sessionKey: string): Progress
    requires e.TaskBatch?
  {
    PublishBatch(WorldOf(c, e.script), e.items, c.records, e.order, ContextOf(e, sessionKey))
  }

  /** The in-memory associations move on only when the session that started the batch is still there. */
  function Next(c: Chat, e: Event, sessionKey: string): Chat {
    match e
    case Toggle(on) => c.(enabled := on)
    case Restart(on) => c.(enabled := on, records := Replay(c.journal), abandoned := false)
    case TaskBatch(_, _, _, _, _) =>
      if !c.enabled then c
      else
        var b := Outcome(c, e, sessionKey).batch;
        var moved := c.(server := b.w.server, journal := b.w.journal, asked := b.w.asked);
        if b.w.active then moved.(records := b.applied) else moved.(abandoned := true)
  }

  function Run(c: Chat, events: seq<Event>, sessionKey: string): Chat {
    if events == [] then c else Next(Run(c, events[..|events| - 1], sessionKey), events[|events| - 1], sessionKey)
  }

  /** A session start takes each association from the last record journaled for its task, whatever memory held; it
      changes nothing durable. */
  lemma RestartTakesTheNewest(c: Chat, on: bool, sessionKey: string, task: string)
    ensures var d := Next(c, Restart(on), sessionKey);
            && d.server == c.server && d.journal == c.journal && d.asked == c.asked && d.enabled == on && !d.abandoned
            && match Get(d.records, task)
               case None => forall i | 0 <= i < |c.journal| && Replayable(c.journal[i]) :: c.journal[i].record.taskId != task
               case Some(r) => r.taskId == task && exists i | 0 <= i < |c.journal| && c.journal[i] == Link(r) ::
                                 forall j | i < j < |c.journal| && Replayable(c.journal[j]) :: c.journal[j].record.taskId != task
  {
    ReplayIsNewest(c.journal, task);
    hide Replay, Outcome;
  }

  // ----- runs -----

  /** `Object.values(records)`: a batch enumerates the associations in memory, each once. */
  predicate Ordered(c: Chat, e: Event) {
    e.TaskBatch? && c.enabled ==> Enumerates(e.order, c.records)
  }

  predicate OrderedRun(c: Chat, events: seq<Event>, sessionKey: string) {
    events == [] ||
    (OrderedRun(c, events[..|events| - 1], sessionKey) && Ordered(Run(c, events[..|events| - 1], sessionKey), events[|events| - 1]))
  }

  /** Memory and journal name the same association for the task. */
  predicate Agrees(c: Chat, task: string) {
    Get(c.records, task) == Get(Replay(c.journal), task)
  }

  /** No batch starts from memory that an abandoned batch has left behind the journal on this task. */
  predicate CurrentRun(c: Chat, events: seq<Event>, task: string, sessionKey: string) {
    events == [] ||
    (var before, e := Run(c, events[..|events| - 1], sessionKey), events[|events| - 1];
     CurrentRun(c, events[..|events| - 1], task, sessionKey) && (e.TaskBatch? && before.enabled ==> Agrees(before, task)))
  }

  /** A new chat on any server that holds nothing of it yet. */
  ghost predicate NewChat(c: Chat) {
    && c.journal == [] && c.asked == [] && c.records == map[] && !c.abandoned
    && forall k: Key :: k != OtherKey ==> Total(c.server, k) == 0
  }

  /** Every write of the chat was asked for and justified, and memory files every record under its own task. */
  ghost predicate ChatAudited(c: Chat, sessionKey: string) {
    Audited(WorldOf(c, []), sessionKey) && Keyed(c.records)
  }

  ghost predicate ChatOk(c: Chat, task: string) {
    Safe(task, WorldOf(c, [])) && Keyed(c.records) && (!c.abandoned ==> Agrees(c, task))
  }

  lemma {:induction false} ReplayIsKeyed(journal: seq<Entry>)
    ensures Keyed(Replay(journal))
  {
    if journal != [] {
      ReplayIsKeyed(journal[..|journal| - 1]);
    }
  }

  lemma NewChatIsOk(c: Chat, task: string, sessionKey: string)
    requires NewChat(c)
    ensures ChatAudited(c, sessionKey) && ChatOk(c, task)
  {
    forall issue: nat, m: string ensures CommentAccounted(task, c.server, None, issue, m) {
      assert CommentKey(task, issue, m) != OtherKey;
    }
    assert RootKey(task) != OtherKey;
  }

  lemma NextAudited(c: Chat, e: Event, sessionKey: string)
    requires ChatAudited(c, sessionKey) && Ordered(c, e)
    ensures ChatAudited(Next(c, e, sessionKey), sessionKey)
  {
    hide AllJustified, AllAsked, PublishBatch;
    ReplayIsKeyed(c.journal);
    if e.TaskBatch? && c.enabled {
      assert forall r | r in e.order :: r.taskId in c.records && r.taskId != "";
      PublishBatchAudited(WorldOf(c, e.script), e.items, c.records, e.order, ContextOf(e, sessionKey));
    }
  }

  lemma NextKeeps(c: Chat, e: Event, task: string, sessionKey: string)
    requires ChatOk(c, task) && ChatAudited(c, sessionKey) && Ordered(c, e)
    requires e.TaskBatch? && c.enabled ==> Agrees(c, task)
    ensures ChatOk(Next(c, e, sessionKey), task)
  {
    hide TaskInv, JournalAllowed, FateOf, PublishBatch, Audited;
    NextAudited(c, e, sessionKey);
    if e.TaskBatch? && c.enabled {
      PublishBatchKeeps(task, WorldOf(c, e.script), e.items, c.records, e.order, ContextOf(e, sessionKey));
    }
  }

  lemma {:induction false} RunAudited(c: Chat, events: seq<Event>, sessionKey: string)
    requires ChatAudited(c, sessionKey) && OrderedRun(c, events, sessionKey)
    ensures ChatAudited(Run(c, events, sessionKey), sessionKey)
  {
    hide ChatAudited, Next;
    if events != [] {
      var n := |events| - 1;
      RunAudited(c, events[..n], sessionKey);
      NextAudited(Run(c, events[..n], sessionKey), events[n], sessionKey);
    }
  }

  lemma {:induction false} RunKeeps(c: Chat, events: seq<Event>, task: string, sessionKey: string)
    requires ChatOk(c, task) && ChatAudited(c, sessionKey)
    requires OrderedRun(c, events, sessionKey) && CurrentRun(c, events, task, sessionKey)
    ensures ChatOk(Run(c, events, sessionKey), task)
  {
    hide ChatOk, ChatAudited, Next;
    if events != [] {
      var n := |events| - 1;
      RunKeeps(c, events[..n], task, sessionKey);
      RunAudited(c, events[..n], sessionKey);
      NextKeeps(Run(c, events[..n], sessionKey), events[n], task, sessionKey);
    }
  }

  /** Every chat reached from a new one, for a task on which no batch started from stale memory. */
  lemma Reached(c: Chat, events: seq<Event>, task: string, sessionKey: string)
    requires NewChat(c) && OrderedRun(c, events, sessionKey) && CurrentRun(c, events, task, sessionKey)
    ensures var end := Run(c, events, sessionKey);
            ChatOk(end, task) && ChatAudited(end, sessionKey)
  {
    NewChatIsOk(c, task, sessionKey);
    RunAudited(c, events, sessionKey);
    RunKeeps(c, events, task, sessionKey);
  }

  // ----- the theorems -----

  lemma CommittedLater(s: Server, steps: seq<EnvStep>, k: Key)
    requires k != OtherKey
    ensures Committed(Evolve(s, steps), k) <= Total(s, k)
  {
    EvolveIsLater(s, steps);
  }

  /** Over every run, whatever the operations say and whatever memory holds: each request left behind its own journaled
      intent, to an issue proven to be the task's own in the same pass, with Done only behind a visible comment; and
      nothing of this chat is or will ever be on the server that was not asked for. */
  lemma EveryRequestIsJustified(c: Chat, events: seq<Event>, sessionKey: string)
    requires NewChat(c) && OrderedRun(c, events, sessionKey)
    ensures var end := Run(c, events, sessionKey);
            AllJustified(end.asked, sessionKey) && AllAsked(end.server, end.asked)
  {
    NewChatIsOk(c, "", sessionKey);
    RunAudited(c, events, sessionKey);
  }

  /** At most one issue is ever committed for a task, now and after any lost write lands, unless the journal shows that
      a link or an unconfirmed create of it was thrown away. */
  lemma AtMostOneIssue(c: Chat, events: seq<Event>, task: string, sessionKey: string, afterwards: seq<EnvStep>)
    requires NewChat(c) && OrderedRun(c, events, sessionKey) && CurrentRun(c, events, task, sessionKey)
    requires var f := FateOf(Run(c, events, sessionKey).journal, task); !f.unlinked && !f.forgotten
    ensures Committed(Evolve(Run(c, events, sessionKey).server, afterwards), RootKey(task)) <= 1
  {
    hide ChatAudited, Evolve, FateOf, JournalAllowed;
    Reached(c, events, task, sessionKey);
    CommittedLater(Run(c, events, sessionKey).server, afterwards, RootKey(task));
  }

  /** At most one issue of the task's own, root or sub-issue, is ever committed, unless the journal shows one of those
      losses or that an unconfirmed create was given up for somebody else's issue. */
  lemma AtMostOneOwnIssue(c: Chat, events: seq<Event>, task: string, sessionKey: string, afterwards: seq<EnvStep>)
    requires NewChat(c) && OrderedRun(c, events, sessionKey) && CurrentRun(c, events, task, sessionKey)
    requires var f := FateOf(Run(c, events, sessionKey).journal, task); !f.unlinked && !f.forgotten && !f.overridden
    ensures var end := Evolve(Run(c, events, sessionKey).server, afterwards);
            Committed(end, RootKey(task)) + Committed(end, SubKey(task)) <= 1
  {
    hide Evolve, FateOf, JournalAllowed, AllJustified;
    Reached(c, events, task, sessionKey);
    var end := Run(c, events, sessionKey);
    CommittedLater(end.server, afterwards, RootKey(task));
    CommittedLater(end.server, afterwards, SubKey(task));
    assert Total(end.server, SubKey(task)) <= multiset(AskedKeys(end.asked))[SubKey(task)];
  }

  /** At most one sub-issue is ever requested for the task, even after a definite failure, unless its link was thrown
      away. */
  lemma AtMostOneSubissueRequest(c: Chat, events: seq<Event>, task: string, sessionKey: string)
    requires NewChat(c) && OrderedRun(c, events, sessionKey) && CurrentRun(c, events, task, sessionKey)
    requires !FateOf(Run(c, events, sessionKey).journal, task).unlinked
    ensures SubCount(Run(c, events, sessionKey).asked, task) <= 1
  {
    hide ChatAudited, FateOf, JournalAllowed;
    Reached(c, events, task, sessionKey);
  }

  /** At most one completion comment per issue and answer revision is ever committed, unless the link was thrown away. */
  lemma AtMostOneCommentPerIssue(c: Chat, events: seq<Event>, task: string, sessionKey: string, afterwards: seq<EnvStep>, issue: nat, marker: string)
    requires NewChat(c) && OrderedRun(c, events, sessionKey) && CurrentRun(c, events, task, sessionKey)
    requires !FateOf(Run(c, events, sessionKey).journal, task).unlinked
    ensures Committed(Evolve(Run(c, events, sessionKey).server, afterwards), CommentKey(task, issue, marker)) <= 1
  {
    hide ChatAudited, Evolve, FateOf, JournalAllowed;
    Reached(c, events, task, sessionKey);
    var end := Run(c, events, sessionKey);
    assert CommentAccounted(task, end.server, Get(Replay(end.journal), task), issue, marker);
    CommittedLater(end.server, afterwards, CommentKey(task, issue, marker));
  }

  /** A completion comment of this task for this answer revision, on whatever issue. */
  predicate IsCompletion(k: Key, task: string, marker: string) {
    k.CommentKey? && k.task == task && k.marker == marker
  }

  predicate OneCompletion(comments: seq<Comment>, task: string, marker: string) {
    forall p, q | 0 <= p < |comments| && 0 <= q < |comments|
        && IsCompletion(comments[p].key, task, marker) && IsCompletion(comments[q].key, task, marker) :: p == q
  }

  lemma KeyCounts(comments: seq<Comment>, p: nat, q: nat)
    requires p < |comments| && q < |comments|
    ensures multiset(CommentKeys(comments))[comments[p].key] >= 1
    ensures p != q && comments[p].key == comments[q].key ==> multiset(CommentKeys(comments))[comments[p].key] >= 2
  {
    var keys := CommentKeys(comments);
    assert keys[p] in multiset(keys);
    if p < q {
      assert keys == keys[..p + 1] + keys[p + 1..] && keys[p] in keys[..p + 1] && keys[q] in keys[p + 1..];
    } else if q < p {
      assert keys == keys[..q + 1] + keys[q + 1..] && keys[q] in keys[..q + 1] && keys[p] in keys[q + 1..];
    }
  }

  /** Comments that are all on one issue, and at most once there, are at most one. */
  lemma HomeCompletionsAreOne(s: Server, t: Server, d: Option<Record>, task: string, marker: string)
    requires Later(s, t)
    requires forall k: Key :: IsCompletion(k, task, marker) && Total(s, k) > 0 ==> Total(s, k) == 1 && IsLinked(d) && d.value.issueId == Some(k.issue)
    ensures OneCompletion(t.comments, task, marker)
  {
    var comments := t.comments;
    forall p, q | 0 <= p < |comments| && 0 <= q < |comments|
        && IsCompletion(comments[p].key, task, marker) && IsCompletion(comments[q].key, task, marker) ensures p == q {
      KeyCounts(comments, p, q);
      KeyCounts(comments, q, p);
      assert Total(t, comments[p].key) <= Total(s, comments[p].key) && Total(t, comments[q].key) <= Total(s, comments[q].key);
    }
  }

  /** What a chat's invariants say of its completion comments, now and after any lost write lands. */
  lemma ChatCommentsOnce(c: Chat, task: string, afterwards: seq<EnvStep>, marker: string)
    requires ChatOk(c, task) && var f := FateOf(c.journal, task); !f.unlinked && !f.moved
    ensures OneCompletion(Evolve(c.server, afterwards).comments, task, marker)
  {
    hide Evolve, FateOf, JournalAllowed, OneCompletion, Total;
    var d := Get(Replay(c.journal), task);
    forall k: Key | IsCompletion(k, task, marker) && Total(c.server, k) > 0 ensures Total(c.server, k) == 1 && IsLinked(d) && d.value.issueId == Some(k.issue) {
      assert k == CommentKey(task, k.issue, marker);
      assert CommentAccounted(task, c.server, d, k.issue, marker) && AtHome(task, c.server, d, k.issue, marker);
    }
    EvolveIsLater(c.server, afterwards);
    HomeCompletionsAreOne(c.server, Evolve(c.server, afterwards), d, task, marker);
  }

  /** At most one completion comment per task and answer revision is ever committed, on whatever issues, now and after
      any lost write lands, unless the link was thrown away or a record that carries a comment marker has taken over a
      sub-issue. */
  lemma AtMostOneComment(c: Chat, events: seq<Event>, task: string, sessionKey: string, afterwards: seq<EnvStep>, marker: string)
    requires NewChat(c) && OrderedRun(c, events, sessionKey) && CurrentRun(c, events, task, sessionKey)
    requires var f := FateOf(Run(c, events, sessionKey).journal, task); !f.unlinked && !f.moved
    ensures OneCompletion(Evolve(Run(c, events, sessionKey).server, afterwards).comments, task, marker)
  {
    hide Run, Evolve, FateOf, ChatOk, ChatAudited, OneCompletion;
    Reached(c, events, task, sessionKey);
    ChatCommentsOnce(Run(c, events, sessionKey), task, afterwards, marker);
  }

  /** A task that was never linked to somebody else's issue never moves, and its unconfirmed creates are never given up
      for one. */
  lemma {:induction false} UnsharedStays(journal: seq<Entry>, task: string)
    requires JournalAllowed(journal, task) && var f := FateOf(journal, task); !f.unlinked && !f.shared
    ensures !FateOf(journal, task).moved && !FateOf(journal, task).overridden
    ensures IsLinked(Get(Replay(journal), task)) ==> Current(Replay(journal)[task]).scope == Owned
  {
    if journal != [] {
      UnsharedStays(journal[..|journal| - 1], task);
    }
  }

  /** So over the runs that never link it to one, at most one completion comment per answer revision is committed. */
  lemma AtMostOneCommentUnshared(c: Chat, events: seq<Event>, task: string, sessionKey: string, afterwards: seq<EnvStep>, marker: string)
    requires NewChat(c) && OrderedRun(c, events, sessionKey) && CurrentRun(c, events, task, sessionKey)
    requires var f := FateOf(Run(c, events, sessionKey).journal, task); !f.unlinked && !f.shared
    ensures OneCompletion(Evolve(Run(c, events, sessionKey).server, afterwards).comments, task, marker)
  {
    hide Run, Evolve, FateOf, JournalAllowed, OneCompletion, OrderedRun, CurrentRun;
    AssociationsChangeAsAllowed(c, events, task, sessionKey);
    UnsharedStays(Run(c, events, sessionKey).journal, task);
    AtMostOneComment(c, events, task, sessionKey, afterwards, marker);
  }

  /** A comment of this revision was sent to an issue that the task's record has since left. */
  predicate LeftBehind(asked: seq<Audit>, d: Option<Record>, task: string, marker: string) {
    exists i | 0 <= i < |asked| && IsCompletion(asked[i].key, task, marker) :: !(IsLinked(d) && d.value.issueId == Some(asked[i].key.issue))
  }

  /** A committed completion comment is on the issue the record names. */
  lemma CompletionIsHome(s: Server, asked: seq<Audit>, d: Option<Record>, k: Key, task: string, marker: string)
    requires AllAsked(s, asked) && Total(s, k) > 0 && IsCompletion(k, task, marker) && !LeftBehind(asked, d, task, marker)
    ensures IsLinked(d) && d.value.issueId == Some(k.issue)
  {
    assert Total(s, k) <= multiset(AskedKeys(asked))[k];
    assert k in AskedKeys(asked);
    var i :| 0 <= i < |AskedKeys(asked)| && AskedKeys(asked)[i] == k;
    assert asked[i].key == k;
  }

  /** After the fact, by the requests made: whatever moves there were, at most one completion comment of a revision is
      committed unless the record has left an issue that this revision was sent to. */
  lemma AtMostOneCommentUnlessLeft(c: Chat, events: seq<Event>, task: string, sessionKey: string, afterwards: seq<EnvStep>, marker: string)
    requires NewChat(c) && OrderedRun(c, events, sessionKey) && CurrentRun(c, events, task, sessionKey)
    requires var end := Run(c, events, sessionKey);
             !FateOf(end.journal, task).unlinked && !LeftBehind(end.asked, Get(Replay(end.journal), task), task, marker)
    ensures OneCompletion(Evolve(Run(c, events, sessionKey).server, afterwards).comments, task, marker)
  {
    hide Run, Evolve, FateOf, JournalAllowed, AllJustified, LeftBehind, OrderedRun, CurrentRun;
    Reached(c, events, task, sessionKey);
    var end := Run(c, events, sessionKey);
    var d := Get(Replay(end.journal), task);
    forall k: Key | IsCompletion(k, task, marker) && Total(end.server, k) > 0 ensures Total(end.server, k) == 1 && IsLinked(d) && d.value.issueId == Some(k.issue) {
      CompletionIsHome(end.server, end.asked, d, k, task, marker);
      assert k == CommentKey(task, k.issue, marker);
      assert CommentAccounted(task, end.server, d, k.issue, marker);
    }
    EvolveIsLater(end.server, afterwards);
    HomeCompletionsAreOne(end.server, Evolve(end.server, afterwards), d, task, marker);
  }

  /** Every journaled change of the task's association is one of the allowed ones. */
  lemma AssociationsChangeAsAllowed(c: Chat, events: seq<Event>, task: string, sessionKey: string)
    requires NewChat(c) && OrderedRun(c, events, sessionKey) && CurrentRun(c, events, task, sessionKey)
    ensures JournalAllowed(Run(c, events, sessionKey).journal, task)
  {
    Reached(c, events, task, sessionKey);
  }

  /** No batch starts between an abandoned batch and the next restart. */
  predicate UnabandonedRun(c: Chat, events: seq<Event>, sessionKey: string) {
    events == [] ||
    (var before, e := Run(c, events[..|events| - 1], sessionKey), events[|events| - 1];
     UnabandonedRun(c, events[..|events| - 1], sessionKey) && (e.TaskBatch? && before.enabled ==> !before.abandoned))
  }

  lemma {:induction false} UnabandonedIsCurrent(c: Chat, events: seq<Event>, task: string, sessionKey: string)
    requires NewChat(c) && OrderedRun(c, events, sessionKey) && UnabandonedRun(c, events, sessionKey)
    ensures CurrentRun(c, events, task, sessionKey)
  {
    hide Safe, ChatAudited, NewChat, Run, Ordered;
    if events != [] {
      var n := |events| - 1;
      UnabandonedIsCurrent(c, events[..n], task, sessionKey);
      Reached(c, events[..n], task, sessionKey);
    }
  }

  /** While no batch has been abandoned the associations in memory are exactly the journal's, so a restart changes
      nothing. */
  lemma MemoryIsTheJournal(c: Chat, events: seq<Event>, sessionKey: string)
    requires NewChat(c) && OrderedRun(c, events, sessionKey) && UnabandonedRun(c, events, sessionKey)
    requires !Run(c, events, sessionKey).abandoned
    ensures var end := Run(c, events, sessionKey);
            end.records == Replay(end.journal) && Next(end, Restart(end.enabled), sessionKey) == end
  {
    hide Run, ChatAudited, Safe, OrderedRun, CurrentRun, UnabandonedRun;
    var end := Run(c, events, sessionKey);
    forall task ensures Get(end.records, task) == Get(Replay(end.journal), task) {
      UnabandonedIsCurrent(c, events, task, sessionKey);
      Reached(c, events, task, sessionKey);
    }
    SameLookups(end.records, Replay(end.journal));
  }

  lemma SameLookups(m: Records, n: Records)
    requires forall t :: Get(m, t) == Get(n, t)
    ensures m == n
  {
    forall t ensures (t in m <==> t in n) && (t in m ==> m[t] == n[t]) {
      assert Get(m, t) == Get(n, t);
    }
  }
}

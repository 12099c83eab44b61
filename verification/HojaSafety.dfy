/** What every run keeps for a watched task, whatever others do and wherever the session stops: the invariants, and why
    each elementary step (an await, a journal write, a request) keeps them. */
module HojaSafety {
  import opened Wrappers
  import opened ManagedBlock
  import opened Markers
  import opened HojaRecords
  import opened HojaServer
  import opened HojaWorld
  import opened LifecycleSync
  import opened Publish

  // ----- what the journal still owes -----

  predicate IsReconciling(d: Option<Record>) {
    d.Some? && d.value.state == Reconciling
  }

  /** An association a batch tries to resolve. */
  predicate Pending(r: Record) {
    r.state == Reconciling && r.marker.Some? && r.marker.value != ""
  }

  predicate HoldsAssociation(d: Option<Record>) {
    IsLinked(d) || IsReconciling(d)
  }

  /** The record says a comment with this marker may exist on its issue. */
  predicate Owed(d: Option<Record>, issue: nat, marker: string) {
    && IsLinked(d) && d.value.issueId == Some(issue)
    && Unresolved(Current(d.value)) && Current(d.value).commentMarker == Some(marker)
  }

  /** The record owns another issue and will not come back to this one. */
  predicate Moved(d: Option<Record>, issue: nat) {
    IsLinked(d) && Current(d.value).scope == Owned && d.value.issueId != Some(issue)
  }

  predicate VisibleOn(s: Server, issue: nat, marker: string) {
    Visible(CommentsOn(s.comments, issue), marker)
  }

  // ----- what the journal shows to have been thrown away -----

  /** A link given up; an unconfirmed create given up without proof that it failed; an unconfirmed create given up for
      somebody else's issue; a link to somebody else's issue; an issue left after the record carried a comment marker. */
  datatype Fate = Fate(unlinked: bool, forgotten: bool, overridden: bool, shared: bool, moved: bool)

  const NOTHING_LOST := Fate(false, false, false, false, false)

  function FateAfter(f: Fate, previous: Option<Record>, next: Record): Fate {
    Fate(f.unlinked || (IsLinked(previous) && next.state != Linked),
         f.forgotten || (IsReconciling(previous) && !HoldsAssociation(Some(next)) && next.reason != Some(CreateFailed)),
         f.overridden || (IsReconciling(previous) && next.state == Linked && Current(next).scope == Adopted),
         f.shared || (!IsLinked(previous) && next.state == Linked && Current(next).scope == Adopted),
         f.moved || Leaves(previous, next))
  }

  /** The record moves to another issue although it carries a comment marker. */
  predicate Leaves(previous: Option<Record>, next: Record) {
    && IsLinked(previous) && next.state == Linked && next.issueId != previous.value.issueId
    && Current(previous.value).commentMarker.Some?
  }

  function FateOf(journal: seq<Entry>, task: string): Fate {
    if journal == [] then NOTHING_LOST
    else
      var front, last := journal[..|journal| - 1], journal[|journal| - 1];
      if Replayable(last) && last.record.taskId == task
      then FateAfter(FateOf(front, task), Get(Replay(front), task), last.record) else FateOf(front, task)
  }

  // ----- the invariants of one task -----

  /** At most one root issue is committed or may still commit, and while there is one the journal says so. */
  predicate RootInv(task: string, s: Server, d: Option<Record>) {
    Total(s, RootKey(task)) <= 1 && (Total(s, RootKey(task)) == 1 ==> HoldsAssociation(d))
  }

  predicate CommentAccounted(task: string, s: Server, d: Option<Record>, issue: nat, marker: string) {
    var n := Total(s, CommentKey(task, issue, marker));
    && n <= 1
    && (n == 1 ==> issue < |s.issues| && IsLinked(d) && (VisibleOn(s, issue, marker) || Owed(d, issue, marker) || Moved(d, issue)))
  }

  /** At most one completion comment per issue and revision is committed or may still commit; one that is not yet
      visible is owed by the journal. */
  ghost predicate CommentInv(task: string, s: Server, d: Option<Record>) {
    forall issue: nat, marker: string :: CommentAccounted(task, s, d, issue, marker)
  }

  /** A comment stands on the issue the record names, and the record carries a comment marker. */
  predicate AtHome(task: string, s: Server, d: Option<Record>, issue: nat, marker: string) {
    Total(s, CommentKey(task, issue, marker)) > 0 ==>
      IsLinked(d) && d.value.issueId == Some(issue) && Current(d.value).commentMarker.Some?
  }

  ghost predicate HomeInv(task: string, s: Server, d: Option<Record>) {
    forall issue: nat, marker: string :: AtHome(task, s, d, issue, marker)
  }

  function AskedKeys(asked: seq<Audit>): seq<Key> {
    seq(|asked|, i requires 0 <= i < |asked| => asked[i].key)
  }

  function SubCount(asked: seq<Audit>, task: string): nat {
    multiset(AskedKeys(asked))[SubKey(task)]
  }

  /** At most one sub-issue is ever requested, and once it is the record says so. */
  predicate SubInv(task: string, asked: seq<Audit>, d: Option<Record>) {
    && SubCount(asked, task) <= 1
    && (SubCount(asked, task) == 1 ==> IsLinked(d) && (Current(d.value).subissue.Some? || Current(d.value).scope == Owned))
  }

  /** A root issue and a sub-issue exclude each other. */
  predicate OwnInv(task: string, s: Server, asked: seq<Audit>, d: Option<Record>) {
    && Total(s, RootKey(task)) + SubCount(asked, task) <= 1
    && (Total(s, RootKey(task)) == 1 && IsLinked(d) ==> Current(d.value).scope == Owned)
  }

  ghost predicate TaskInv(task: string, s: Server, asked: seq<Audit>, d: Option<Record>, f: Fate) {
    && (!f.unlinked ==> CommentInv(task, s, d) && SubInv(task, asked, d))
    && (!f.unlinked && !f.forgotten ==> RootInv(task, s, d))
    && (!f.unlinked && !f.forgotten && !f.overridden ==> OwnInv(task, s, asked, d))
    && (!f.unlinked && !f.moved ==> HomeInv(task, s, d))
  }

  // ----- how an association may change -----

  const NAMED_FAILURES := {InvalidHojaIssue, LookupFailed, IssueNotFound, IdentifierMismatch}

  /** The only ways an association changes. */
  predicate Allowed(previous: Option<Record>, next: Record) {
    || (next.state == Skipped && next.reason == Some(InvalidHojaMetadata))
    || (&& (IsLinked(previous) ==>
              && next.state == Linked
              && ((next.issueId == previous.value.issueId && Current(next).scope == Current(previous.value).scope)
                  || (Current(previous.value).scope == Adopted && Current(next).scope == Owned)))
        && (IsReconciling(previous) ==>
              || next.state == Linked || next.state == Reconciling
              || (next.reason.Some? && next.reason.value in NAMED_FAILURES)
              || (next.reason == Some(CreateFailed) && previous.value.reason == Some(WriteInFlight))))
  }

  predicate JournalAllowed(journal: seq<Entry>, task: string) {
    journal == [] ||
    (var front, last := journal[..|journal| - 1], journal[|journal| - 1];
     && JournalAllowed(front, task)
     && (Replayable(last) && last.record.taskId == task ==> Allowed(Get(Replay(front), task), last.record)))
  }

  // ----- all of it -----

  function Newest(w: World, task: string): Option<Record> {
    Get(Replay(w.journal), task)
  }

  ghost predicate Safe(watched: string, w: World) {
    && TaskInv(watched, w.server, w.asked, Newest(w, watched), FateOf(w.journal, watched))
    && JournalAllowed(w.journal, watched)
  }

  // ----- elementary steps -----

  lemma VisibleStays(c: seq<Comment>, d: seq<Comment>, issue: nat, marker: string)
    requires c <= d && Visible(CommentsOn(c, issue), marker)
    ensures Visible(CommentsOn(d, issue), marker)
  {
    CommentsStay(c, d, issue);
    var body :| body in CommentsOn(c, issue) && HasAnswerMarker(body, marker);
    assert body in CommentsOn(d, issue);
  }

  lemma CommentsLater(task: string, s: Server, t: Server, d: Option<Record>)
    requires Later(s, t) && CommentInv(task, s, d)
    ensures CommentInv(task, t, d)
  {
    forall issue: nat, marker: string ensures CommentAccounted(task, t, d, issue, marker) {
      assert CommentAccounted(task, s, d, issue, marker);
      assert Total(t, CommentKey(task, issue, marker)) <= Total(s, CommentKey(task, issue, marker));
      if VisibleOn(s, issue, marker) {
        VisibleStays(s.comments, t.comments, issue, marker);
      }
    }
  }

  lemma HomeLater(task: string, s: Server, t: Server, d: Option<Record>)
    requires Later(s, t) && HomeInv(task, s, d)
    ensures HomeInv(task, t, d)
  {
    forall issue: nat, marker: string ensures AtHome(task, t, d, issue, marker) {
      assert AtHome(task, s, d, issue, marker);
      assert Total(t, CommentKey(task, issue, marker)) <= Total(s, CommentKey(task, issue, marker));
    }
  }

  lemma LaterKeeps(task: string, s: Server, t: Server, asked: seq<Audit>, d: Option<Record>, f: Fate)
    requires Later(s, t) && TaskInv(task, s, asked, d, f)
    ensures TaskInv(task, t, asked, d, f)
  {
    hide CommentInv, HomeInv;
    if !f.unlinked {
      CommentsLater(task, s, t, d);
      if !f.moved {
        HomeLater(task, s, t, d);
      }
    }
    assert Total(t, RootKey(task)) <= Total(s, RootKey(task));
  }

  /** Waiting keeps everything. */
  lemma AwaitKeeps(watched: string, w: World)
    requires Safe(watched, w)
    ensures Safe(watched, Await(w)) && Later(w.server, Await(w).server)
  {
    EvolveIsLater(w.server, NextTick(w).others);
    LaterKeeps(watched, w.server, Await(w).server, w.asked, Newest(w, watched), FateOf(w.journal, watched));
  }

  /** A journal write keeps everything when its own record does. */
  lemma JournalKeeps(watched: string, w: World, r: Record)
    requires Safe(watched, w) && r.taskId != ""
    requires w.active && r.taskId == watched ==>
               && Allowed(Newest(w, watched), r)
               && TaskInv(watched, w.server, w.asked, Some(r), FateAfter(FateOf(w.journal, watched), Newest(w, watched), r))
    ensures Safe(watched, Journal(w, r))
    ensures w.active ==> Newest(Journal(w, r), watched) == if r.taskId == watched then Some(r) else Newest(w, watched)
    ensures FateOf(Journal(w, r).journal, watched) ==
              if w.active && r.taskId == watched then FateAfter(FateOf(w.journal, watched), Newest(w, watched), r) else FateOf(w.journal, watched)
  {
    hide TaskInv, Allowed, FateAfter;
    if w.active {
      ReplayAppend(w.journal, r);
      assert (w.journal + [Link(r)])[..|w.journal|] == w.journal;
    }
  }

  function AuditNow(w: World, facts: TaskFacts, key: Key, request: Request): Audit {
    Audit(facts, key, request, Newest(w, facts.taskId), w.seen, w.active)
  }

  lemma SettleChanges(s: Server, write: Late, reply: Reply)
    ensures var t := Settle(s, write, reply);
            && |s.issues| <= |t.issues| && s.comments <= t.comments
            && (reply.Done? && write.LateIssue? ==> |s.issues| < |t.issues|)
            && forall k: Key :: k != OtherKey ==> Total(t, k) <= Total(s, k) + (if LateKey(write) == k && !reply.Rejected? then 1 else 0)
  {
    forall k: Key | k != OtherKey ensures
        Total(Settle(s, write, reply), k) <= Total(s, k) + (if LateKey(write) == k && !reply.Rejected? then 1 else 0) {
      SettleCounts(s, write, reply, k);
    }
    CommitCounts(s, write, RootKey(""));
  }

  lemma SettleCounts(s: Server, write: Late, reply: Reply, k: Key)
    requires k != OtherKey
    ensures Total(Settle(s, write, reply), k) <= Total(s, k) + (if LateKey(write) == k && !reply.Rejected? then 1 else 0)
  {
    hide Commit;
    if reply == Lost(false) {
      assert LateKeys(s.late + [write]) == LateKeys(s.late) + [LateKey(write)];
    } else {
      hide Total;
      CommitCounts(s, write, k);
    }
  }

  /** What a request changes, before we ask whether it was wise. */
  lemma SendChanges(w: World, facts: TaskFacts, key: Key, request: Request, write: Late)
    requires LateKey(write) == key
    ensures var (w1, answer) := Send(w, facts, key, request, write);
            && w1.journal == w.journal && w1.seen == w.seen && (w1.active ==> w.active)
            && w1.asked == w.asked + [AuditNow(w, facts, key, request)]
            && |w.server.issues| <= |w1.server.issues| && w.server.comments <= w1.server.comments
            && (answer.Accepted? && write.LateIssue? ==> |w.server.issues| < |w1.server.issues|)
            && forall k: Key :: k != OtherKey ==>
                 Total(w1.server, k) <= Total(w.server, k) + (if key == k && !answer.Refused? then 1 else 0)
  {
    EvolveIsLater(w.server, NextTick(w).others);
    SettleChanges(Await(Ask(w, facts, key, request)).server, write, NextTick(w).reply);
  }

  /** The side conditions under which a counted write may leave. */
  predicate MayLeave(watched: string, w: World, key: Key) {
    var d, f := Newest(w, watched), FateOf(w.journal, watched);
    match key
    case RootKey(task) => task == watched ==> IsReconciling(d) && (!f.unlinked && !f.forgotten ==> Total(w.server, key) == 0)
    case CommentKey(task, issue, marker) =>
      task == watched ==> Owed(d, issue, marker) && issue < |w.server.issues| && (!f.unlinked ==> Total(w.server, key) == 0)
    case SubKey(task) =>
      task == watched ==>
        && IsLinked(d) && Current(d.value).subissue.Some? && Current(d.value).scope == Adopted
        && (!f.unlinked ==> SubCount(w.asked, task) == 0)
    case OtherKey => true
  }

  lemma CommentsSent(task: string, s: Server, t: Server, d: Option<Record>, key: Key)
    requires CommentInv(task, s, d) && s.comments <= t.comments && |s.issues| <= |t.issues|
    requires forall k: Key :: k != OtherKey ==> Total(t, k) <= Total(s, k) + (if key == k then 1 else 0)
    requires forall issue: nat, marker: string :: key == CommentKey(task, issue, marker) ==>
               Owed(d, issue, marker) && issue < |s.issues| && Total(s, key) == 0
    ensures CommentInv(task, t, d)
  {
    forall issue: nat, marker: string ensures CommentAccounted(task, t, d, issue, marker) {
      var k := CommentKey(task, issue, marker);
      assert CommentAccounted(task, s, d, issue, marker);
      assert Total(t, k) <= Total(s, k) + (if key == k then 1 else 0);
      if VisibleOn(s, issue, marker) {
        VisibleStays(s.comments, t.comments, issue, marker);
      }
    }
  }

  lemma HomeSent(task: string, s: Server, t: Server, d: Option<Record>, key: Key)
    requires HomeInv(task, s, d)
    requires forall k: Key :: k != OtherKey ==> Total(t, k) <= Total(s, k) + (if key == k then 1 else 0)
    requires forall issue: nat, marker: string :: key == CommentKey(task, issue, marker) ==> Owed(d, issue, marker)
    ensures HomeInv(task, t, d)
  {
    forall issue: nat, marker: string ensures AtHome(task, t, d, issue, marker) {
      var k := CommentKey(task, issue, marker);
      assert AtHome(task, s, d, issue, marker);
      assert Total(t, k) <= Total(s, k) + (if key == k then 1 else 0);
    }
  }

  lemma AskedGrows(asked: seq<Audit>, a: Audit, task: string)
    ensures SubCount(asked + [a], task) == SubCount(asked, task) + (if a.key == SubKey(task) then 1 else 0)
  {
    assert AskedKeys(asked + [a]) == AskedKeys(asked) + [a.key];
  }

  lemma SendKeeps(watched: string, w: World, facts: TaskFacts, key: Key, request: Request, write: Late)
    requires Safe(watched, w) && LateKey(write) == key && MayLeave(watched, w, key)
    ensures Safe(watched, Send(w, facts, key, request, write).0)
  {
    SendChanges(w, facts, key, request, write);
    hide Send, CommentInv, HomeInv, SubCount, AuditNow, Total, JournalAllowed;
    var w1, d, f := Send(w, facts, key, request, write).0, Newest(w, watched), FateOf(w.journal, watched);
    AskedGrows(w.asked, AuditNow(w, facts, key, request), watched);
    assert AuditNow(w, facts, key, request).key == key;
    if !f.unlinked {
      CommentsSent(watched, w.server, w1.server, d, key);
      if !f.moved {
        HomeSent(watched, w.server, w1.server, d, key);
      }
    }
    assert Total(w1.server, RootKey(watched)) <= Total(w.server, RootKey(watched)) + (if key == RootKey(watched) then 1 else 0);
  }

  // ----- the operations of a batch -----

  lemma {:induction false} CandidatesAreNamed(items: seq<Item>, records: Records)
    ensures forall c | c in Candidates(items, records) :: c.facts.taskId != ""
    ensures "" !in RejectedTasks(items, records)
  {
    if items != [] {
      CandidatesAreNamed(items[..|items| - 1], records);
    }
  }
}

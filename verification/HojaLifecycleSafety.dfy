/** A lifecycle pass keeps the invariants of every task, at every await and however it ends. */
module HojaLifecycleSafety {
  import opened Wrappers
  import opened JsText
  import opened ManagedBlock
  import opened Markers
  import opened HojaRecords
  import opened HojaServer
  import opened HojaWorld
  import opened LifecycleSync
  import opened HojaSafety

  /** The pass holds a linked record of its task; while the session lives the journal's newest record of the watched
      task is this record, or, for another task, what it was when the pass began. */
  ghost predicate Held(watched: string, p: Pass, a: SyncArgs, base: Option<Record>) {
    && p.record.taskId == a.facts.taskId && a.facts.taskId != "" && p.record.state == Linked
    && (watched == a.facts.taskId && !p.saved ==> base == Some(p.record))
    && (p.w.active ==> Newest(p.w, watched) == if watched == a.facts.taskId then Some(p.record) else base)
  }

  /** The lifecycle in hand is the record's, except for the last error. */
  predicate Tracks(r: Record, l: Lifecycle) {
    Current(r).(error := None) == l.(error := None)
  }

  /** What was read is still true of the server: the issue exists and has at least those comments. */
  predicate Fresh(view: IssueView, s: Server) {
    view.id < |s.issues| && view.comments <= CommentsOn(s.comments, view.id)
  }

  /** The pass is about the watched task, the session lives, and the task's link was never given up. */
  predicate Counts(watched: string, w: World, a: SyncArgs) {
    w.active && watched == a.facts.taskId && !FateOf(w.journal, watched).unlinked
  }

  /** A comment neither seen nor owed has never been sent. */
  ghost predicate Clear(task: string, s: Server, l: Lifecycle, view: IssueView) {
    forall m: string :: !Visible(view.comments, m) && !(Unresolved(l) && l.commentMarker == Some(m)) ==>
      Total(s, CommentKey(task, view.id, m)) == 0
  }

  /** Where the pass stands between its steps: on an issue it has read, up to date, and its record's own. */
  ghost predicate Standing(watched: string, p: Pass, a: SyncArgs, l: Lifecycle, view: IssueView, base: Option<Record>) {
    && Held(watched, p, a, base) && Tracks(p.record, l) && p.record.issueId == Some(view.id) && Fresh(view, p.w.server)
    && (Counts(watched, p.w, a) ==> Clear(watched, p.w.server, l, view))
  }

  /** How a pass may end: safe, holding its record, and stopped only because the session is gone. */
  ghost predicate EndsWell(watched: string, r: SyncResult, a: SyncArgs, base: Option<Record>) {
    && Safe(watched, r.w) && Held(watched, Pass(r.w, r.record, r.saved, r.writes), a, base)
    && (r.stopped ==> !r.w.active)
  }

  // ----- saving the record -----

  /** Two lifecycles owe the same comments and hold the same sub-issue intent. */
  predicate SameDebts(l: Lifecycle, m: Lifecycle) {
    l.scope == m.scope && l.comment == m.comment && l.commentMarker == m.commentMarker && (l.subissue.Some? ==> m.subissue.Some?)
  }

  lemma SameDebtsKeep(watched: string, s: Server, asked: seq<Audit>, d: Record, r: Record, f: Fate)
    requires TaskInv(watched, s, asked, Some(d), f)
    requires d.state == Linked && r.state == Linked && r.issueId == d.issueId && SameDebts(Current(d), Current(r))
    ensures TaskInv(watched, s, asked, Some(r), f)
  {
    if !f.unlinked {
      forall issue: nat, marker: string ensures CommentAccounted(watched, s, Some(r), issue, marker) {
        assert CommentAccounted(watched, s, Some(d), issue, marker);
      }
      HomeKept(watched, s, d, r);
    }
  }

  /** On the same issue, and without losing the marker, comments stay at home. */
  lemma HomeKept(task: string, s: Server, d: Record, r: Record)
    requires r.state == Linked && r.issueId == d.issueId && (Current(d).commentMarker.Some? ==> Current(r).commentMarker.Some?)
    ensures HomeInv(task, s, Some(d)) ==> HomeInv(task, s, Some(r))
  {
    if HomeInv(task, s, Some(d)) {
      forall issue: nat, marker: string ensures AtHome(task, s, Some(r), issue, marker) {
        assert AtHome(task, s, Some(d), issue, marker);
      }
    }
  }

  /** Saving a linked record over a linked one: nothing is given up. */
  lemma SaveAny(watched: string, p: Pass, a: SyncArgs, r: Record, base: Option<Record>)
    requires Safe(watched, p.w) && Held(watched, p, a, base) && r.taskId == p.record.taskId && r.state == Linked
    requires r.issueId == p.record.issueId || (Current(p.record).scope == Adopted && Current(r).scope == Owned)
    requires Current(p.record).scope == Owned ==> Current(r).scope == Owned
    requires p.w.active && watched == r.taskId ==>
               TaskInv(watched, p.w.server, p.w.asked, Some(r), FateAfter(FateOf(p.w.journal, watched), Some(p.record), r))
    ensures Safe(watched, SaveRecord(p, r).w) && Held(watched, SaveRecord(p, r), a, base)
    ensures FateOf(SaveRecord(p, r).w.journal, watched).unlinked == FateOf(p.w.journal, watched).unlinked
    ensures r.issueId == p.record.issueId ==> FateOf(SaveRecord(p, r).w.journal, watched) == FateOf(p.w.journal, watched)
  {
    hide TaskInv, JournalAllowed, FateOf;
    JournalKeeps(watched, p.w, r);
  }

  lemma SaveSame(watched: string, p: Pass, a: SyncArgs, r: Record, base: Option<Record>)
    requires Safe(watched, p.w) && Held(watched, p, a, base) && r.taskId == p.record.taskId && r.state == Linked
    requires r.issueId == p.record.issueId && SameDebts(Current(p.record), Current(r))
    ensures Safe(watched, SaveRecord(p, r).w) && Held(watched, SaveRecord(p, r), a, base)
    ensures FateOf(SaveRecord(p, r).w.journal, watched) == FateOf(p.w.journal, watched)
  {
    hide TaskInv, JournalAllowed, FateOf;
    if p.w.active && watched == r.taskId {
      SameDebtsKeep(watched, p.w.server, p.w.asked, p.record, r, FateOf(p.w.journal, watched));
      SameIssueSameFate(FateOf(p.w.journal, watched), p.record, r);
    }
    SaveAny(watched, p, a, r, base);
  }

  lemma SameIssueSameFate(f: Fate, d: Record, r: Record)
    requires d.state == Linked && r.state == Linked && r.issueId == d.issueId
    ensures FateAfter(f, Some(d), r) == f
  {
  }

  lemma FailEndsWell(watched: string, p: Pass, a: SyncArgs, reason: SyncError, base: Option<Record>)
    requires Safe(watched, p.w) && Held(watched, p, a, base)
    ensures EndsWell(watched, Fail(p, reason), a, base)
  {
    hide Safe;
    SaveSame(watched, p, a, p.record.(lifecycle := Some(Current(p.record).(error := Some(reason)))), base);
  }

  lemma StopEndsWell(watched: string, p: Pass, a: SyncArgs, base: Option<Record>)
    requires Safe(watched, p.w) && Held(watched, p, a, base)
    ensures !p.w.active ==> EndsWell(watched, Stop(p), a, base)
  {
  }

  // ----- reading -----

  lemma ReadKeeps(watched: string, p: Pass, a: SyncArgs, issue: nat, base: Option<Record>)
    requires Safe(watched, p.w) && Held(watched, p, a, base)
    ensures var (w1, read) := ReadIssue(p.w, issue);
            && Safe(watched, w1) && Held(watched, p.(w := w1), a, base) && Later(p.w.server, w1.server) && w1.asked == p.w.asked
            && (w1.active ==> p.w.active)
            && (read.Some? ==> read.value.id == issue && Fresh(read.value, w1.server) && w1.seen == p.w.seen + [read.value])
  {
    AwaitKeeps(watched, p.w);
  }

  /** Reading the record's own issue clears every comment that is neither visible nor owed. */
  lemma ReadClears(watched: string, p: Pass, a: SyncArgs, issue: nat, l: Lifecycle, base: Option<Record>)
    requires Safe(watched, p.w) && Held(watched, p, a, base) && p.record.issueId == Some(issue) && Tracks(p.record, l)
    ensures var (w1, read) := ReadIssue(p.w, issue);
            read.Some? && Counts(watched, w1, a) ==> Clear(watched, w1.server, l, read.value)
  {
    ReadKeeps(watched, p, a, issue, base);
    var (w1, read) := ReadIssue(p.w, issue);
    if read.Some? && Counts(watched, w1, a) {
      assert Newest(w1, watched) == Some(p.record);
      forall m: string | !Visible(read.value.comments, m) && !(Unresolved(l) && l.commentMarker == Some(m))
        ensures Total(w1.server, CommentKey(watched, issue, m)) == 0
      {
        assert CommentAccounted(watched, w1.server, Some(p.record), issue, m);
      }
    }
  }

  /** Reading the standing issue again leaves the pass standing on what it read. */
  lemma ReadAgain(watched: string, p: Pass, a: SyncArgs, l: Lifecycle, issue: nat, base: Option<Record>)
    requires Safe(watched, p.w) && Held(watched, p, a, base) && Tracks(p.record, l) && p.record.issueId == Some(issue)
    ensures var (w1, read) := ReadIssue(p.w, issue);
            && Safe(watched, w1) && Held(watched, p.(w := w1), a, base)
            && (read.Some? ==> Standing(watched, p.(w := w1), a, l, read.value, base))
  {
    hide Safe;
    ReadKeeps(watched, p, a, issue, base);
    ReadClears(watched, p, a, issue, l, base);
  }

  lemma ResolveKeeps(watched: string, p: Pass, a: SyncArgs, l: Lifecycle, view: IssueView, base: Option<Record>, project: string)
    requires Safe(watched, p.w) && Standing(watched, p, a, l, view, base)
    ensures Safe(watched, Resolve(p.w, project).0) && Standing(watched, p.(w := Resolve(p.w, project).0), a, l, view, base)
  {
    AwaitKeeps(watched, p.w);
    FreshStays(view, p.w.server, Await(p.w).server);
    ClearStays(watched, p.w.server, Await(p.w).server, l, view);
  }

  lemma FreshStays(view: IssueView, s: Server, t: Server)
    requires Fresh(view, s) && |s.issues| <= |t.issues| && s.comments <= t.comments
    ensures Fresh(view, t)
  {
    CommentsStay(s.comments, t.comments, view.id);
  }

  lemma ClearStays(task: string, s: Server, t: Server, l: Lifecycle, view: IssueView)
    requires Later(s, t)
    ensures Clear(task, s, l, view) ==> Clear(task, t, l, view)
  {
    if Clear(task, s, l, view) {
      forall m: string | !Visible(view.comments, m) && !(Unresolved(l) && l.commentMarker == Some(m))
        ensures Total(t, CommentKey(task, view.id, m)) == 0
      {
        assert CommentKey(task, view.id, m) != OtherKey;
      }
    }
  }

  // ----- 1. the managed block -----

  lemma DescribeKeeps(watched: string, p: Pass, a: SyncArgs, l: Lifecycle, view: IssueView, base: Option<Record>)
    requires Safe(watched, p.w) && Standing(watched, p, a, l, view, base)
    ensures match Describe(p, a, view)
            case Halt(r) => EndsWell(watched, r, a, base)
            case Go(d) => Safe(watched, d.p.w) && Standing(watched, d.p, a, l, d.view, base)
  {
    hide Safe, Held, Standing, EndsWell, MergeManagedDescription, ManagedSection, WriteDescription, ProveDescription, Stop, Fail;
    var desired := MergeManagedDescription(view.description, ManagedSection(a.facts));
    StandingHolds(watched, p, a, l, view, base);
    if desired != view.description {
      if !p.w.active {
        StopEndsWell(watched, p, a, base);
      } else {
        var (w1, answer) := WriteDescription(p.w, a.facts, view.id, desired);
        var p1 := p.(w := w1);
        DescriptionLeaves(watched, p, a, view.id, desired, base);
        if !answer.Accepted? {
          FailEndsWell(watched, p1, a, if answer.Ambiguous? then DescriptionAmbiguous else DescriptionFailed, base);
        } else {
          var p2 := p1.(writes := p1.writes + 1);
          HeldWrites(watched, p1, a, base);
          if p2.w.active {
            ProveDescriptionKeeps(watched, p2, a, l, view.id, desired, base);
          } else {
            StopEndsWell(watched, p2, a, base);
          }
        }
      }
    }
  }

  lemma ProveDescriptionKeeps(watched: string, p: Pass, a: SyncArgs, l: Lifecycle, issue: nat, desired: string, base: Option<Record>)
    requires Safe(watched, p.w) && Held(watched, p, a, base) && Tracks(p.record, l) && p.record.issueId == Some(issue)
    ensures match ProveDescription(p, a, issue, desired)
            case Halt(r) => EndsWell(watched, r, a, base)
            case Go(d) => Safe(watched, d.p.w) && Standing(watched, d.p, a, l, d.view, base)
  {
    hide Safe, Held, Standing, EndsWell, Fail, ReadIssue, Contains, ManagedSection;
    ReadAgain(watched, p, a, l, issue, base);
    FailEndsWell(watched, p.(w := ReadIssue(p.w, issue).0), a, DescriptionUnverified, base);
  }

  lemma DescriptionLeaves(watched: string, p: Pass, a: SyncArgs, issue: nat, desired: string, base: Option<Record>)
    requires Safe(watched, p.w) && Held(watched, p, a, base)
    ensures var w1 := WriteDescription(p.w, a.facts, issue, desired).0;
            Safe(watched, w1) && Held(watched, p.(w := w1), a, base)
  {
    WriteKeeps(watched, p, a, SetDescription(issue, desired), LateEdit(issue, Some(desired), None), base);
  }

  lemma StateLeaves(watched: string, p: Pass, a: SyncArgs, issue: nat, resolved: Resolved, target: string, base: Option<Record>)
    requires Safe(watched, p.w) && Held(watched, p, a, base)
    ensures var w1 := WriteState(p.w, a.facts, issue, resolved, target).0;
            Safe(watched, w1) && Held(watched, p.(w := w1), a, base)
  {
    WriteKeeps(watched, p, a, SetState(issue, resolved, target), LateEdit(issue, None, Some(target)), base);
  }

  /** An uncounted write (description or state) keeps everything. */
  lemma WriteKeeps(watched: string, p: Pass, a: SyncArgs, request: Request, write: Late, base: Option<Record>)
    requires Safe(watched, p.w) && Held(watched, p, a, base) && LateKey(write) == OtherKey
    ensures var w1 := Send(p.w, a.facts, OtherKey, request, write).0;
            Safe(watched, w1) && Held(watched, p.(w := w1), a, base)
  {
    SendKeeps(watched, p.w, a.facts, OtherKey, request, write);
    SendChanges(p.w, a.facts, OtherKey, request, write);
  }

  // ----- 2. the workflow state -----

  lemma ApplyStateKeeps(watched: string, p: Pass, a: SyncArgs, l: Lifecycle, view: IssueView, target: string, base: Option<Record>)
    requires Safe(watched, p.w) && Standing(watched, p, a, l, view, base)
    ensures match ApplyState(p, a, view, target)
            case Halt(r) => EndsWell(watched, r, a, base)
            case Go(d) => Safe(watched, d.p.w) && Standing(watched, d.p, a, l, d.view, base)
  {
    hide Safe;
    if !SameState(view.state, target) {
      FailEndsWell(watched, p, a, StateProjectUnknown, base);
      StopEndsWell(watched, p, a, base);
      if Truthy(ProjectOf(p, a)) && p.w.active {
        var (w1, resolution) := Resolve(p.w, ProjectOf(p, a).value);
        var p1 := p.(w := w1);
        ResolveKeeps(watched, p, a, l, view, base, ProjectOf(p, a).value);
        FailEndsWell(watched, p1, a, StateUnresolved, base);
        FailEndsWell(watched, p1, a, StateTargetMismatch, base);
        StopEndsWell(watched, p1, a, base);
        if resolution.ResolvedTo? && resolution.target.teamId == view.teamId && resolution.target.projectId == view.projectId && p1.w.active {
          MoveStateKeeps(watched, p1, a, l, view, resolution.target, target, base);
        }
      }
    }
  }

  lemma MoveStateKeeps(watched: string, p: Pass, a: SyncArgs, l: Lifecycle, view: IssueView, resolved: Resolved, target: string, base: Option<Record>)
    requires Safe(watched, p.w) && Standing(watched, p, a, l, view, base)
    ensures match MoveState(p, a, view, resolved, target)
            case Halt(r) => EndsWell(watched, r, a, base)
            case Go(d) => Safe(watched, d.p.w) && Standing(watched, d.p, a, l, d.view, base)
  {
    hide Safe, Held, Standing, EndsWell, WriteState, Fail, Stop, ProveState;
    var (w1, answer) := WriteState(p.w, a.facts, view.id, resolved, target);
    var p1 := p.(w := w1);
    StandingHolds(watched, p, a, l, view, base);
    StateLeaves(watched, p, a, view.id, resolved, target, base);
    if !answer.Accepted? {
      FailEndsWell(watched, p1, a, if answer.Ambiguous? then StateAmbiguous else StateFailed, base);
    } else {
      var p2 := p1.(writes := p1.writes + 1);
      HeldWrites(watched, p1, a, base);
      if p2.w.active {
        ProveStateKeeps(watched, p2, a, l, view.id, target, base);
      } else {
        StopEndsWell(watched, p2, a, base);
      }
    }
  }

  lemma StandingHolds(watched: string, p: Pass, a: SyncArgs, l: Lifecycle, view: IssueView, base: Option<Record>)
    requires Standing(watched, p, a, l, view, base)
    ensures Held(watched, p, a, base) && Tracks(p.record, l) && p.record.issueId == Some(view.id)
  {
  }

  lemma ProveStateKeeps(watched: string, p: Pass, a: SyncArgs, l: Lifecycle, issue: nat, target: string, base: Option<Record>)
    requires Safe(watched, p.w) && Held(watched, p, a, base) && Tracks(p.record, l) && p.record.issueId == Some(issue)
    ensures match ProveState(p, issue, target)
            case Halt(r) => EndsWell(watched, r, a, base)
            case Go(d) => Safe(watched, d.p.w) && Standing(watched, d.p, a, l, d.view, base)
  {
    hide Safe, Held, Standing, EndsWell, Fail, ReadIssue, SameState;
    ReadAgain(watched, p, a, l, issue, base);
    FailEndsWell(watched, p.(w := ReadIssue(p.w, issue).0), a, StateUnverified, base);
  }

  // ----- 0. the issue itself, or one beneath it -----

  lemma LocateKeeps(watched: string, p: Pass, a: SyncArgs, issue: nat, base: Option<Record>)
    requires Safe(watched, p.w) && Held(watched, p, a, base) && p.record.issueId == Some(issue)
    ensures match Locate(p, a, issue)
            case Halt(r) => EndsWell(watched, r, a, base)
            case Go(g) => Safe(watched, g.p.w) && Standing(watched, g.p, a, g.lifecycle, g.view, base)
  {
    hide Safe;
    var (w1, read) := ReadIssue(p.w, issue);
    var p1, l := p.(w := w1), Current(p.record);
    ReadKeeps(watched, p, a, issue, base);
    ReadClears(watched, p, a, issue, l, base);
    FailEndsWell(watched, p1, a, SyncReadFailed, base);
    FailEndsWell(watched, p1, a, SharedUnowned, base);
    if read.Some? {
      var view := read.value;
      if !HasLinkMarker(view.description, a.marker) && l.scope.Adopted? {
        WorkBeneathKeeps(watched, p1, a, l, view, base);
      }
    }
  }

  /** Where the pass stands on an adopted issue it may not write to. */
  ghost predicate Beneath(watched: string, p: Pass, a: SyncArgs, l: Lifecycle, view: IssueView, base: Option<Record>) {
    && Held(watched, p, a, base) && p.record.issueId == Some(view.id)
    && l.scope == Adopted && l.subissue.None? && Current(p.record).scope == Adopted && view.id < |p.w.server.issues|
  }

  lemma BeneathHolds(watched: string, p: Pass, a: SyncArgs, l: Lifecycle, view: IssueView, base: Option<Record>)
    requires Beneath(watched, p, a, l, view, base)
    ensures Held(watched, p, a, base) && p.record.issueId == Some(view.id) && Current(p.record).scope == Adopted
  {
  }

  lemma BeneathResolved(watched: string, p: Pass, a: SyncArgs, l: Lifecycle, view: IssueView, base: Option<Record>, project: string)
    requires Safe(watched, p.w) && Beneath(watched, p, a, l, view, base)
    ensures var p1 := p.(w := Resolve(p.w, project).0);
            Safe(watched, p1.w) && Held(watched, p1, a, base) && Beneath(watched, p1, a, l, view, base) && p1.w.asked == p.w.asked
  {
    AwaitKeeps(watched, p.w);
  }

  lemma BeneathSaved(watched: string, p: Pass, a: SyncArgs, l: Lifecycle, view: IssueView, base: Option<Record>)
    requires Safe(watched, p.w) && Beneath(watched, p, a, l, view, base) && Current(p.record) == l
    ensures var p2 := Save(p, PendingSubissue(l, view));
            Safe(watched, p2.w) && Held(watched, p2, a, base) && Beneath(watched, p2, a, l, view, base) && p2.w.asked == p.w.asked
            && Current(p2.record) == PendingSubissue(l, view)
            && p2.w.active == p.w.active && FateOf(p2.w.journal, watched) == FateOf(p.w.journal, watched)
  {
    SaveSame(watched, p, a, p.record.(lifecycle := Some(PendingSubissue(l, view))), base);
  }

  lemma WorkBeneathKeeps(watched: string, p: Pass, a: SyncArgs, l: Lifecycle, view: IssueView, base: Option<Record>)
    requires Safe(watched, p.w) && Held(watched, p, a, base) && p.record.issueId == Some(view.id)
    requires l == Current(p.record) && l.scope == Adopted && Fresh(view, p.w.server)
    ensures match WorkBeneath(p, a, l, view)
            case Halt(r) => EndsWell(watched, r, a, base)
            case Go(g) => Safe(watched, g.p.w) && Standing(watched, g.p, a, g.lifecycle, g.view, base)
  {
    assert l.subissue.None? ==> Beneath(watched, p, a, l, view, base);
    hide Safe, Held, Standing, Beneath, EndsWell, IntendSubissue, Fail, Stop, Resolve, SubCount;
    if l.subissue.Some? {
      match l.subissue.value
      case SubissuePending => FailEndsWell(watched, p, a, SubissueStillPending, base);
      case SubissueUnconfirmed => FailEndsWell(watched, p, a, SubissueStillUnconfirmed, base);
    } else if !Truthy(ProjectOf(p, a)) {
      FailEndsWell(watched, p, a, SharedUnowned, base);
    } else if !p.w.active {
      StopEndsWell(watched, p, a, base);
    } else {
      NoSubissueYet(watched, p, a, base);
      BeneathResolved(watched, p, a, l, view, base, ProjectOf(p, a).value);
      var (w1, resolution) := Resolve(p.w, ProjectOf(p, a).value);
      var p1 := p.(w := w1);
      FailEndsWell(watched, p1, a, SharedProjectUnresolved, base);
      if resolution.ResolvedTo? {
        IntendSubissueKeeps(watched, p1, a, l, view, resolution.target, base);
      }
    }
  }

  lemma IntendSubissueKeeps(watched: string, p: Pass, a: SyncArgs, l: Lifecycle, view: IssueView, target: Resolved, base: Option<Record>)
    requires Safe(watched, p.w) && Held(watched, p, a, base) && Beneath(watched, p, a, l, view, base) && Current(p.record) == l
    requires Counts(watched, p.w, a) ==> SubCount(p.w.asked, watched) == 0
    ensures match IntendSubissue(p, a, l, view, target)
            case Halt(r) => EndsWell(watched, r, a, base)
            case Go(g) => Safe(watched, g.p.w) && Standing(watched, g.p, a, g.lifecycle, g.view, base)
  {
    hide Safe, Held, Standing, Beneath, EndsWell, FileSubissue, Fail, Stop, Save, PendingSubissue, SubCount;
    FailEndsWell(watched, p, a, SharedTargetMismatch, base);
    if target.teamId == view.teamId {
      BeneathSaved(watched, p, a, l, view, base);
      var p1 := Save(p, PendingSubissue(l, view));
      StopEndsWell(watched, p1, a, base);
      if p1.w.active {
        FileSubissueKeeps(watched, p1, a, l, view, target, base);
      }
    }
  }

  /** While the record has no sub-issue intent and owns nothing, none was ever requested. */
  lemma NoSubissueYet(watched: string, p: Pass, a: SyncArgs, base: Option<Record>)
    requires Safe(watched, p.w) && Held(watched, p, a, base) && p.w.active
    requires Current(p.record).subissue.None? && Current(p.record).scope == Adopted
    ensures Counts(watched, p.w, a) ==> SubCount(p.w.asked, watched) == 0
  {
    assert watched == a.facts.taskId ==> Newest(p.w, watched) == Some(p.record);
  }

  lemma UnconfirmedEndsWell(watched: string, p: Pass, a: SyncArgs, error: SyncError, base: Option<Record>)
    requires Safe(watched, p.w) && Held(watched, p, a, base)
    ensures EndsWell(watched, Unconfirmed(p, error), a, base)
  {
    hide Safe;
    SaveSame(watched, p, a, p.record.(lifecycle := Some(Current(p.record).(subissue := Some(SubissueUnconfirmed), error := Some(error)))), base);
  }

  lemma FileSubissueKeeps(watched: string, p: Pass, a: SyncArgs, l: Lifecycle, view: IssueView, target: Resolved, base: Option<Record>)
    requires Safe(watched, p.w) && Beneath(watched, p, a, l, view, base) && Current(p.record) == PendingSubissue(l, view)
    requires p.w.active
    requires Counts(watched, p.w, a) ==> SubCount(p.w.asked, watched) == 0
    ensures match FileSubissue(p, a, l, view, target)
            case Halt(r) => EndsWell(watched, r, a, base)
            case Go(g) => Safe(watched, g.p.w) && Standing(watched, g.p, a, g.lifecycle, g.view, base)
  {
    hide Safe, Held, Standing, Beneath, EndsWell, Create, Fail, Stop, Unconfirmed, HasLinkMarker, SubissueDescription;
    hide NothingPosted, Counts, ReadIssue, TakeOver, StateFor;
    var (w1, answer, child) := Create(p.w, a.facts, SubKey(a.facts.taskId), target, a.facts.subject,
                                      SubissueDescription(a.facts, a.marker), StateFor(a.facts), Some(view.id));
    var p1 := p.(w := w1);
    BeneathHolds(watched, p, a, l, view, base);
    SubissueLeaves(watched, p, a, l, view, target, base);
    if answer.Ambiguous? {
      UnconfirmedEndsWell(watched, p1, a, SubissueAmbiguous, base);
    } else if answer.Refused? {
      FailEndsWell(watched, p1, a, SubissueFailed, base);
    } else {
      var p2 := p1.(writes := p1.writes + 1);
      HeldWrites(watched, p1, a, base);
      if p2.w.active {
        TakeOverKeeps(watched, p2, a, l, view, child, base);
      } else {
        StopEndsWell(watched, p2, a, base);
      }
    }
  }

  lemma TakeOverKeeps(watched: string, p: Pass, a: SyncArgs, l: Lifecycle, view: IssueView, child: nat, base: Option<Record>)
    requires Safe(watched, p.w) && Held(watched, p, a, base) && view.id < child
    requires p.record.issueId == Some(view.id) && Current(p.record).scope == Adopted
    requires Counts(watched, p.w, a) ==> NothingPosted(watched, p.w.server, child)
    ensures match TakeOver(p, a, l, view, child)
            case Halt(r) => EndsWell(watched, r, a, base)
            case Go(g) => Safe(watched, g.p.w) && Standing(watched, g.p, a, g.lifecycle, g.view, base)
  {
    hide Safe, Held, Standing, EndsWell, Unconfirmed, HasLinkMarker, NothingPosted, Counts, ReadIssue, ChildRecord;
    ReadChild(watched, p, a, view, child, base);
    var (w1, read) := ReadIssue(p.w, child);
    var p1 := p.(w := w1);
    if read.None? || !HasLinkMarker(read.value.description, a.marker) || read.value.parent != Some(view.id) {
      UnconfirmedEndsWell(watched, p1, a, SubissueUnverified, base);
    } else {
      TakeChild(watched, p1, a, l, view, read.value, base);
    }
  }

  /** The number of writes so far is not part of what is held. */
  lemma HeldWrites(watched: string, p: Pass, a: SyncArgs, base: Option<Record>)
    requires Held(watched, p, a, base)
    ensures Held(watched, p.(writes := p.writes + 1), a, base)
  {
  }

  lemma ReadChild(watched: string, p: Pass, a: SyncArgs, view: IssueView, child: nat, base: Option<Record>)
    requires Safe(watched, p.w) && Held(watched, p, a, base) && view.id < child
    requires Counts(watched, p.w, a) ==> NothingPosted(watched, p.w.server, child)
    ensures var (w3, read) := ReadIssue(p.w, child);
            && Safe(watched, w3) && Held(watched, p.(w := w3), a, base)
            && (read.Some? ==> view.id < read.value.id && Fresh(read.value, w3.server)
                               && (Counts(watched, w3, a) ==> NothingPosted(watched, w3.server, read.value.id)))
  {
    ReadKeeps(watched, p, a, child, base);
    if Counts(watched, p.w, a) {
      NothingPostedStays(watched, p.w.server, ReadIssue(p.w, child).0.server, child);
    }
  }

  /** The sub-issue request keeps everything; an accepted child is a new issue nothing was ever posted to. */
  lemma SubissueLeaves(watched: string, p: Pass, a: SyncArgs, l: Lifecycle, view: IssueView, target: Resolved, base: Option<Record>)
    requires Safe(watched, p.w) && Beneath(watched, p, a, l, view, base) && Current(p.record).subissue == Some(SubissuePending)
    requires p.w.active
    requires Counts(watched, p.w, a) ==> SubCount(p.w.asked, watched) == 0
    ensures var (w1, answer, child) := Create(p.w, a.facts, SubKey(a.facts.taskId), target, a.facts.subject,
                                              SubissueDescription(a.facts, a.marker), StateFor(a.facts), Some(view.id));
            && Safe(watched, w1) && Held(watched, p.(w := w1), a, base) && w1.seen == p.w.seen
            && (answer.Accepted? ==> view.id < child && (Counts(watched, w1, a) ==> NothingPosted(watched, w1.server, child)))
  {
    var key, state := SubKey(a.facts.taskId), StateFor(a.facts);
    if Lower(state) in target.states {
      var request := CreateIssue(target, a.facts.subject, SubissueDescription(a.facts, a.marker), state, Some(view.id));
      var write := LateIssue(NewIssue(NextTick(p.w).name, target, SubissueDescription(a.facts, a.marker), state, Some(view.id), key));
      assert watched == a.facts.taskId ==> Newest(p.w, watched) == Some(p.record);
      SendKeeps(watched, p.w, a.facts, key, request, write);
      SendChanges(p.w, a.facts, key, request, write);
      var w1 := Send(p.w, a.facts, key, request, write).0;
      if Counts(watched, p.w, a) {
        NothingPostedYet(watched, p.w, w1, key);
      }
    }
  }

  /** No comment of this task was ever sent to the issue. */
  ghost predicate NothingPosted(task: string, s: Server, issue: nat) {
    forall m: string :: Total(s, CommentKey(task, issue, m)) == 0
  }

  lemma NothingPostedYet(watched: string, w: World, w1: World, key: Key)
    requires Safe(watched, w) && !FateOf(w.journal, watched).unlinked && !key.CommentKey?
    requires forall k: Key :: k != OtherKey ==> Total(w1.server, k) <= Total(w.server, k) + (if key == k then 1 else 0)
    ensures forall issue: nat :: issue >= |w.server.issues| ==> NothingPosted(watched, w1.server, issue)
  {
    forall issue: nat, m: string | issue >= |w.server.issues| ensures Total(w1.server, CommentKey(watched, issue, m)) == 0 {
      assert CommentAccounted(watched, w.server, Newest(w, watched), issue, m);
      assert Total(w1.server, CommentKey(watched, issue, m)) <= Total(w.server, CommentKey(watched, issue, m));
    }
  }

  lemma NothingPostedStays(task: string, s: Server, t: Server, issue: nat)
    requires Later(s, t) && NothingPosted(task, s, issue)
    ensures NothingPosted(task, t, issue)
  {
    forall m: string ensures Total(t, CommentKey(task, issue, m)) == 0 {
      assert CommentKey(task, issue, m) != OtherKey;
    }
  }

  /** Taking over the verified sub-issue: whatever the record owed on the shared issue stays there. */
  lemma TakeChildKeepsTask(watched: string, s: Server, asked: seq<Audit>, d: Record, l: Lifecycle, view: IssueView, child: IssueView, f: Fate)
    requires TaskInv(watched, s, asked, Some(d), f) && d.state == Linked && Current(d).scope == Adopted
    requires d.issueId == Some(view.id) && view.id < child.id && (!f.unlinked ==> NothingPosted(watched, s, child.id))
    ensures TaskInv(watched, s, asked, Some(ChildRecord(d, l, view, child)), FateAfter(f, Some(d), ChildRecord(d, l, view, child)))
  {
    if !f.unlinked {
      NothingAtHome(watched, s, d, ChildRecord(d, l, view, child), f);
      forall issue: nat, m: string ensures CommentAccounted(watched, s, Some(ChildRecord(d, l, view, child)), issue, m) {
        assert CommentAccounted(watched, s, Some(d), issue, m);
        assert Total(s, CommentKey(watched, child.id, m)) == 0;
      }
    }
  }

  /** A record without a comment marker has no comment to leave behind. */
  lemma NothingAtHome(task: string, s: Server, d: Record, child: Record, f: Fate)
    requires d.state == Linked && child.state == Linked && child.issueId != d.issueId
    requires !f.moved ==> HomeInv(task, s, Some(d))
    ensures !FateAfter(f, Some(d), child).moved ==> HomeInv(task, s, Some(child))
  {
    if !FateAfter(f, Some(d), child).moved {
      forall issue: nat, marker: string ensures AtHome(task, s, Some(child), issue, marker) {
        assert AtHome(task, s, Some(d), issue, marker);
      }
    }
  }

  lemma TakeChild(watched: string, p: Pass, a: SyncArgs, l: Lifecycle, view: IssueView, child: IssueView, base: Option<Record>)
    requires Safe(watched, p.w) && Held(watched, p, a, base)
    requires p.record.issueId == Some(view.id) && Current(p.record).scope == Adopted && view.id < child.id
    requires Fresh(child, p.w.server)
    requires Counts(watched, p.w, a) ==> NothingPosted(watched, p.w.server, child.id)
    ensures var owned := l.(scope := Owned, subissue := None, umbrella := Some(view.identifier));
            var p4 := SaveRecord(p, ChildRecord(p.record, l, view, child));
            Safe(watched, p4.w) && Standing(watched, p4, a, owned, child, base)
  {
    hide TaskInv, JournalAllowed, FateOf;
    if p.w.active && watched == a.facts.taskId {
      TakeChildKeepsTask(watched, p.w.server, p.w.asked, p.record, l, view, child, FateOf(p.w.journal, watched));
    }
    SaveAny(watched, p, a, ChildRecord(p.record, l, view, child), base);
  }

  // ----- 3. completion -----

  /** A new comment phase may forget a debt only when the comment is visible or was never sent. */
  lemma SetComment(watched: string, p: Pass, a: SyncArgs, issue: nat, r: Record, base: Option<Record>)
    requires Safe(watched, p.w) && Held(watched, p, a, base) && p.record.issueId == Some(issue)
    requires r.taskId == p.record.taskId && r.state == Linked && r.issueId == p.record.issueId
    requires Current(r).scope == Current(p.record).scope && (Current(p.record).subissue.Some? ==> Current(r).subissue.Some?)
    requires Current(p.record).commentMarker.Some? ==> Current(r).commentMarker.Some?
    requires Counts(watched, p.w, a) ==> forall m: string ::
               Owed(Some(p.record), issue, m) && Total(p.w.server, CommentKey(watched, issue, m)) > 0 ==>
                 Owed(Some(r), issue, m) || VisibleOn(p.w.server, issue, m)
    ensures Safe(watched, SaveRecord(p, r).w) && Held(watched, SaveRecord(p, r), a, base)
    ensures FateOf(SaveRecord(p, r).w.journal, watched) == FateOf(p.w.journal, watched)
  {
    hide JournalAllowed, FateOf;
    if Counts(watched, p.w, a) {
      forall issue: nat, m: string ensures CommentAccounted(watched, p.w.server, Some(r), issue, m) {
        assert CommentAccounted(watched, p.w.server, Some(p.record), issue, m);
      }
    }
    HomeKept(watched, p.w.server, p.record, r);
    SameIssueSameFate(FateOf(p.w.journal, watched), p.record, r);
    SaveAny(watched, p, a, r, base);
  }

  lemma VisibleNow(view: IssueView, s: Server, m: string)
    requires Fresh(view, s) && Visible(view.comments, m)
    ensures VisibleOn(s, view.id, m)
  {
    var body :| body in view.comments && HasAnswerMarker(body, m);
    assert body in CommentsOn(s.comments, view.id);
  }

  /** Everything this task ever posted to the issue is visible in what was read, or was never posted. */
  ghost predicate Settled(watched: string, p: Pass, a: SyncArgs, view: IssueView) {
    Counts(watched, p.w, a) ==>
      forall m: string :: !Visible(view.comments, m) ==> Total(p.w.server, CommentKey(watched, view.id, m)) == 0
  }

  lemma ReconcileKeeps(watched: string, p: Pass, a: SyncArgs, l: Lifecycle, view: IssueView, base: Option<Record>)
    requires Safe(watched, p.w) && Standing(watched, p, a, l, view, base)
    ensures match ReconcileComment(p, l, view)
            case Halt(r) => EndsWell(watched, r, a, base)
            case Go(g) => Safe(watched, g.p.w) && Standing(watched, g.p, a, g.lifecycle, view, base) && !Unresolved(g.lifecycle) && Settled(watched, g.p, a, view)
  {
    if Unresolved(l) {
      if !Truthy(l.commentMarker) || !Visible(view.comments, l.commentMarker.value) {
        FailEndsWell(watched, p, a, if l.comment == Some(CommentPending) then CommentStillPending else CommentStillUnconfirmed, base);
      } else {
        var posted := l.(comment := Some(CommentPosted));
        var r := p.record.(lifecycle := Some(posted.(error := None)));
        VisibleNow(view, p.w.server, l.commentMarker.value);
        SetComment(watched, p, a, view.id, r, base);
        var p1 := Save(p, posted.(error := None));
        assert p1.w.server == p.w.server && p1.w.active == p.w.active;
      }
    }
  }

  function PendingComment(l: Lifecycle, marker: string): Lifecycle {
    l.(comment := Some(CommentPending), commentMarker := Some(marker))
  }

  /** The intent is journaled; nothing with this marker was ever sent. */
  lemma IntendComment(watched: string, p: Pass, a: SyncArgs, l: Lifecycle, view: IssueView, base: Option<Record>)
    requires Safe(watched, p.w) && Standing(watched, p, a, l, view, base) && !Unresolved(l)
    ensures var p1 := Save(p, PendingComment(l, CommentMarker(a)));
            && Safe(watched, p1.w) && Held(watched, p1, a, base) && p1.w.server == p.w.server && p1.w.active == p.w.active
            && FateOf(p1.w.journal, watched) == FateOf(p.w.journal, watched)
  {
    SetComment(watched, p, a, view.id, p.record.(lifecycle := Some(PendingComment(l, CommentMarker(a)))), base);
  }

  /** The comment request: at most one, and refused means none. */
  lemma CommentLeaves(watched: string, p: Pass, a: SyncArgs, l: Lifecycle, view: IssueView, base: Option<Record>)
    requires Safe(watched, p.w) && Held(watched, p, a, base) && p.record.issueId == Some(view.id) && p.w.active
    requires Current(p.record) == PendingComment(l, CommentMarker(a))
    requires Fresh(view, p.w.server) && !Visible(view.comments, CommentMarker(a)) && Settled(watched, p, a, view)
    ensures var marker := CommentMarker(a);
            var (w2, answer) := Post(p.w, a.facts, view.id, marker, CompletionComment(a.facts, marker));
            && Safe(watched, w2) && Held(watched, p.(w := w2), a, base)
            && (answer.Refused? && Counts(watched, w2, a) ==> Total(w2.server, CommentKey(watched, view.id, marker)) == 0)
  {
    var marker := CommentMarker(a);
    var body := CompletionComment(a.facts, marker);
    var key, request := CommentKey(a.facts.taskId, view.id, marker), PostComment(view.id, marker, body);
    var write := LateComment(Comment(view.id, Sent(body), key));
    hide Safe, CompletionComment, CommentMarker;
    assert watched == a.facts.taskId ==> Newest(p.w, watched) == Some(p.record);
    SendKeeps(watched, p.w, a.facts, key, request, write);
    SendChanges(p.w, a.facts, key, request, write);
  }

  lemma DoubtEndsWell(watched: string, p: Pass, a: SyncArgs, issue: nat, l: Lifecycle, marker: string, error: SyncError, base: Option<Record>)
    requires Safe(watched, p.w) && Held(watched, p, a, base) && p.record.issueId == Some(issue) && Current(p.record) == PendingComment(l, marker)
    ensures EndsWell(watched, CommentDoubt(p, error), a, base)
  {
    SetComment(watched, p, a, issue, p.record.(lifecycle := Some(Current(p.record).(comment := Some(CommentUnconfirmed), error := Some(error)))), base);
  }

  lemma RefusedEndsWell(watched: string, p: Pass, a: SyncArgs, issue: nat, l: Lifecycle, marker: string, base: Option<Record>)
    requires Safe(watched, p.w) && Held(watched, p, a, base) && p.record.issueId == Some(issue) && Current(p.record) == PendingComment(l, marker)
    requires Counts(watched, p.w, a) ==> Total(p.w.server, CommentKey(watched, issue, marker)) == 0
    ensures EndsWell(watched, RefusedComment(p), a, base)
  {
    SetComment(watched, p, a, issue, p.record.(lifecycle := Some(Current(p.record).(comment := Some(CommentFailed), error := Some(CommentRejected)))), base);
  }

  /** The comment is proved present. */
  lemma CommentProved(watched: string, p: Pass, a: SyncArgs, l: Lifecycle, view: IssueView, marker: string, base: Option<Record>)
    requires Safe(watched, p.w) && Standing(watched, p, a, PendingComment(l, marker), view, base) && Visible(view.comments, marker)
    ensures var posted := l.(comment := Some(CommentPosted), commentMarker := Some(marker));
            var p1 := Save(p, posted.(error := None));
            Safe(watched, p1.w) && Standing(watched, p1, a, posted, view, base)
  {
    var posted := l.(comment := Some(CommentPosted), commentMarker := Some(marker));
    VisibleNow(view, p.w.server, marker);
    SetComment(watched, p, a, view.id, p.record.(lifecycle := Some(posted.(error := None))), base);
  }

  lemma PostKeeps(watched: string, p: Pass, a: SyncArgs, l: Lifecycle, view: IssueView, base: Option<Record>)
    requires Safe(watched, p.w) && Standing(watched, p, a, l, view, base) && !Unresolved(l) && Settled(watched, p, a, view)
    requires AcceptedCompletion(a.facts) && !Visible(view.comments, CommentMarker(a))
    ensures match PostCompletion(p, a, l, view)
            case Halt(r) => EndsWell(watched, r, a, base)
            case Go(g) => Safe(watched, g.p.w) && Standing(watched, g.p, a, g.lifecycle, g.view, base) && Visible(g.view.comments, CommentMarker(a))
  {
    var marker := CommentMarker(a);
    var p1 := Save(p, PendingComment(l, marker));
    IntendComment(watched, p, a, l, view, base);
    StopEndsWell(watched, p1, a, base);
    if p1.w.active {
      CommentLeaves(watched, p1, a, l, view, base);
      AfterPost(watched, p1, a, l, view, base);
    }
  }

  lemma AfterPost(watched: string, p: Pass, a: SyncArgs, l: Lifecycle, view: IssueView, base: Option<Record>)
    requires p.w.active
    requires p.record.issueId == Some(view.id) && Current(p.record) == PendingComment(l, CommentMarker(a))
    requires var marker := CommentMarker(a);
             var (w2, answer) := Post(p.w, a.facts, view.id, marker, CompletionComment(a.facts, marker));
             && Safe(watched, w2) && Held(watched, p.(w := w2), a, base)
             && (answer.Refused? && Counts(watched, w2, a) ==> Total(w2.server, CommentKey(watched, view.id, marker)) == 0)
    ensures match SendCompletion(p, a, l, view)
            case Halt(r) => EndsWell(watched, r, a, base)
            case Go(g) => Safe(watched, g.p.w) && Standing(watched, g.p, a, g.lifecycle, g.view, base) && Visible(g.view.comments, CommentMarker(a))
  {
    var marker := CommentMarker(a);
    var (w2, answer) := Post(p.w, a.facts, view.id, marker, CompletionComment(a.facts, marker));
    var p2 := p.(w := w2);
    hide Safe, Held, Standing, EndsWell, Post, Stop, ProveCompletion, Counts, CommentDoubt, CommentMarker, CompletionComment, Visible;
    match answer
    case Ambiguous =>
      DoubtEndsWell(watched, p2, a, view.id, l, marker, CommentAmbiguous, base);
    case Refused =>
      RefusedEndsWell(watched, p2, a, view.id, l, marker, base);
    case Accepted =>
      var p3 := p2.(writes := p2.writes + 1);
      HeldWrites(watched, p2, a, base);
      if p3.w.active {
        ProveCompletionKeeps(watched, p3, a, l, view.id, base);
      } else {
        StopEndsWell(watched, p3, a, base);
      }
  }

  lemma ProveCompletionKeeps(watched: string, p: Pass, a: SyncArgs, l: Lifecycle, issue: nat, base: Option<Record>)
    requires Safe(watched, p.w) && Held(watched, p, a, base)
    requires p.record.issueId == Some(issue) && Current(p.record) == PendingComment(l, CommentMarker(a))
    ensures match ProveCompletion(p, l, issue, CommentMarker(a))
            case Halt(r) => EndsWell(watched, r, a, base)
            case Go(g) => Safe(watched, g.p.w) && Standing(watched, g.p, a, g.lifecycle, g.view, base) && Visible(g.view.comments, CommentMarker(a))
  {
    var marker := CommentMarker(a);
    assert Tracks(p.record, PendingComment(l, marker));
    hide Safe, Held, Standing, EndsWell, CommentDoubt, CommentMarker, Visible, ReadIssue;
    ReadAgain(watched, p, a, PendingComment(l, marker), issue, base);
    var (w1, check) := ReadIssue(p.w, issue);
    if check.None? || !Visible(check.value.comments, marker) {
      DoubtEndsWell(watched, p.(w := w1), a, issue, l, marker, CommentUnverified, base);
    } else {
      CommentProved(watched, p.(w := w1), a, l, check.value, marker, base);
    }
  }

  lemma SaveTracked(watched: string, p: Pass, a: SyncArgs, l: Lifecycle, m: Lifecycle, base: Option<Record>)
    requires Safe(watched, p.w) && Held(watched, p, a, base) && Tracks(p.record, l) && SameDebts(l, m)
    ensures Safe(watched, Save(p, m).w) && Held(watched, Save(p, m), a, base)
  {
    SaveSame(watched, p, a, p.record.(lifecycle := Some(m)), base);
  }

  lemma FollowKeeps(watched: string, p: Pass, a: SyncArgs, l: Lifecycle, view: IssueView, changed: bool, base: Option<Record>)
    requires Safe(watched, p.w) && Standing(watched, p, a, l, view, base) && !AcceptedCompletion(a.facts)
    ensures EndsWell(watched, FollowTask(p, a, l, view, changed), a, base)
  {
    hide Safe;
    if a.facts.status == "completed" {
      SaveTracked(watched, p, a, l, l.(error := Some(CompletionUnaccepted)), base);
    } else {
      ApplyStateKeeps(watched, p, a, l, view, StateFor(a.facts), base);
      var flow := ApplyState(p, a, view, StateFor(a.facts));
      if flow.Go? {
        SaveTracked(watched, flow.value.p, a, l, l.(closed := false, error := None), base);
      }
    }
  }

  /** A completion that is recorded posted, with its marker visible, owes nothing new. */
  lemma CloseKeeps(watched: string, p: Pass, a: SyncArgs, l: Lifecycle, view: IssueView, changed: bool, base: Option<Record>)
    requires Safe(watched, p.w) && Standing(watched, p, a, l, view, base) && !Unresolved(l)
    requires AcceptedCompletion(a.facts) && Visible(view.comments, CommentMarker(a))
    ensures EndsWell(watched, Close(p, a, l, view, changed), a, base)
  {
    hide Safe;
    ApplyStateKeeps(watched, p, a, l, view, DONE_STATE, base);
    var flow := ApplyState(p, a, view, DONE_STATE);
    if flow.Go? {
      var p1 := flow.value.p;
      var closed := l.(comment := Some(CommentPosted), commentMarker := Some(CommentMarker(a)), closed := true, error := None);
      SetComment(watched, p1, a, flow.value.view.id, p1.record.(lifecycle := Some(closed)), base);
    }
  }

  lemma CompleteKeeps(watched: string, p: Pass, a: SyncArgs, l: Lifecycle, view: IssueView, changed: bool, base: Option<Record>)
    requires Safe(watched, p.w) && Standing(watched, p, a, l, view, base)
    ensures EndsWell(watched, Complete(p, a, l, view, changed), a, base)
  {
    hide Safe, Standing, EndsWell, Close, FollowTask, PostCompletion, ReconcileComment, Unresolved, Settled, Visible, CommentMarker;
    ReconcileKeeps(watched, p, a, l, view, base);
    var flow := ReconcileComment(p, l, view);
    if flow.Go? {
      var p1, l1 := flow.value.p, flow.value.lifecycle;
      if !AcceptedCompletion(a.facts) {
        FollowKeeps(watched, p1, a, l1, view, changed, base);
      } else if Visible(view.comments, CommentMarker(a)) {
        CloseKeeps(watched, p1, a, l1, view, changed, base);
      } else {
        PostKeeps(watched, p1, a, l1, view, base);
        var posted := PostCompletion(p1, a, l1, view);
        if posted.Go? {
          PostResolves(p1, a, l1, view);
          CloseKeeps(watched, posted.value.p, a, posted.value.lifecycle, posted.value.view, changed, base);
        }
      }
    }
  }

  lemma PostResolves(p: Pass, a: SyncArgs, l: Lifecycle, view: IssueView)
    ensures match PostCompletion(p, a, l, view)
            case Halt(r) => true
            case Go(g) => !Unresolved(g.lifecycle)
  {
  }

  /** One pass over a linked record: every task's invariants survive, wherever the pass stops, and while the session
      lives the journal replays to the old associations with exactly this record's update. */
  lemma SyncKeeps(watched: string, w: World, a: SyncArgs, base: Option<Record>)
    requires Safe(watched, w) && Held(watched, Pass(w, a.record, false, 0), a, base)
    ensures EndsWell(watched, Sync(w, a), a, base)
  {
    var p := Pass(w.(seen := []), a.record, false, 0);
    assert Safe(watched, p.w) && Held(watched, p, a, base);
    hide Safe, Standing, EndsWell, Locate, Describe, Complete, Held;
    if a.record.issueId.Some? && a.facts.status != "deleted" && w.active {
      LocateKeeps(watched, p, a, a.record.issueId.value, base);
      var located := Locate(p, a, a.record.issueId.value);
      if located.Go? {
        var g := located.value;
        DescribeKeeps(watched, g.p, a, g.lifecycle, g.view, base);
        var described := Describe(g.p, a, g.view);
        if described.Go? {
          CompleteKeeps(watched, described.value.p, a, g.lifecycle, described.value.view, described.value.changed, base);
        }
      }
    } else {
      StopEndsWell(watched, p, a, base);
      FinishEndsWell(watched, p, a, base);
    }
  }

  lemma FinishEndsWell(watched: string, p: Pass, a: SyncArgs, base: Option<Record>)
    requires Safe(watched, p.w) && Held(watched, p, a, base)
    ensures EndsWell(watched, Finish(p, None), a, base)
  {
  }
}

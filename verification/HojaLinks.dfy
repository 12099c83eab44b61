/** A lifecycle pass journals nothing but links of its own task, so it throws no link and no create away; and which
    passes cannot leave a commented issue. */
module HojaLinks {
  import opened Wrappers
  import opened HojaRecords
  import opened HojaServer
  import opened JsText
  import opened Markers
  import opened HojaWorld
  import opened ManagedBlock
  import opened LifecycleSync
  import opened Publish
  import opened HojaSafety

  /** Between two journals there is nothing but links of this task. */
  predicate OnlyLinks(before: seq<Entry>, after: seq<Entry>, task: string) {
    && before <= after
    && forall i | |before| <= i < |after| :: after[i].Link? && after[i].record.taskId == task && after[i].record.state == Linked
  }

  /** Links throw no link and no create away, and after a first link there is no further one to somebody else's issue. */
  lemma {:induction false} LinksLoseNothing(before: seq<Entry>, after: seq<Entry>, task: string)
    requires OnlyLinks(before, after, task)
    ensures var f, g := FateOf(before, task), FateOf(after, task);
            && g.unlinked == f.unlinked && g.forgotten == f.forgotten
            && (IsLinked(Get(Replay(before), task)) ==> g == f.(moved := g.moved))
    ensures IsLinked(Get(Replay(before), task)) ==> IsLinked(Get(Replay(after), task))
    decreases |after|
  {
    if |before| < |after| {
      LinksLoseNothing(before, after[..|after| - 1], task);
    } else {
      assert before == after;
    }
  }

  /** What is journaled for one task says nothing of another. */
  lemma {:induction false} OtherLinks(before: seq<Entry>, after: seq<Entry>, own: string, task: string)
    requires OnlyLinks(before, after, own) && own != task
    ensures FateOf(after, task) == FateOf(before, task) && Get(Replay(after), task) == Get(Replay(before), task)
    decreases |after|
  {
    if |before| < |after| {
      OtherLinks(before, after[..|after| - 1], own, task);
    } else {
      assert before == after;
    }
  }

  // ----- where a pass stands -----

  predicate LinkedAs(r: Record, task: string) {
    r.taskId == task && r.state == Linked
  }

  /** No pass can take the task to another issue: the issue is its own, or its sub-issue was already asked for, or there
      is no project to file one in. */
  predicate Rooted(r: Record, project: Option<string>) {
    Current(r).scope == Owned || Current(r).subissue.Some? || !Truthy(if r.project.Some? then r.project else project)
  }

  predicate SameRoots(l: Lifecycle, m: Lifecycle) {
    l.scope == m.scope && l.subissue == m.subissue
  }

  /** What a pass is followed for: the journal, the record and the project it began with, whether the record was the
      journal's and could not leave a commented issue (`home`), and whether it was rooted. */
  datatype Track = Track(before: seq<Entry>, asked: seq<Audit>, record: Record, home: bool, rooted: bool, project: Option<string>, task: string)

  /** Nothing was asked for meanwhile but for this task. */
  predicate OnlyAsks(before: seq<Audit>, after: seq<Audit>, task: string) {
    before <= after && forall i | |before| <= i < |after| :: after[i].facts.taskId == task
  }

  predicate Kept(t: Track, w: World, r: Record, saved: bool) {
    && OnlyLinks(t.before, w.journal, t.task) && OnlyAsks(t.asked, w.asked, t.task) && LinkedAs(r, t.task)
    && r.project == t.record.project && (!saved ==> r == t.record)
    && (t.rooted ==> Rooted(r, t.project) && SameRoots(Current(r), Current(t.record)) && r == t.record.(lifecycle := r.lifecycle))
    && (t.home ==> t.task != "" && FateOf(w.journal, t.task).moved == FateOf(t.before, t.task).moved
                   && (w.active ==> Get(Replay(w.journal), t.task) == Some(r)))
  }

  predicate Linking(t: Track, p: Pass) {
    Kept(t, p.w, p.record, p.saved)
  }

  predicate EndsLinked(t: Track, r: SyncResult) {
    Kept(t, r.w, r.record, r.saved)
  }

  lemma SaveLinks(t: Track, p: Pass, r: Record)
    requires Linking(t, p) && LinkedAs(r, t.task) && r.project == p.record.project
    requires t.rooted ==> Rooted(r, t.project) && SameRoots(Current(r), Current(p.record)) && r == p.record.(lifecycle := r.lifecycle)
    requires t.home ==> !Leaves(Some(p.record), r)
    ensures Linking(t, SaveRecord(p, r))
  {
    if p.w.active {
      ReplayAppend(p.w.journal, r);
      assert (p.w.journal + [Link(r)])[..|p.w.journal|] == p.w.journal;
    }
  }

  lemma SavesLink(t: Track, p: Pass)
    requires Linking(t, p)
    ensures forall l: Lifecycle :: (t.rooted ==> SameRoots(l, Current(p.record))) ==> Linking(t, Save(p, l))
  {
    hide OnlyLinks;
    forall l: Lifecycle | t.rooted ==> SameRoots(l, Current(p.record)) ensures Linking(t, Save(p, l)) {
      SaveLinks(t, p, p.record.(lifecycle := Some(l)));
    }
  }

  /** A pass that has only waited, read, resolved or sent stands where it stood. */
  lemma MovesOn(t: Track, p: Pass, w: World)
    requires Linking(t, p) && w.journal == p.w.journal && (w.active ==> p.w.active) && OnlyAsks(p.w.asked, w.asked, t.task)
    ensures Linking(t, p.(w := w)) && Linking(t, p.(w := w, writes := p.writes + 1))
  {
  }

  // ----- the steps -----

  lemma DescribeLinks(t: Track, p: Pass, a: SyncArgs, view: IssueView)
    requires Linking(t, p) && t.task == a.facts.taskId
    ensures match Describe(p, a, view)
            case Halt(r) => EndsLinked(t, r)
            case Go(d) => Linking(t, d.p) && d.p.record == p.record
  {
    hide Kept, Evolve, Settle, MergeManagedDescription, ManagedSection, Contains;
    SavesLink(t, p);
    var (w1, answer) := WriteDescription(p.w, a.facts, view.id, MergeManagedDescription(view.description, ManagedSection(a.facts)));
    MovesOn(t, p, w1);
    SavesLink(t, p.(w := w1));
    var p2 := p.(w := w1, writes := p.writes + 1);
    MovesOn(t, p2, ReadIssue(p2.w, view.id).0);
    SavesLink(t, p2.(w := ReadIssue(p2.w, view.id).0));
  }

  lemma ApplyStateLinks(t: Track, p: Pass, a: SyncArgs, view: IssueView, target: string)
    requires Linking(t, p) && t.task == a.facts.taskId
    ensures match ApplyState(p, a, view, target)
            case Halt(r) => EndsLinked(t, r)
            case Go(d) => Linking(t, d.p) && d.p.record == p.record
  {
    hide Kept, Evolve, SameState, MoveState;
    SavesLink(t, p);
    if Truthy(ProjectOf(p, a)) {
      var (w1, resolution) := Resolve(p.w, ProjectOf(p, a).value);
      MovesOn(t, p, w1);
      SavesLink(t, p.(w := w1));
      if resolution.ResolvedTo? {
        MoveStateLinks(t, p.(w := w1), a, view, resolution.target, target);
      }
    }
  }

  lemma MoveStateLinks(t: Track, p: Pass, a: SyncArgs, view: IssueView, resolved: Resolved, target: string)
    requires Linking(t, p) && t.task == a.facts.taskId
    ensures match MoveState(p, a, view, resolved, target)
            case Halt(r) => EndsLinked(t, r)
            case Go(d) => Linking(t, d.p) && d.p.record == p.record
  {
    hide Kept, Evolve, Settle, SameState;
    var (w1, answer) := WriteState(p.w, a.facts, view.id, resolved, target);
    MovesOn(t, p, w1);
    SavesLink(t, p.(w := w1));
    var p2 := p.(w := w1, writes := p.writes + 1);
    MovesOn(t, p2, ReadIssue(p2.w, view.id).0);
    SavesLink(t, p2.(w := ReadIssue(p2.w, view.id).0));
  }

  /** The lifecycle in hand has the record's scope and sub-issue, as far as they matter. */
  predicate InHand(t: Track, p: Pass, l: Lifecycle) {
    t.rooted ==> SameRoots(l, Current(p.record))
  }

  lemma PostLinks(t: Track, p: Pass, a: SyncArgs, l: Lifecycle, view: IssueView)
    requires Linking(t, p) && t.task == a.facts.taskId && InHand(t, p, l)
    ensures match PostCompletion(p, a, l, view)
            case Halt(r) => EndsLinked(t, r)
            case Go(g) => Linking(t, g.p) && InHand(t, g.p, g.lifecycle)
  {
    hide Kept, SendCompletion, CommentMarker;
    SavesLink(t, p);
    SendLinks(t, Save(p, l.(comment := Some(CommentPending), commentMarker := Some(CommentMarker(a)))), a, l, view);
  }

  lemma SendLinks(t: Track, p: Pass, a: SyncArgs, l: Lifecycle, view: IssueView)
    requires Linking(t, p) && t.task == a.facts.taskId && InHand(t, p, l)
    ensures match SendCompletion(p, a, l, view)
            case Halt(r) => EndsLinked(t, r)
            case Go(g) => Linking(t, g.p) && InHand(t, g.p, g.lifecycle)
  {
    hide Kept, Evolve, Settle, CommentMarker, CompletionComment, Visible;
    var marker := CommentMarker(a);
    var w1 := Post(p.w, a.facts, view.id, marker, CompletionComment(a.facts, marker)).0;
    MovesOn(t, p, w1);
    SavesLink(t, p.(w := w1));
    var p2 := p.(w := w1, writes := p.writes + 1);
    MovesOn(t, p2, ReadIssue(p2.w, view.id).0);
    SavesLink(t, p2.(w := ReadIssue(p2.w, view.id).0));
  }

  lemma CompleteLinks(t: Track, p: Pass, a: SyncArgs, l: Lifecycle, view: IssueView, changed: bool)
    requires Linking(t, p) && t.task == a.facts.taskId && InHand(t, p, l)
    ensures EndsLinked(t, Complete(p, a, l, view, changed))
  {
    hide Kept, ApplyState, PostCompletion, CommentMarker, Visible, AcceptedCompletion, StateFor, FollowTask, Close;
    SavesLink(t, p);
    var reconciled := ReconcileComment(p, l, view);
    if reconciled.Go? {
      var p1, l1 := reconciled.value.p, reconciled.value.lifecycle;
      EndingLinks(t, p1, a, l1, view, changed);
      PostLinks(t, p1, a, l1, view);
      var posted := PostCompletion(p1, a, l1, view);
      if posted.Go? {
        EndingLinks(t, posted.value.p, a, posted.value.lifecycle, posted.value.view, changed);
      }
    }
  }

  lemma EndingLinks(t: Track, p: Pass, a: SyncArgs, l: Lifecycle, view: IssueView, changed: bool)
    requires Linking(t, p) && t.task == a.facts.taskId && InHand(t, p, l)
    ensures EndsLinked(t, FollowTask(p, a, l, view, changed)) && EndsLinked(t, Close(p, a, l, view, changed))
  {
    hide Kept, ApplyState, CommentMarker, StateFor;
    SavesLink(t, p);
    ApplyStateLinks(t, p, a, view, StateFor(a.facts));
    ApplyStateLinks(t, p, a, view, DONE_STATE);
    var following, closing := ApplyState(p, a, view, StateFor(a.facts)), ApplyState(p, a, view, DONE_STATE);
    if following.Go? {
      SavesLink(t, following.value.p);
    }
    if closing.Go? {
      SavesLink(t, closing.value.p);
    }
  }

  // ----- the pass -----

  /** Where a pass begins: rooted if it says so, and at home if it is, or carries no comment marker yet. */
  predicate Begins(t: Track, w: World, a: SyncArgs) {
    && Kept(t, w, a.record, false) && t.project == a.project && t.task == a.facts.taskId
    && (t.home ==> t.rooted || Current(a.record).commentMarker.None?)
  }

  lemma LocateLinks(t: Track, p: Pass, a: SyncArgs, issue: nat)
    requires Linking(t, p) && t.task == a.facts.taskId && Begins(t, p.w, a) && p.record == a.record
    ensures match Locate(p, a, issue)
            case Halt(r) => EndsLinked(t, r)
            case Go(g) => Linking(t, g.p) && InHand(t, g.p, g.lifecycle)
  {
    hide Kept, Evolve, HasLinkMarker, WorkBeneath;
    var (w1, read) := ReadIssue(p.w, issue);
    var p1 := p.(w := w1);
    MovesOn(t, p, w1);
    SavesLink(t, p1);
    if read.Some? && Current(p1.record).scope.Adopted? {
      BeneathLinks(t, p1, a, Current(p1.record), read.value);
    }
  }

  lemma RootedHolds(t: Track, p: Pass)
    requires Linking(t, p) && t.rooted
    ensures Rooted(p.record, t.project)
  {
  }

  lemma BeneathLinks(t: Track, p: Pass, a: SyncArgs, l: Lifecycle, view: IssueView)
    requires Linking(t, p) && t.task == a.facts.taskId && l == Current(p.record) && l.scope.Adopted? && t.project == a.project
    requires t.home ==> t.rooted || l.commentMarker.None?
    ensures match WorkBeneath(p, a, l, view)
            case Halt(r) => EndsLinked(t, r)
            case Go(g) => Linking(t, g.p) && InHand(t, g.p, g.lifecycle)
  {
    hide Kept, Evolve, IntendSubissue;
    SavesLink(t, p);
    if t.rooted {
      RootedHolds(t, p);
      assert l.subissue.Some? ==> l.subissue == Some(SubissuePending) || l.subissue == Some(SubissueUnconfirmed) by {
        if l.subissue.Some? {
          match l.subissue.value
          case SubissuePending =>
          case SubissueUnconfirmed =>
        }
      }
    } else if Truthy(ProjectOf(p, a)) {
      var (w1, resolution) := Resolve(p.w, ProjectOf(p, a).value);
      var p1 := p.(w := w1);
      MovesOn(t, p, w1);
      SavesLink(t, p1);
      if resolution.ResolvedTo? {
        IntendLinks(t, p1, a, l, view, resolution.target);
      }
    }
  }

  lemma IntendLinks(t: Track, p: Pass, a: SyncArgs, l: Lifecycle, view: IssueView, target: Resolved)
    requires Linking(t, p) && t.task == a.facts.taskId && !t.rooted && (t.home ==> l.commentMarker.None?)
    ensures match IntendSubissue(p, a, l, view, target)
            case Halt(r) => EndsLinked(t, r)
            case Go(g) => Linking(t, g.p) && InHand(t, g.p, g.lifecycle)
  {
    hide Kept, FileSubissue;
    SavesLink(t, p);
    FileLinks(t, Save(p, PendingSubissue(l, view)), a, l, view, target);
  }

  lemma FileLinks(t: Track, p: Pass, a: SyncArgs, l: Lifecycle, view: IssueView, target: Resolved)
    requires Linking(t, p) && t.task == a.facts.taskId && !t.rooted && (t.home ==> Current(p.record).commentMarker.None?)
    ensures match FileSubissue(p, a, l, view, target)
            case Halt(r) => EndsLinked(t, r)
            case Go(g) => Linking(t, g.p) && InHand(t, g.p, g.lifecycle)
  {
    hide Kept, Evolve, Settle, SubissueDescription, StateFor, Lower, TakeOver, OnlyAsks;
    var (w1, answer, child) := Create(p.w, a.facts, SubKey(a.facts.taskId), target, a.facts.subject,
                                      SubissueDescription(a.facts, a.marker), StateFor(a.facts), Some(view.id));
    CreateAsksOwn(p.w, a.facts, SubKey(a.facts.taskId), target, SubissueDescription(a.facts, a.marker), StateFor(a.facts), Some(view.id));
    MovesOn(t, p, w1);
    SavesLink(t, p.(w := w1));
    TakeOverLinks(t, p.(w := w1, writes := p.writes + 1), a, l, view, child);
  }

  lemma CreateAsksOwn(w: World, facts: TaskFacts, key: Key, target: Resolved, description: string, state: string, parent: Option<nat>)
    ensures var w1 := Create(w, facts, key, target, facts.subject, description, state, parent).0;
            w1.journal == w.journal && (w1.active ==> w.active) && OnlyAsks(w.asked, w1.asked, facts.taskId)
  {
    hide Evolve, Settle, Lower;
  }

  lemma TakeOverLinks(t: Track, p: Pass, a: SyncArgs, l: Lifecycle, view: IssueView, child: nat)
    requires Linking(t, p) && t.task == a.facts.taskId && !t.rooted && (t.home ==> Current(p.record).commentMarker.None?)
    ensures match TakeOver(p, a, l, view, child)
            case Halt(r) => EndsLinked(t, r)
            case Go(g) => Linking(t, g.p) && InHand(t, g.p, g.lifecycle)
  {
    hide Kept, Evolve, HasLinkMarker, SaveRecord;
    var (w1, read) := ReadIssue(p.w, child);
    var p1 := p.(w := w1);
    MovesOn(t, p, w1);
    SavesLink(t, p1);
    if read.Some? {
      ChildIsLinked(t, p1, l, view, read.value);
      SaveLinks(t, p1, ChildRecord(p1.record, l, view, read.value));
    }
  }

  lemma ChildIsLinked(t: Track, p: Pass, l: Lifecycle, view: IssueView, child: IssueView)
    requires Linking(t, p)
    ensures LinkedAs(ChildRecord(p.record, l, view, child), t.task) && ChildRecord(p.record, l, view, child).project == p.record.project
  {
  }

  lemma PassLinks(t: Track, w: World, a: SyncArgs)
    requires Begins(t, w, a)
    ensures EndsLinked(t, Sync(w, a))
  {
    hide OnlyLinks, Locate, Describe, Complete, Rooted;
    var p := Pass(w.(seen := []), a.record, false, 0);
    if a.record.issueId.Some? {
      LocateLinks(t, p, a, a.record.issueId.value);
      var located := Locate(p, a, a.record.issueId.value);
      if located.Go? {
        var g := located.value;
        DescribeLinks(t, g.p, a, g.view);
        var described := Describe(g.p, a, g.view);
        if described.Go? {
          CompleteLinks(t, described.value.p, a, g.lifecycle, described.value.view, described.value.changed);
        }
      }
    }
  }

  /** Whatever happens during a pass over a linked record, what it journals and returns is a link of its own task, and it
      asks for nothing but for its own task. */
  lemma SyncLinks(w: World, a: SyncArgs, task: string)
    requires LinkedAs(a.record, task) && a.facts.taskId == task
    ensures OnlyLinks(w.journal, Sync(w, a).w.journal, task) && LinkedAs(Sync(w, a).record, task)
    ensures OnlyAsks(w.asked, Sync(w, a).w.asked, task)
  {
    hide Sync;
    PassLinks(Track(w.journal, w.asked, a.record, false, false, a.project, task), w, a);
  }

  /** A rooted record stays on its issue. */
  lemma SyncStaysRooted(w: World, a: SyncArgs, task: string)
    requires LinkedAs(a.record, task) && a.facts.taskId == task && Rooted(a.record, a.project)
    ensures var r := Sync(w, a).record;
            Rooted(r, a.project) && SameRoots(Current(r), Current(a.record)) && r == a.record.(lifecycle := r.lifecycle)
    ensures !Sync(w, a).saved ==> Sync(w, a).record == a.record
  {
    hide Sync;
    PassLinks(Track(w.journal, w.asked, a.record, false, true, a.project, task), w, a);
  }

  /** The record cannot leave a commented issue: it is rooted, or carries no comment marker yet. */
  predicate CannotLeave(r: Record, project: Option<string>) {
    Rooted(r, project) || Current(r).commentMarker.None?
  }

  /** A pass over such a record never leaves a commented issue, a rooted record stays rooted, and what the pass returns is
      the newest record again. */
  lemma SyncStaysHome(w: World, a: SyncArgs, task: string)
    requires LinkedAs(a.record, task) && a.facts.taskId == task && task != "" && (w.active ==> Get(Replay(w.journal), task) == Some(a.record))
    requires CannotLeave(a.record, a.project)
    ensures var r := Sync(w, a);
            && FateOf(r.w.journal, task).moved == FateOf(w.journal, task).moved && (r.w.active ==> Get(Replay(r.w.journal), task) == Some(r.record))
            && (Rooted(a.record, a.project) ==>
                  Rooted(r.record, a.project) && r.record.issueId == a.record.issueId && r.record.identifier == a.record.identifier)
            && r.record.project == a.record.project && (!r.saved ==> r.record == a.record)
  {
    hide Sync, Rooted;
    PassLinks(Track(w.journal, w.asked, a.record, true, Rooted(a.record, a.project), a.project, task), w, a);
  }

  /** Without a session nothing is journaled. */
  lemma GoneJournalsNothing(w: World, a: SyncArgs)
    requires !w.active
    ensures Sync(w, a).w.journal == w.journal && !Sync(w, a).w.active
  {
    hide Locate, Describe, Complete;
  }
}

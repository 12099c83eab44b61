/** What one operation on a task without an association leads to, whatever happens at its awaits: when its create leaves,
    when it ends linked, and what the record says otherwise. */
module HojaOutcomes {
  import opened Wrappers
  import opened JsText
  import opened ManagedBlock
  import opened Markers
  import opened HojaRecords
  import opened HojaServer
  import opened HojaWorld
  import opened LifecycleSync
  import opened Publish
  import opened HojaSafety
  import opened HojaLinks

  // ----- the declared names -----

  /** The world some awaits later, when nothing is sent meanwhile. */
  function Waited(w: World, n: nat): World
    decreases n
  {
    if n == 0 then w else Waited(Await(w), n - 1)
  }

  function ProjectKey(name: string): string {
    Lower(Trim(name))
  }

  /** The server answers that there is no such project, and the session is still there to try the next name. */
  predicate FallsThrough(w: World, names: seq<string>, i: nat)
    requires i < |names|
  {
    NextTick(Waited(w, i)).reply.Done? && ProjectKey(names[i]) !in Waited(w, i + 1).server.projects && Waited(w, i + 1).active
  }

  /** This name is the first one that is a project. */
  predicate FirstProject(w: World, names: seq<string>, k: nat, target: Resolved) {
    && k < |names| && (forall i | 0 <= i < k :: FallsThrough(w, names, i))
    && NextTick(Waited(w, k)).reply.Done? && ProjectKey(names[k]) in Waited(w, k + 1).server.projects
    && target == Waited(w, k + 1).server.projects[ProjectKey(names[k])]
  }

  lemma Shifts(w: World, names: seq<string>, i: nat)
    requires i + 1 < |names|
    ensures FallsThrough(w, names, i + 1) == FallsThrough(Await(w), names[1..], i)
  {
    hide Await;
  }

  lemma FirstProjectStep(w: World, names: seq<string>, k: nat, target: Resolved)
    requires names != [] && k > 0
    ensures FirstProject(w, names, k, target) <==> FallsThrough(w, names, 0) && FirstProject(Await(w), names[1..], k - 1, target)
  {
    hide Await, ProjectKey, FallsThrough;
    if FirstProject(w, names, k, target) {
      forall i | 0 <= i < k - 1 ensures FallsThrough(Await(w), names[1..], i) {
        Shifts(w, names, i);
      }
    }
    if FallsThrough(w, names, 0) && FirstProject(Await(w), names[1..], k - 1, target) {
      forall i | 0 <= i < k ensures FallsThrough(w, names, i) {
        if i > 0 {
          Shifts(w, names, i - 1);
        }
      }
    }
  }

  /** Only an unknown project falls through to the next declared name. */
  lemma {:induction false} ResolvesIff(w: World, names: seq<string>)
    ensures forall k: nat, target | FirstProject(w, names, k, target) :: ResolveFirst(w, names) == (Waited(w, k + 1), Selected(target))
    ensures ResolveFirst(w, names).1.Selected? ==> exists k: nat :: FirstProject(w, names, k, ResolveFirst(w, names).1.target)
    ensures ResolveFirst(w, names).1.SessionGone? ==> !ResolveFirst(w, names).0.active
    ensures var v := ResolveFirst(w, names).0; v.asked == w.asked && v.journal == w.journal && (v.active ==> w.active)
    decreases |names|
  {
    if names != [] {
      hide FirstProject, Await;
      ResolvesIff(Await(w), names[1..]);
      FirstNameIff(w, names);
      forall k: nat, target | FirstProject(w, names, k, target) ensures ResolveFirst(w, names) == (Waited(w, k + 1), Selected(target)) {
        if k > 0 {
          FirstProjectStep(w, names, k, target);
        }
      }
      var selection := ResolveFirst(w, names).1;
      if selection.Selected? && FallsThrough(w, names, 0) {
        var k: nat :| FirstProject(Await(w), names[1..], k, selection.target);
        FirstProjectStep(w, names, k + 1, selection.target);
      }
    } else {
      NoNames(w);
    }
  }

  lemma NoNames(w: World)
    ensures forall k: nat, target :: !FirstProject(w, [], k, target)
  {
  }

  lemma FirstNameIff(w: World, names: seq<string>)
    requires names != []
    ensures var (w1, resolution) := Resolve(w, names[0]);
            && w1 == Await(w) && w1 == Waited(w, 1) && w1.asked == w.asked && w1.journal == w.journal && (w1.active ==> w.active)
            && (forall target :: FirstProject(w, names, 0, target) <==> resolution == ResolvedTo(target))
            && (FallsThrough(w, names, 0) <==> resolution.Unknown? && w1.active)
  {
    hide Evolve;
    assert Waited(w, 1) == Waited(Await(w), 0);
  }

  // ----- filing a task -----

  /** The operation is about a task that is neither linked nor unconfirmed, and names no issue. */
  predicate ToFile(b: Batch, c: Candidate) {
    b.w.active && c.kind.ToPublish? && c.meta.hojaIssue.None? && !HoldsAssociation(Get(b.applied, c.facts.taskId))
  }

  function OpeningState(facts: TaskFacts): string {
    if facts.status == "in_progress" then "In Progress" else "Todo"
  }

  predicate Offers(target: Resolved, facts: TaskFacts) {
    (if facts.status == "in_progress" then "in progress" else "todo") in target.states
  }

  function ParentRecord(b: Batch, c: Candidate): Option<Record> {
    if c.parentTaskId == Some("") || c.parentTaskId.None? then None else Get(b.applied, c.parentTaskId.value)
  }

  /** The issue of the parent task. */
  function Beneath(b: Batch, c: Candidate): Option<nat> {
    var parent := ParentRecord(b, c);
    if parent.Some? && parent.value.state == Linked then parent.value.issueId else None
  }

  /** A step of a task that has no issue of its own. */
  predicate Orphan(b: Batch, c: Candidate) {
    c.parentTaskId.Some? && c.parentTaskId.value != "" && Beneath(b, c).None?
  }

  /** The create is unconfirmed, and the record knows everything it takes to find it again. */
  predicate InDoubt(d: Option<Record>, c: Candidate, ctx: Context, target: Resolved, parent: Option<nat>, reason: Reason) {
    && d.Some? && d.value.taskId == c.facts.taskId && d.value.state == Reconciling && d.value.reason == Some(reason)
    && d.value.marker == Some(TaskMarker(ctx.sessionKey, c.facts.taskId)) && d.value.project == Some(target.project)
    && d.value.projectId == Some(target.projectId) && d.value.expectedParent == parent && d.value.lifecycle.None?
  }

  predicate NotFiled(d: Option<Record>, c: Candidate, state: TaskState, reason: Reason, project: Option<string>) {
    && d.Some? && d.value.taskId == c.facts.taskId && d.value.state == state && d.value.reason == Some(reason) && d.value.project == project
    && d.value.issueId.None? && d.value.marker.None? && d.value.lifecycle.None?
  }

  /** The issue as it was created. */
  function Created(c: Candidate, ctx: Context, target: Resolved, parent: Option<nat>, name: string): Issue {
    Issue(name, RootDescription(c, ctx), OpeningState(c.facts), target.teamId, target.projectId, parent, RootKey(c.facts.taskId))
  }

  /** A moment later the new issue can be read, with the task's exact marker line, in its project and beneath its parent. */
  predicate ReadsBack(w: World, c: Candidate, ctx: Context, target: Resolved, parent: Option<nat>, i: nat) {
    var s := Await(w).server;
    && NextTick(w).reply.Done? && i < |s.issues| && HasLine(s.issues[i].description, "Link marker: " + TaskMarker(ctx.sessionKey, c.facts.taskId))
    && (target.projectId != "" ==> s.issues[i].projectId == target.projectId) && s.issues[i].parent == parent
  }

  /** What is recorded of a new issue; a pass over it changes nothing but the lifecycle. */
  predicate LinksTo(r: Record, c: Candidate, target: Resolved, above: Option<Record>, s: Server, i: nat)
    requires i < |s.issues|
  {
    var parent := s.issues[i].parent;
    && r.taskId == c.facts.taskId && r.state == Linked && r.issueId == Some(i) && r.identifier == Some(s.issues[i].identifier)
    && r.project == Some(target.project) && r.projectId.None? && r.expectedParent.None? && r.marker.None? && r.reason.None?
    && Current(r).scope == Owned
    && r.parentIdentifier == NonEmptyName(if parent.Some? && parent.value < |s.issues| then Some(s.issues[parent.value].identifier)
                                          else if above.Some? then above.value.identifier else None)
    && r.substitutedFrom == (if c.meta.hojaProject.Some? && Trim(c.meta.hojaProject.value) != ""
                                && Lower(Trim(target.project)) != Lower(Trim(c.meta.hojaProject.value))
                             then Some(Trim(c.meta.hojaProject.value)) else None)
  }

  function NonEmptyName(o: Option<string>): Option<string> {
    match o
    case None => None
    case Some(name) => if name == "" then None else o
  }

  /** From the request on. `w` is the world in which it leaves. */
  predicate CreateEnds(w: World, b: Batch, c: Candidate, ctx: Context, target: Resolved, g: Progress) {
    var parent, t, d := Beneath(b, c), NextTick(w), Get(g.batch.applied, c.facts.taskId);
    && |w.asked| < |g.batch.w.asked| && w.asked == g.batch.w.asked[..|w.asked|]
    && (var q := g.batch.w.asked[|w.asked|];
        && q.request == CreateIssue(target, c.facts.subject, RootDescription(c, ctx), OpeningState(c.facts), parent)
        && q.key == RootKey(c.facts.taskId))
    && match t.reply
       case Rejected => g.More? && NotFiled(d, c, Failed, CreateFailed, Some(target.project))
       case Lost(_) => g.More? && InDoubt(d, c, ctx, target, parent, AmbiguousWrite)
       case Done =>
         var w1, i := SendRoot(w, c, ctx, target, parent).0, |Await(w).server.issues|;
         && w1.server == Await(w).server.(issues := Await(w).server.issues + [Created(c, ctx, target, parent, t.name)])
         && if !w1.active then g.Stopped? && InDoubt(d, c, ctx, target, parent, WriteInFlight)
            else if ReadsBack(w1, c, ctx, target, parent, i) then d.Some? && LinksTo(d.value, c, target, ParentRecord(b, c), Await(w1).server, i)
            else g.More? && d.Some? && d.value.issueId == Some(i) && d.value.identifier == Some(t.name)
                 && InDoubt(d, c, ctx, target, parent,
                            if NextTick(w1).reply.Done? && i < |Await(w1).server.issues| then ReadbackMismatch else ReadbackUnverified)
  }

  lemma ReadBackEnds(b: Batch, c: Candidate, ctx: Context, target: Resolved, parentIssue: Option<nat>, i: nat, above: Option<Record>)
    requires b.w.active && i < |b.w.server.issues|
    ensures var g := ReadBack(b, c, ctx, target, parentIssue, i, above);
            var d := Get(g.batch.applied, c.facts.taskId);
            && b.w.asked <= g.batch.w.asked
            && if ReadsBack(b.w, c, ctx, target, parentIssue, i)
               then d.Some? && LinksTo(d.value, c, target, above, Await(b.w).server, i)
               else && g.More? && d.Some? && d.value.issueId == Some(i) && d.value.identifier == Some(b.w.server.issues[i].identifier)
                    && InDoubt(d, c, ctx, target, parentIssue,
                               if NextTick(b.w).reply.Done? && i < |Await(b.w).server.issues| then ReadbackMismatch else ReadbackUnverified)
  {
    hide Evolve, HasLine, TaskMarker, SyncLinked, LinkRecord, ReadsBack, ReadbackMatches, LinksTo, CommentsOn;
    var (w1, read) := ReadIssue(b.w, i);
    ReadsBackIff(b.w, c, ctx, target, parentIssue, i);
    if ReadsBack(b.w, c, ctx, target, parentIssue, i) {
      var linked := LinkRecord(c, read.value, target, above);
      LinkRecordIs(c, target, above, w1.server, i);
      LinkHasTask(linked, c, target, above, w1.server, i);
      LinkedStays(SetRecord(b.(w := w1), linked), linked, c, ctx, target, above, w1.server, i);
    }
  }

  lemma LinkHasTask(r: Record, c: Candidate, target: Resolved, above: Option<Record>, s: Server, i: nat)
    requires i < |s.issues| && LinksTo(r, c, target, above, s, i)
    ensures r.taskId == c.facts.taskId
  {
  }

  lemma ReadsBackIff(w: World, c: Candidate, ctx: Context, target: Resolved, parent: Option<nat>, i: nat)
    ensures var (w1, read) := ReadIssue(w, i);
            && (ReadsBack(w, c, ctx, target, parent, i) <==>
                  read.Some? && ReadbackMatches(read.value, TaskMarker(ctx.sessionKey, c.facts.taskId), Some(target.projectId), parent))
            && (read.Some? <==> NextTick(w).reply.Done? && i < |Await(w).server.issues|)
            && w1.asked == w.asked && w1.server == Await(w).server && (read.Some? ==> read.value == ViewOf(w1.server, i))
  {
    hide Evolve, HasLine, CommentsOn;
    assert TaskMarker(ctx.sessionKey, c.facts.taskId) != "";
    hide TaskMarker;
  }

  lemma LinkRecordIs(c: Candidate, target: Resolved, above: Option<Record>, s: Server, i: nat)
    requires i < |s.issues|
    ensures LinksTo(LinkRecord(c, ViewOf(s, i), target, above), c, target, above, s, i)
  {
    hide Lower, CommentsOn;
    TrimOfNothing();
    hide Trim;
  }

  lemma TrimOfNothing()
    ensures Trim("") == ""
  {
  }

  /** The first pass leaves the link as it is, up to its lifecycle. */
  lemma LinkedStays(b: Batch, linked: Record, c: Candidate, ctx: Context, target: Resolved, above: Option<Record>, s: Server, i: nat)
    requires i < |s.issues| && LinksTo(linked, c, target, above, s, i) && Get(b.applied, c.facts.taskId) == Some(linked)
    ensures var g := SyncLinked(b, linked, c.facts, ctx);
            var d := Get(g.batch.applied, c.facts.taskId);
            b.w.asked <= g.batch.w.asked && d.Some? && LinksTo(d.value, c, target, above, s, i)
  {
    hide Sync, Lower, Trim;
    var a := ArgsFor(linked, c.facts, ctx);
    SyncStaysRooted(b.w, a, c.facts.taskId);
    SyncLinks(b.w, a, c.facts.taskId);
  }

  /** The request itself. */
  lemma RootIsSent(w: World, c: Candidate, ctx: Context, target: Resolved, parent: Option<nat>)
    requires Offers(target, c.facts)
    ensures var (w1, answer, id) := SendRoot(w, c, ctx, target, parent);
            && answer == AnswerOf(NextTick(w).reply) && |w1.asked| == |w.asked| + 1 && w.asked == w1.asked[..|w.asked|]
            && w1.asked[|w.asked|].request == CreateIssue(target, c.facts.subject, RootDescription(c, ctx), OpeningState(c.facts), parent)
            && w1.asked[|w.asked|].key == RootKey(c.facts.taskId) && w1.active == Await(w).active
            && (answer.Accepted? ==>
                  && id == |Await(w).server.issues|
                  && w1.server == Await(w).server.(issues := Await(w).server.issues + [Created(c, ctx, target, parent, NextTick(w).name)]))
  {
    hide Evolve, RootDescription;
    assert Lower(OpeningState(c.facts)) == if c.facts.status == "in_progress" then "in progress" else "todo";
  }

  lemma CreateRootEnds(b: Batch, c: Candidate, ctx: Context, target: Resolved, from: Batch)
    requires b.w.active && InDoubt(Get(b.applied, c.facts.taskId), c, ctx, target, Beneath(from, c), WriteInFlight) && Offers(target, c.facts)
    ensures CreateEnds(b.w, from, c, ctx, target, CreateRoot(b, c, ctx, target, Beneath(from, c), ParentRecord(from, c)))
  {
    hide Await, ReadBack, TaskMarker, RootDescription, ReadsBack, LinksTo, Beneath, ParentRecord, SendRoot, Offers;
    var parent := Beneath(from, c);
    var (w1, answer, id) := SendRoot(b.w, c, ctx, target, parent);
    RootIsSent(b.w, c, ctx, target, parent);
    if answer.Accepted? && w1.active {
      ReadBackEnds(b.(w := w1), c, ctx, target, parent, id, ParentRecord(from, c));
    }
  }

  /** The declared names: the task's own, the chat's, the repository's, each trimmed, without blanks and repetitions. */
  lemma NamesAre(c: Candidate, ctx: Context)
    ensures var own, chat, repository := Trim(c.meta.hojaProject.GetOr("")), Trim(ctx.project.GetOr("")), Trim(ctx.fallbackProject.GetOr(""));
            ProjectNames(c, ctx) == (if own == "" then [] else [own]) + (if chat == "" || chat == own then [] else [chat])
                                    + (if repository == "" || repository == own || repository == chat then [] else [repository])
  {
    hide Trim;
  }

  /** The intent as it is journaled, and the world in which the create leaves. */
  function Leaving(b: Batch, c: Candidate, ctx: Context, k: nat, target: Resolved): World {
    Journal(Waited(b.w, k + 1), Intent(c.facts.taskId, WriteInFlight, TaskMarker(ctx.sessionKey, c.facts.taskId), target, Beneath(b, c)))
  }

  /** An operation on a task without an association, once a declared name has led to a project. */
  predicate Filing(b: Batch, c: Candidate, ctx: Context, k: nat, target: Resolved, g: Progress) {
    var w, d := Leaving(b, c, ctx, k, target), Get(g.batch.applied, c.facts.taskId);
    if !Offers(target, c.facts) then g.More? && g.batch.w.asked == b.w.asked && NotFiled(d, c, Skipped, StateUnavailable, Some(target.project))
    else if Orphan(b, c) then g.More? && g.batch.w.asked == b.w.asked && NotFiled(d, c, Skipped, ParentUnpublished, Some(target.project))
    else if !w.active then g.Stopped? && g.batch.w.asked == b.w.asked && InDoubt(d, c, ctx, target, Beneath(b, c), WriteInFlight)
    else w.asked == b.w.asked && CreateEnds(w, b, c, ctx, target, g)
  }

  lemma FilingEnds(b: Batch, c: Candidate, ctx: Context, k: nat, target: Resolved)
    requires ToFile(b, c) && FirstProject(b.w, ProjectNames(c, ctx), k, target)
    ensures Filing(b, c, ctx, k, target, PublishOne(b, c, ctx))
  {
    hide FirstProject, CreateRoot, Waited, ProjectNames, TaskMarker, CreateEnds, ResolveFirst, AdoptNamed, SyncLinked;
    ResolvesIff(b.w, ProjectNames(c, ctx));
    assert ProjectNames(c, ctx) != [] by {
      HasName(b.w, ProjectNames(c, ctx), k, target);
    }
    hide FileIn;
    var v := Waited(b.w, k + 1);
    assert PublishOne(b, c, ctx) == FileIn(b.(w := v), c, ctx, target);
    FiledIn(b, c, ctx, k, target);
  }

  lemma HasName(w: World, names: seq<string>, k: nat, target: Resolved)
    requires FirstProject(w, names, k, target)
    ensures names != []
  {
  }

  lemma FiledIn(b: Batch, c: Candidate, ctx: Context, k: nat, target: Resolved)
    requires Waited(b.w, k + 1).asked == b.w.asked
    ensures Filing(b, c, ctx, k, target, FileIn(b.(w := Waited(b.w, k + 1)), c, ctx, target))
  {
    hide CreateRoot, Waited, TaskMarker, CreateEnds;
    assert Lower(RootState(c)) == if c.facts.status == "in_progress" then "in progress" else "todo";
    hide Lower;
    var b1 := b.(w := Waited(b.w, k + 1));
    var intent := Intent(c.facts.taskId, WriteInFlight, TaskMarker(ctx.sessionKey, c.facts.taskId), target, Beneath(b, c));
    assert ParentIssue(b1, c) == Beneath(b, c) && ParentOf(b1, c) == ParentRecord(b, c);
    if Offers(target, c.facts) && !Orphan(b, c) {
      var b2 := SetRecord(b1, intent);
      assert b2.w == Leaving(b, c, ctx, k, target);
      if b2.w.active {
        CreateRootEnds(b2, c, ctx, target, b);
      }
    }
  }

  /** No declared name leads to a project. */
  lemma NothingFiled(b: Batch, c: Candidate, ctx: Context)
    requires ToFile(b, c) && forall k: nat, target :: !FirstProject(b.w, ProjectNames(c, ctx), k, target)
    ensures var g, names := PublishOne(b, c, ctx), ProjectNames(c, ctx);
            var d := Get(g.batch.applied, c.facts.taskId);
            && g.batch.w.asked == b.w.asked
            && if g.Stopped? then !g.batch.w.active && g.batch.applied == b.applied
               else if names == [] then NotFiled(d, c, Skipped, NoProject, None)
               else NotFiled(d, c, Failed, ProjectUnresolved, Some(names[0]))
                    && d.value.substitutedFrom == (if |names| > 1 && c.meta.hojaProject.Some? && Trim(c.meta.hojaProject.value) != ""
                                                   then Some(Trim(c.meta.hojaProject.value)) else None)
  {
    hide FirstProject, ProjectNames, ResolveFirst, AdoptNamed, SyncLinked, FileIn;
    ResolvesIff(b.w, ProjectNames(c, ctx));
    TrimOfNothing();
    hide Trim;
  }

  /** The create has left, was accepted, and the issue was read back and proved to be this task's. */
  predicate CreatesAndProves(b: Batch, c: Candidate, ctx: Context, k: nat, target: Resolved) {
    var w, parent := Leaving(b, c, ctx, k, target), Beneath(b, c);
    && FirstProject(b.w, ProjectNames(c, ctx), k, target) && Offers(target, c.facts) && !Orphan(b, c) && w.active && NextTick(w).reply.Done?
    && var w1 := SendRoot(w, c, ctx, target, parent).0;
       w1.active && ReadsBack(w1, c, ctx, target, parent, |Await(w).server.issues|)
  }

  /** What may be sent, and when. */
  predicate MayCreate(b: Batch, c: Candidate, ctx: Context, k: nat, target: Resolved) {
    FirstProject(b.w, ProjectNames(c, ctx), k, target) && Offers(target, c.facts) && !Orphan(b, c) && Leaving(b, c, ctx, k, target).active
  }

  /** A task without an association ends linked if and only if a declared name led to a project that offers its opening
      state, its parent has an issue when it has a parent, and the create was accepted and its read-back proved it; and a
      request leaves if and only if all that comes before the create was so. */
  lemma FiledIff(b: Batch, c: Candidate, ctx: Context)
    requires ToFile(b, c)
    ensures var g := PublishOne(b, c, ctx);
            && (IsLinked(Get(g.batch.applied, c.facts.taskId)) <==> exists k: nat, target :: CreatesAndProves(b, c, ctx, k, target))
            && (g.batch.w.asked != b.w.asked <==> exists k: nat, target :: MayCreate(b, c, ctx, k, target))
  {
    hide FirstProject, ProjectNames, PublishOne, Filing;
    if k: nat, target :| FirstProject(b.w, ProjectNames(c, ctx), k, target) {
      FilingEnds(b, c, ctx, k, target);
      FilingLinks(b, c, ctx, k, target, PublishOne(b, c, ctx));
      forall j: nat, other | FirstProject(b.w, ProjectNames(c, ctx), j, other) ensures j == k && other == target {
        FirstIsOne(b.w, ProjectNames(c, ctx), k, target, j, other);
      }
    } else {
      NothingFiled(b, c, ctx);
    }
  }

  lemma FirstIsOne(w: World, names: seq<string>, k: nat, target: Resolved, j: nat, other: Resolved)
    requires FirstProject(w, names, k, target) && FirstProject(w, names, j, other)
    ensures j == k && other == target
  {
    hide Waited, ProjectKey;
    assert j < k ==> FallsThrough(w, names, j);
    assert k < j ==> FallsThrough(w, names, k);
  }

  lemma FilingLinks(b: Batch, c: Candidate, ctx: Context, k: nat, target: Resolved, g: Progress)
    requires FirstProject(b.w, ProjectNames(c, ctx), k, target) && Filing(b, c, ctx, k, target, g)
    ensures IsLinked(Get(g.batch.applied, c.facts.taskId)) <==> CreatesAndProves(b, c, ctx, k, target)
    ensures g.batch.w.asked != b.w.asked <==> MayCreate(b, c, ctx, k, target)
  {
    hide FallsThrough, ProjectNames, ReadsBack, Leaving, SendRoot, Created, RootDescription, Beneath, ParentRecord, TaskMarker, Await;
    var w := Leaving(b, c, ctx, k, target);
    if MayCreate(b, c, ctx, k, target) {
      assert |w.asked| < |g.batch.w.asked|;
    }
  }

  // ----- the end of the session -----

  /** A batch goes on to its end only if the session was there at the beginning of every operation. */
  lemma {:induction false} GoesOnWithSession(b: Batch, cs: seq<Candidate>, ctx: Context, k: nat)
    requires k < |cs| && PublishAll(b, cs, ctx).More?
    ensures PublishAll(b, cs[..k], ctx).More? && PublishAll(b, cs[..k], ctx).batch.w.active
    decreases |cs|
  {
    hide PublishOne;
    var n := |cs| - 1;
    if k < n {
      GoesOnWithSession(b, cs[..n], ctx, k);
      assert cs[..n][..k] == cs[..k];
    } else if !PublishAll(b, cs[..n], ctx).batch.w.active {
      GoneStops(PublishAll(b, cs[..n], ctx).batch, cs[n], ctx);
    }
  }

  /** Without a session an operation does nothing at all, and the batch is over. */
  lemma GoneStops(b: Batch, c: Candidate, ctx: Context)
    requires !b.w.active
    ensures PublishOne(b, c, ctx) == Stopped(b)
  {
  }

  // ----- a linked task -----

  /** An operation on a linked task is one pass over its issue, whatever else the operation says: never a create, never
      another issue. The association follows what the pass saved, and the change is reported exactly then. */
  lemma LinkedIsSynced(b: Batch, c: Candidate, ctx: Context, linked: Record)
    requires b.w.active && Get(b.applied, c.facts.taskId) == Some(linked) && linked.state == Linked && linked.taskId == c.facts.taskId && linked.issueId.Some?
    ensures var g := PublishOne(b, c, ctx);
            var project := if linked.project.Some? then linked.project else ctx.project;
            var r := Sync(b.w, SyncArgs(linked, c.facts, TaskMarker(ctx.sessionKey, c.facts.taskId), ctx.sessionKey, project));
            && g.batch.w == r.w && (g.Stopped? <==> r.stopped) && g.batch.blocked == b.blocked
            && if r.saved && !r.stopped then g.batch.applied == b.applied[c.facts.taskId := r.record] && g.batch.changed == b.changed + [r.record]
               else g.batch.applied == b.applied && g.batch.changed == b.changed
  {
    hide Sync;
    SyncLinks(b.w, ArgsFor(linked, c.facts, ctx), c.facts.taskId);
  }

  /** An operation on an unconfirmed create that names no issue changes nothing and sends nothing: the task is reported
      as blocked, once. */
  lemma UnconfirmedIsBlocked(b: Batch, c: Candidate, ctx: Context, doubt: Record)
    requires b.w.active && c.kind.ToPublish? && c.meta.hojaIssue.None? && Get(b.applied, c.facts.taskId) == Some(doubt) && doubt.state == Reconciling
    ensures var g := PublishOne(b, c, ctx);
            && g.More? && g.batch.w == b.w && g.batch.applied == b.applied && g.batch.changed == b.changed
            && g.batch.blocked == (if exists r | r in b.blocked :: r.taskId == doubt.taskId then b.blocked else b.blocked + [doubt])
  {
  }

  // ----- naming an issue -----

  /** The operation names an issue for a task that is not linked. */
  predicate ToAdopt(b: Batch, c: Candidate) {
    b.w.active && c.kind.ToPublish? && c.meta.hojaIssue.Some? && !IsLinked(Get(b.applied, c.facts.taskId))
  }

  function WantedName(c: Candidate): string
    requires c.meta.hojaIssue.Some?
  {
    Upper(Trim(c.meta.hojaIssue.value))
  }

  /** Letters or digits, a dash, and digits. */
  predicate Shaped(s: string, team: string, number: string) {
    && s == team + "-" + number && team != "" && number != ""
    && (forall c | c in team :: 'A' <= c <= 'Z' || '0' <= c <= '9') && forall c | c in number :: '0' <= c <= '9'
  }

  ghost predicate TeamAndNumber(s: string) {
    exists team, number :: Shaped(s, team, number)
  }

  lemma IdentifierIs(s: string)
    ensures IsIdentifier(s) <==> TeamAndNumber(s)
  {
    hide IsIdentifier;
    IdentifierIsShaped(s);
    if TeamAndNumber(s) {
      var team, number :| Shaped(s, team, number);
      ShapedIsIdentifier(team, number);
    }
  }

  lemma IdentifierIsShaped(s: string)
    ensures IsIdentifier(s) ==> TeamAndNumber(s)
  {
    if IsIdentifier(s) {
      var dash := IndexOf(s, "-").value;
      IndexIsFirst(s, "-");
      var team, number := s[..dash], s[dash + 1..];
      assert s == team + "-" + number;
      assert (forall c | c in team :: UpperOrDigit(c)) && forall c | c in number :: Digit(c);
      assert Shaped(s, team, number);
    }
  }

  lemma ShapedIsIdentifier(team: string, number: string)
    requires Shaped(team + "-" + number, team, number)
    ensures IsIdentifier(team + "-" + number)
  {
    hide IndexOf;
    var s := team + "-" + number;
    DashAt(team, number);
    assert s[..|team|] == team && s[|team| + 1..] == number;
  }

  lemma DashAt(team: string, number: string)
    requires '-' !in team
    ensures IndexOf(team + "-" + number, "-") == Some(|team|)
  {
    var s := team + "-" + number;
    assert s[|team|..|team| + 1] == "-";
    forall j: nat | j < |team| ensures !At(s, "-", j) {
      assert s[j] == team[j] && team[j] in team;
      assert s[j..j + 1][0] == s[j];
    }
    IndexIs(s, "-", |team|);
  }

  /** The lookup answers with an issue, and it is the one that was named. */
  predicate FindsNamed(b: Batch, c: Candidate, i: nat)
    requires c.meta.hojaIssue.Some?
  {
    && IsIdentifier(WantedName(c)) && NextTick(b.w).reply.Done? && i == Named(b.w, WantedName(c))
    && i < |Await(b.w).server.issues| && Upper(Await(b.w).server.issues[i].identifier) == WantedName(c)
  }

  /** The record of an adopted issue. */
  function Adopts(c: Candidate, i: nat, s: Server): Record
    requires i < |s.issues|
  {
    Record(c.facts.taskId, Linked, Some(i), Some(s.issues[i].identifier), c.meta.hojaProject, None, None, None, None, None, None,
           Some(Lifecycle(Adopted, None, None, false, None, None, None)))
  }

  /** A task that is not linked ends linked by naming an issue if and only if the name is an identifier, the lookup
      answers, and with an issue of exactly that identifier; that issue is then recorded as somebody else's before
      anything else happens. Otherwise nothing is requested and the record says why. */
  lemma AdoptedIff(b: Batch, c: Candidate, ctx: Context)
    requires ToAdopt(b, c)
    ensures var g, i, w1 := PublishOne(b, c, ctx), Named(b.w, WantedName(c)), Await(b.w);
            var d := Get(g.batch.applied, c.facts.taskId);
            && (IsLinked(d) <==> FindsNamed(b, c, i))
            && (FindsNamed(b, c, i) ==>
                  && b.changed + [Adopts(c, i, w1.server)] <= g.batch.changed
                  && (g.More? ==> g.batch.changed == b.changed + [Adopts(c, i, w1.server), d.value])
                  && (w1.active ==> w1.journal + [Link(Adopts(c, i, w1.server))] <= g.batch.w.journal))
            && (!FindsNamed(b, c, i) ==>
                  && g.More? && g.batch.w.asked == b.w.asked
                  && if !IsIdentifier(WantedName(c)) then NotFiled(d, c, Skipped, InvalidHojaIssue, None)
                     else NotFiled(d, c, Failed, if !NextTick(b.w).reply.Done? then LookupFailed
                                                 else if i >= |w1.server.issues| then IssueNotFound else IdentifierMismatch, None)
                          && d.value.identifier == Some(WantedName(c)))
  {
    hide Sync, IsIdentifier, Upper, Trim, FileNew, SyncLinked, Evolve;
    var i, w1 := Named(b.w, WantedName(c)), Await(b.w);
    if FindsNamed(b, c, i) {
      var adopted := AdoptedRecord(c, i, w1.server.issues[i].identifier);
      SyncLinks(SetRecord(b.(w := w1), adopted).w, ArgsFor(adopted, c.facts, ctx), c.facts.taskId);
    }
  }
}

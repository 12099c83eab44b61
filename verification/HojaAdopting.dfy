/** From somebody else's issue to truthful work beneath it: what naming an issue achieves when nothing goes wrong. */
module HojaAdopting {
  import opened Wrappers
  import opened JsText
  import opened ManagedBlock
  import opened Markers
  import opened HojaRecords
  import opened HojaServer
  import opened HojaWorld
  import opened LifecycleSync
  import opened Publish
  import opened HojaConvergence
  import opened HojaOutcomes

  // ----- the description of a sub-issue -----

  /** A sub-issue's description down to its marker line. */
  function SubissueHead(facts: TaskFacts, marker: string): string {
    (if facts.description.Some? && facts.description.value != "" then facts.description.value + "\n\n" else "") + "Link marker: " + marker
  }

  lemma SubissueIsHeadAndSection(facts: TaskFacts, marker: string)
    requires ManagedSection(facts) != ""
    ensures SubissueDescription(facts, marker) == SubissueHead(facts, marker) + "\n\n" + ManagedSection(facts)
  {
    hide ManagedSection;
    var body, line, section := facts.description.GetOr(""), LinkLine(marker), ManagedSection(facts);
    assert [body, line, section] == [body] + ([line] + ([section] + []));
    NonEmptyCons(body, [line] + ([section] + []));
    NonEmptyCons(line, [section] + []);
    NonEmptyCons(section, []);
    JoinTwo(line, section);
    assert NonEmpty([body, line, section]) == (if body == "" then [] else [body]) + [line, section];
    if body == "" {
      assert NonEmpty([body, line, section]) == [line, section];
      assert SubissueHead(facts, marker) == line;
    } else {
      assert SubissueHead(facts, marker) == body + "\n\n" + line;
      assert NonEmpty([body, line, section]) == [body, line, section];
      JoinThree(body, line, section);
    }
  }

  lemma JoinThree(a: string, b: string, c: string)
    ensures Join([a, b, c], "\n\n") == a + "\n\n" + b + "\n\n" + c
  {
    assert [a, b, c][1..] == [b, c];
    JoinTwo(b, c);
    assert a + "\n\n" + (b + "\n\n" + c) == a + "\n\n" + b + "\n\n" + c;
  }

  lemma JoinTwo(a: string, b: string)
    ensures Join([a, b], "\n\n") == a + "\n\n" + b
  {
    assert [a, b][1..] == [b];
  }

  /** A sub-issue as this session files it is owned, and the section it was filed with is the one a merge would put there. */
  lemma SubissueIsOwned(facts: TaskFacts, sessionKey: string)
    requires Proper(ManagedSection(facts), MANAGED)
    requires var head := SubissueHead(facts, TaskMarker(sessionKey, facts.taskId)); !Contains(head, MANAGED.start) && !Contains(head, MANAGED.end)
    ensures var text := SubissueDescription(facts, TaskMarker(sessionKey, facts.taskId));
            OwnedOutside(text, TaskMarker(sessionKey, facts.taskId)) && MergeManagedDescription(text, ManagedSection(facts)) == text
  {
    hide ManagedSection, Proper, Contains, WellFormed, OnOwnLines, Merge, TaskMarker, Outside, HasLine, Before, After, Separator, SubissueDescription;
    var marker := TaskMarker(sessionKey, facts.taskId);
    var head, section := SubissueHead(facts, marker), ManagedSection(facts);
    ManagedIsFencing();
    SectionIsText(facts);
    SubissueIsHeadAndSection(facts, marker);
    HeadEnds(facts, sessionKey);
    HeadIsMarked(facts, sessionKey);
    MergesBehind(head, section, MANAGED);
    BeforeIsTerminated(head, LinkLine(marker), MANAGED);
    FencelessIsWellFormed(head);
    LastMergeWins(head, section, section, MANAGED);
  }

  lemma FencelessIsWellFormed(text: string)
    requires !Contains(text, MANAGED.start) && !Contains(text, MANAGED.end)
    ensures WellFormed(text, MANAGED)
  {
  }

  lemma SectionIsText(facts: TaskFacts)
    requires Proper(ManagedSection(facts), MANAGED)
    ensures ManagedSection(facts) != ""
  {
  }

  lemma HeadEnds(facts: TaskFacts, sessionKey: string)
    ensures var head := SubissueHead(facts, TaskMarker(sessionKey, facts.taskId)); head != "" && head[|head| - 1] != '\n'
  {
    var marker := TaskMarker(sessionKey, facts.taskId);
    LinkLineIsOneLine(sessionKey, facts.taskId);
    var head := SubissueHead(facts, marker);
    assert head[|head| - 1] == LinkLine(marker)[|LinkLine(marker)| - 1];
  }

  lemma HeadIsMarked(facts: TaskFacts, sessionKey: string)
    ensures HasLinkMarker(SubissueHead(facts, TaskMarker(sessionKey, facts.taskId)), TaskMarker(sessionKey, facts.taskId))
  {
    var line := LinkLine(TaskMarker(sessionKey, facts.taskId));
    LinkLineIsOneLine(sessionKey, facts.taskId);
    OneLineHasItself(line);
    if facts.description.Some? && facts.description.value != "" {
      HasLineAfterNewline(facts.description.value + "\n\n", line, line);
      assert SubissueHead(facts, TaskMarker(sessionKey, facts.taskId)) == facts.description.value + "\n\n" + line;
    } else {
      assert SubissueHead(facts, TaskMarker(sessionKey, facts.taskId)) == line;
    }
  }

  // ----- a quiet pass over somebody else's issue -----

  /** What such a pass needs: the project of the record, or of the chat, is a project of the issue's team with the states
      this task will need; no sub-issue was asked for yet and no comment is in doubt. */
  predicate SharedReady(s: Server, i: nat, a: SyncArgs, target: Resolved) {
    var project := if a.record.project.Some? then a.record.project else a.project;
    && a.record.issueId == Some(i) && i < |s.issues| && a.marker == TaskMarker(a.sessionKey, a.facts.taskId)
    && a.facts.status != "deleted" && (a.facts.status == "completed" ==> AcceptedCompletion(a.facts))
    && !HasLinkMarker(s.issues[i].description, a.marker)
    && Current(a.record).scope == Adopted && Current(a.record).subissue.None? && !Unresolved(Current(a.record))
    && Truthy(project) && Lower(Trim(project.value)) in s.projects && s.projects[Lower(Trim(project.value))] == target
    && target.teamId == s.issues[i].teamId && Lower(StateFor(a.facts)) in target.states && Lower(WantedState(a.facts)) in target.states
    && Proper(ManagedSection(a.facts), MANAGED)
    && (var head := SubissueHead(a.facts, a.marker); !Contains(head, MANAGED.start) && !Contains(head, MANAGED.end))
    && (AcceptedCompletion(a.facts) ==> Fits(a))
  }

  function Child(a: SyncArgs, i: nat, target: Resolved): Issue {
    Issue("", SubissueDescription(a.facts, a.marker), StateFor(a.facts), target.teamId, target.projectId, Some(i), SubKey(a.facts.taskId))
  }

  /** The record once the sub-issue is the task's own. */
  function Beneath(r: Record, s: Server, i: nat): Record
    requires i < |s.issues|
  {
    r.(issueId := Some(|s.issues|), identifier := Some(""), parentIdentifier := Some(s.issues[i].identifier),
       lifecycle := Some(Current(r).(scope := Owned, subissue := None, umbrella := Some(s.issues[i].identifier))))
  }

  /** How such a pass ends: the issue and everything else on the server are as they were, there is one more issue, and it is
      the task's sub-issue and tells the truth about it; so does the record. */
  predicate WorksBeneath(w: World, a: SyncArgs, i: nat, target: Resolved, r: SyncResult)
    requires i < |w.server.issues|
  {
    var s, t, n := w.server, r.w.server, |w.server.issues|;
    && !r.stopped && r.error.None? && r.saved && Quiet(r.w) && t.projects == s.projects
    && |t.issues| == n + 1 && t.issues[..n] == s.issues && s.comments <= t.comments
    && t.issues[n] == Child(a, i, target).(state := t.issues[n].state)
    && IssueTruthful(t, n, a) && RecordTruthful(r.record, a)
    && r.record == Beneath(a.record, s, i).(lifecycle := r.record.lifecycle)
    && Current(r.record).scope == Owned && Current(r.record).subissue.None?
  }

  /** The pass that is to complete the new sub-issue. */
  function Taken(w: World, a: SyncArgs, i: nat, target: Resolved): Pass
    requires i < |w.server.issues|
  {
    var s := w.server.(issues := w.server.issues + [Child(a, i, target)]);
    var pending := a.record.(lifecycle := Some(Current(a.record).(subissue := Some(SubissuePending), umbrella := Some(w.server.issues[i].identifier))));
    var intended := Journal(w.(seen := [ViewOf(w.server, i)]), pending);
    var sent := Ask(intended, a.facts, SubKey(a.facts.taskId), CreateIssue(target, a.facts.subject, SubissueDescription(a.facts, a.marker), StateFor(a.facts), Some(i)));
    Pass(Journal(sent.(server := s, seen := [ViewOf(w.server, i), ViewOf(s, |w.server.issues|)]), Beneath(a.record, w.server, i)), Beneath(a.record, w.server, i), true, 1)
  }

  lemma QuietTaking(w: World, a: SyncArgs, i: nat, target: Resolved)
    requires Quiet(w) && SharedReady(w.server, i, a, target)
    ensures var p := Taken(w, a, i, target);
            Locate(Pass(w.(seen := []), a.record, false, 0), a, i) == Go(Located(p, Current(p.record), ViewOf(p.w.server, |w.server.issues|)))
  {
    OwnSubissueIsRecognized(a.facts, a.sessionKey);
    hide HasLinkMarker, SubissueDescription, TaskMarker, CommentsOn, Lower, Trim, Proper, Contains, Fits, AcceptedCompletion, SubissueHead, ManagedSection, Replay;
    hide IntendSubissue, StateFor, WantedState;
    var view := ViewOf(w.server, i);
    var p1 := Pass(w.(seen := [view]), a.record, false, 0);
    QuietAwait(w.(seen := []));
    QuietAwait(p1.w);
    assert [] + [view] == [view];
    assert Locate(Pass(w.(seen := []), a.record, false, 0), a, i) == WorkBeneath(p1, a, Current(a.record), view);
    assert WorkBeneath(p1, a, Current(a.record), view) == IntendSubissue(p1, a, Current(a.record), view, target);
    QuietIntent(w, a, i, target);
  }

  lemma QuietIntent(w: World, a: SyncArgs, i: nat, target: Resolved)
    requires Quiet(w) && i < |w.server.issues| && target.teamId == w.server.issues[i].teamId && Lower(StateFor(a.facts)) in target.states
    requires HasLinkMarker(SubissueDescription(a.facts, a.marker), a.marker)
    ensures var p1, p, view := Pass(w.(seen := [ViewOf(w.server, i)]), a.record, false, 0), Taken(w, a, i, target), ViewOf(w.server, i);
            IntendSubissue(p1, a, Current(a.record), view, target) == Go(Located(p, Current(p.record), ViewOf(p.w.server, |w.server.issues|)))
  {
    hide HasLinkMarker, SubissueDescription, CommentsOn, Lower, Replay, StateFor, TakeOver;
    var view := ViewOf(w.server, i);
    var p2 := Save(Pass(w.(seen := [view]), a.record, false, 0), PendingSubissue(Current(a.record), view));
    var request := CreateIssue(target, a.facts.subject, SubissueDescription(a.facts, a.marker), StateFor(a.facts), Some(i));
    QuietWrite(p2.w, a.facts, SubKey(a.facts.taskId), request, LateIssue(Child(a, i, target)));
    var w3 := Ask(p2.w, a.facts, SubKey(a.facts.taskId), request).(server := w.server.(issues := w.server.issues + [Child(a, i, target)]));
    var p3 := Pass(w3, p2.record, true, 1);
    assert FileSubissue(p2, a, Current(a.record), view, target) == TakeOver(p3, a, Current(a.record), view, |w.server.issues|);
    QuietTakeOver(w, a, i, target, p3);
  }

  lemma QuietTakeOver(w: World, a: SyncArgs, i: nat, target: Resolved, p: Pass)
    requires Quiet(p.w) && i < |w.server.issues| && HasLinkMarker(SubissueDescription(a.facts, a.marker), a.marker)
    requires p.w.server == w.server.(issues := w.server.issues + [Child(a, i, target)]) && p.w.seen == [ViewOf(w.server, i)]
    requires p.record == a.record.(lifecycle := Some(Current(a.record).(subissue := Some(SubissuePending), umbrella := Some(w.server.issues[i].identifier)))) && p.saved && p.writes == 1
    requires Taken(w, a, i, target).w == Journal(p.w.(seen := p.w.seen + [ViewOf(p.w.server, |w.server.issues|)]), Beneath(a.record, w.server, i))
    ensures var q := Taken(w, a, i, target);
            TakeOver(p, a, Current(a.record), ViewOf(w.server, i), |w.server.issues|) == Go(Located(q, Current(q.record), ViewOf(p.w.server, |w.server.issues|)))
            && q.w.server == p.w.server
  {
    hide HasLinkMarker, SubissueDescription, CommentsOn, StateFor, Taken;
    QuietAwait(p.w);
    TakenIs(w, a, i, target);
  }

  lemma TakenIs(w: World, a: SyncArgs, i: nat, target: Resolved)
    requires i < |w.server.issues|
    ensures var q := Taken(w, a, i, target); q.record == Beneath(a.record, w.server, i) && q.saved && q.writes == 1
  {
  }

  /** A quiet pass over somebody else's issue leaves it as it is and files one sub-issue beneath it, which is the task's own
      from then on and tells the truth about it. */
  lemma QuietSharedPassConverges(w: World, a: SyncArgs, i: nat, target: Resolved)
    requires Quiet(w) && SharedReady(w.server, i, a, target)
    ensures WorksBeneath(w, a, i, target, Sync(w, a))
  {
    hide Complete, Describe, Locate, HasLinkMarker, SubissueDescription, Taken, SubissueHead, ManagedSection, Proper, Contains, OwnedOutside, MergeManagedDescription;
    hide Fits, AcceptedCompletion, CommentsOn, Lower, Trim, StateFor, WantedState, TaskMarker, WorksBeneath, SameState;
    var p, n := Taken(w, a, i, target), |w.server.issues|;
    QuietTaking(w, a, i, target);
    ChildIsReady(w, a, i, target);
    QuietDescribe(p, a, n);
    var d := Describe(p, a, ViewOf(p.w.server, n)).value;
    NothingToDescribe(p, a, n, d);
    QuietComplete(p, a, Current(p.record), n, false);
    assert Sync(w, a) == Complete(p, a, Current(p.record), ViewOf(p.w.server, n), false);
    EndsBeneath(w, a, i, target, Sync(w, a));
  }

  lemma ChildIsReady(w: World, a: SyncArgs, i: nat, target: Resolved)
    requires Quiet(w) && SharedReady(w.server, i, a, target)
    ensures var p, n := Taken(w, a, i, target), |w.server.issues|;
            && Quiet(p.w) && |p.w.server.issues| == n + 1 && p.w.server == w.server.(issues := w.server.issues + [Child(a, i, target)])
            && p.saved && p.record == Beneath(a.record, w.server, i)
            && OwnedOutside(p.w.server.issues[n].description, a.marker) && Proper(ManagedSection(a.facts), MANAGED)
            && MergeManagedDescription(p.w.server.issues[n].description, ManagedSection(a.facts)) == p.w.server.issues[n].description
            && !Unresolved(Current(p.record)) && Resolvable(p.w.server, n, ProjectOf(p, a), WantedState(a.facts))
  {
    hide SubissueDescription, Proper, ManagedSection, Contains, OwnedOutside, MergeManagedDescription, Fits, Lower, Trim, CommentsOn, WantedState, HasLinkMarker;
    SubissueIsOwned(a.facts, a.sessionKey);
  }

  lemma NothingToDescribe(p: Pass, a: SyncArgs, n: nat, d: Described)
    requires n < |p.w.server.issues| && Redescribed(p, a, n, d)
    requires MergeManagedDescription(p.w.server.issues[n].description, ManagedSection(a.facts)) == p.w.server.issues[n].description
    ensures d.p == p && !d.changed && d.view == ViewOf(p.w.server, n)
  {
  }

  lemma EndsBeneath(w: World, a: SyncArgs, i: nat, target: Resolved, r: SyncResult)
    requires Quiet(w) && SharedReady(w.server, i, a, target)
    requires var p := Taken(w, a, i, target);
             && p.w.server == w.server.(issues := w.server.issues + [Child(a, i, target)]) && p.saved && p.record == Beneath(a.record, w.server, i)
             && OwnedOutside(SubissueDescription(a.facts, a.marker), a.marker) && Proper(ManagedSection(a.facts), MANAGED)
             && MergeManagedDescription(SubissueDescription(a.facts, a.marker), ManagedSection(a.facts)) == SubissueDescription(a.facts, a.marker)
             && EndsTruthful(r, p.w.server, |w.server.issues|, a, p.record) && SavesWhatItChanges(r, p)
    ensures WorksBeneath(w, a, i, target, r)
  {
    hide SubissueDescription, Proper, ManagedSection, Contains, MergeManagedDescription, Fits, Lower, Trim, CommentsOn, WantedState, HasLinkMarker, SameState, Taken, StateFor;
    hide Visible, AcceptedCompletion, OwnedOutside, SubissueHead, RecordTruthful, CommentMarker;
    var n, t := |w.server.issues|, r.w.server;
    MergeStaysOwned(SubissueDescription(a.facts, a.marker), ManagedSection(a.facts), a.marker);
    assert forall j | 0 <= j < n :: (w.server.issues + [Child(a, i, target)])[j] == w.server.issues[j];
    assert t.issues[..n] == w.server.issues;
  }

  // ----- naming an issue -----

  /** The issue is the first one with the identifier that was named. */
  predicate IsNamed(s: Server, c: Candidate, i: nat)
    requires c.meta.hojaIssue.Some?
  {
    && IsIdentifier(WantedName(c)) && i < |s.issues| && Upper(s.issues[i].identifier) == WantedName(c)
    && forall j | 0 <= j < i :: Upper(s.issues[j].identifier) != WantedName(c)
  }

  /** The batch goes on with the task linked to a sub-issue beneath the named issue, and with everything else as it was. */
  ghost predicate AdoptsBeneath(b: Batch, g: Progress, c: Candidate, i: nat, target: Resolved)
    requires i < |b.w.server.issues|
  {
    var s, n, d := b.w.server, |b.w.server.issues|, Get(g.batch.applied, c.facts.taskId);
    && g.More? && Quiet(g.batch.w) && g.batch.blocked == b.blocked && (forall t | t != c.facts.taskId :: Get(g.batch.applied, t) == Get(b.applied, t))
    && |g.batch.w.server.issues| == n + 1 && g.batch.w.server.issues[..n] == s.issues && s.comments <= g.batch.w.server.comments
    && g.batch.w.server.issues[n].parent == Some(i) && g.batch.w.server.issues[n].key == SubKey(c.facts.taskId)
    && g.batch.w.server.issues[n].teamId == s.issues[i].teamId && g.batch.w.server.issues[n].projectId == target.projectId
    && IsLinked(d) && d.value.issueId == Some(n) && d.value.parentIdentifier == Some(s.issues[i].identifier) && d.value.project == c.meta.hojaProject
    && Current(d.value).scope == Owned
  }

  /** Without failures, naming an issue that another chat or a human works on leaves that issue as it is and files one
      sub-issue beneath it: linked, owned, and truthful about the task. */
  lemma QuietAdoptionConverges(b: Batch, c: Candidate, ctx: Context, i: nat, target: Resolved)
    requires Quiet(b.w) && ToAdopt(b, c) && IsNamed(b.w.server, c, i)
    requires SharedReady(b.w.server, i, ArgsFor(Adopts(c, i, b.w.server), c.facts, ctx), target)
    ensures var g, a := PublishOne(b, c, ctx), ArgsFor(Adopts(c, i, b.w.server), c.facts, ctx);
            && AdoptsBeneath(b, g, c, i, target)
            && IssueTruthful(g.batch.w.server, |b.w.server.issues|, a) && RecordTruthful(g.batch.applied[c.facts.taskId], a)
  {
    hide Sync, SharedReady, WorksBeneath, IsIdentifier, Upper, Trim, FileNew, SyncLinked, IssueTruthful, RecordTruthful, FirstNamed;
    QuietAwait(b.w);
    NamedIsFirst(b.w, c, i);
    var adopted := Adopts(c, i, b.w.server);
    var b2, a := SetRecord(b, adopted), ArgsFor(adopted, c.facts, ctx);
    QuietSharedPassConverges(b2.w, a, i, target);
    BeneathMeans(b2.w, a, i, target, Sync(b2.w, a));
    SharedTeam(b.w.server, i, a, target);
  }

  lemma NamedIsFirst(w: World, c: Candidate, i: nat)
    requires Quiet(w) && c.meta.hojaIssue.Some? && IsNamed(w.server, c, i)
    ensures Named(w, WantedName(c)) == i
  {
    hide Upper, Trim, IsIdentifier;
    var j := FirstNamed(w.server.issues, WantedName(c));
  }

  lemma SharedTeam(s: Server, i: nat, a: SyncArgs, target: Resolved)
    requires SharedReady(s, i, a, target)
    ensures i < |s.issues| && target.teamId == s.issues[i].teamId
  {
  }

  lemma BeneathMeans(w: World, a: SyncArgs, i: nat, target: Resolved, r: SyncResult)
    requires i < |w.server.issues| && WorksBeneath(w, a, i, target, r)
    ensures var n, t := |w.server.issues|, r.w.server;
            && !r.stopped && Quiet(r.w) && |t.issues| == n + 1 && t.issues[..n] == w.server.issues && w.server.comments <= t.comments
            && t.issues[n].parent == Some(i) && t.issues[n].key == SubKey(a.facts.taskId) && t.issues[n].teamId == target.teamId && t.issues[n].projectId == target.projectId
            && IssueTruthful(t, n, a) && RecordTruthful(r.record, a) && Current(r.record).scope == Owned
            && r.record == Beneath(a.record, w.server, i).(lifecycle := r.record.lifecycle)
  {
  }
}

/** The protocol step by step, as the source runs it: one object holds the session's world and the variables the source
    reassigns. Each method is proved equal to the function of the same name, so every theorem about the functions holds
    of these steps. */
module HojaSession {
  import opened Wrappers
  import opened JsText
  import opened ManagedBlock
  import opened Markers
  import opened HojaRecords
  import opened HojaServer
  import opened HojaWorld
  import L = LifecycleSync

  /** `syncTask` and its closure variables `record`, `writes`; `saved` says the record was replaced. */
  class SyncPass {
    var world: World
    var record: Record
    var saved: bool
    var writes: nat

    constructor (w: World, r: Record)
      ensures State() == L.Pass(w.(seen := []), r, false, 0)
    {
      world := w.(seen := []);
      record, saved, writes := r, false, 0;
    }

    function State(): L.Pass
      reads this
    {
      L.Pass(world, record, saved, writes)
    }

    // ----- the awaits -----

    method ReadIssue(id: nat) returns (view: Option<IssueView>)
      modifies this`world
      ensures (world, view) == HojaWorld.ReadIssue(old(world), id)
    {
      var tick := NextTick(world);
      world := Await(world);
      if tick.reply.Done? && id < |world.server.issues| {
        view := Some(ViewOf(world.server, id));
        world := world.(seen := world.seen + [view.value]);
      } else {
        view := None;
      }
    }

    method Resolve(project: string) returns (resolution: Resolution)
      modifies this`world
      ensures (world, resolution) == HojaWorld.Resolve(old(world), project)
    {
      var tick, name := NextTick(world), Lower(Trim(project));
      world := Await(world);
      if !tick.reply.Done? {
        resolution := ResolveFailed;
      } else if name in world.server.projects {
        resolution := ResolvedTo(world.server.projects[name]);
      } else {
        resolution := Unknown;
      }
    }

    // ----- saving -----

    method SaveRecord(r: Record)
      modifies this
      ensures State() == L.SaveRecord(old(State()), r)
    {
      record, saved := r, true;
      if world.active {
        world := world.(journal := world.journal + [Link(record)]);
      }
    }

    method Save(l: Lifecycle)
      modifies this
      ensures State() == L.Save(old(State()), l)
    {
      SaveRecord(record.(lifecycle := Some(l)));
    }

    method Fail(reason: SyncError) returns (end: L.SyncResult)
      modifies this
      ensures end == L.Fail(old(State()), reason) && world == end.w
    {
      Save(Current(record).(error := Some(reason)));
      end := L.Finish(State(), Some(reason));
    }

    // ----- 1. the managed block -----

    method Describe(a: L.SyncArgs, before: IssueView) returns (end: Option<L.SyncResult>, view: IssueView, changed: bool)
      modifies this
      ensures match L.Describe(old(State()), a, before)
              case Halt(r) => end == Some(r)
              case Go(d) => end == None && State() == d.p && view == d.view && changed == d.changed
    {
      view, changed := before, false;
      var section := ManagedSection(a.facts);
      var desired := MergeManagedDescription(view.description, section);
      if desired != view.description {
        if !world.active {
          return Some(L.Stop(State())), view, changed;
        }
        var (w1, answer) := WriteDescription(world, a.facts, view.id, desired);
        world := w1;
        if !answer.Accepted? {
          var failed := Fail(if answer.Ambiguous? then DescriptionAmbiguous else DescriptionFailed);
          return Some(failed), view, changed;
        }
        writes := writes + 1;
        if !world.active {
          return Some(L.Stop(State())), view, changed;
        }
        var check := ReadIssue(view.id);
        if check.None? || check.value.description != desired || !Contains(check.value.description, section) {
          var failed := Fail(DescriptionUnverified);
          return Some(failed), view, changed;
        }
        view, changed := check.value, true;
      }
      end := None;
    }

    // ----- 2. the workflow state -----

    method ApplyState(a: L.SyncArgs, before: IssueView, target: string) returns (end: Option<L.SyncResult>, view: IssueView, stateChanged: bool)
      modifies this
      ensures match L.ApplyState(old(State()), a, before, target)
              case Halt(r) => end == Some(r)
              case Go(d) => end == None && State() == d.p && view == d.view && stateChanged == d.changed
    {
      view, stateChanged, end := before, false, None;
      if L.SameState(view.state, target) {
        return;
      }
      var project := L.ProjectOf(State(), a);
      if !Truthy(project) {
        var failed := Fail(StateProjectUnknown);
        return Some(failed), view, stateChanged;
      }
      if !world.active {
        return Some(L.Stop(State())), view, stateChanged;
      }
      var resolution := Resolve(project.value);
      if !resolution.ResolvedTo? {
        var failed := Fail(StateUnresolved);
        return Some(failed), view, stateChanged;
      }
      if resolution.target.teamId != view.teamId || resolution.target.projectId != view.projectId {
        var failed := Fail(StateTargetMismatch);
        return Some(failed), view, stateChanged;
      }
      if !world.active {
        return Some(L.Stop(State())), view, stateChanged;
      }
      end, view, stateChanged := MoveState(a, view, resolution.target, target);
    }

    method MoveState(a: L.SyncArgs, before: IssueView, resolved: Resolved, target: string)
      returns (end: Option<L.SyncResult>, view: IssueView, stateChanged: bool)
      modifies this
      ensures match L.MoveState(old(State()), a, before, resolved, target)
              case Halt(r) => end == Some(r)
              case Go(d) => end == None && State() == d.p && view == d.view && stateChanged == d.changed
    {
      view, stateChanged, end := before, false, None;
      var (w1, answer) := WriteState(world, a.facts, view.id, resolved, target);
      world := w1;
      if !answer.Accepted? {
        var failed := Fail(if answer.Ambiguous? then StateAmbiguous else StateFailed);
        return Some(failed), view, stateChanged;
      }
      writes := writes + 1;
      if !world.active {
        return Some(L.Stop(State())), view, stateChanged;
      }
      var after := ReadIssue(view.id);
      if after.None? || !L.SameState(after.value.state, target) {
        var failed := Fail(StateUnverified);
        return Some(failed), view, stateChanged;
      }
      view, stateChanged := after.value, true;
    }

    // ----- 0. ownership, or a sub-issue beneath a shared issue -----

    method Unconfirmed(error: SyncError) returns (end: L.SyncResult)
      modifies this
      ensures end == L.Unconfirmed(old(State()), error) && world == end.w
    {
      Save(Current(record).(subissue := Some(SubissueUnconfirmed), error := Some(error)));
      end := L.Finish(State(), Some(error));
    }

    method WorkBeneath(a: L.SyncArgs, lifecycle0: Lifecycle, shared: IssueView) returns (end: Option<L.SyncResult>, lifecycle: Lifecycle, view: IssueView)
      modifies this
      ensures match L.WorkBeneath(old(State()), a, lifecycle0, shared)
              case Halt(r) => end == Some(r)
              case Go(g) => end == None && State() == g.p && lifecycle == g.lifecycle && view == g.view
    {
      end, lifecycle, view := None, lifecycle0, shared;
      if lifecycle.subissue == Some(SubissuePending) || lifecycle.subissue == Some(SubissueUnconfirmed) {
        var failed := Fail(if lifecycle.subissue == Some(SubissuePending) then SubissueStillPending else SubissueStillUnconfirmed);
        return Some(failed), lifecycle, view;
      }
      var project := L.ProjectOf(State(), a);
      if !Truthy(project) {
        var failed := Fail(SharedUnowned);
        return Some(failed), lifecycle, view;
      }
      if !world.active {
        return Some(L.Stop(State())), lifecycle, view;
      }
      var resolution := Resolve(project.value);
      if !resolution.ResolvedTo? {
        var failed := Fail(SharedProjectUnresolved);
        return Some(failed), lifecycle, view;
      }
      if resolution.target.teamId != view.teamId {
        var failed := Fail(SharedTargetMismatch);
        return Some(failed), lifecycle, view;
      }
      Save(L.PendingSubissue(lifecycle, view));
      if !world.active {
        return Some(L.Stop(State())), lifecycle, view;
      }
      end, lifecycle, view := FileSubissue(a, lifecycle, view, resolution.target);
    }

    method FileSubissue(a: L.SyncArgs, lifecycle0: Lifecycle, shared: IssueView, target: Resolved)
      returns (end: Option<L.SyncResult>, lifecycle: Lifecycle, view: IssueView)
      modifies this
      ensures match L.FileSubissue(old(State()), a, lifecycle0, shared, target)
              case Halt(r) => end == Some(r)
              case Go(g) => end == None && State() == g.p && lifecycle == g.lifecycle && view == g.view
    {
      end, lifecycle, view := None, lifecycle0, shared;
      var (w1, answer, child) := Create(world, a.facts, SubKey(a.facts.taskId), target, a.facts.subject,
                                        SubissueDescription(a.facts, a.marker), L.StateFor(a.facts), Some(view.id));
      world := w1;
      if answer.Ambiguous? {
        var doubt := Unconfirmed(SubissueAmbiguous);
        return Some(doubt), lifecycle, view;
      }
      if answer.Refused? {
        var failed := Fail(SubissueFailed);
        return Some(failed), lifecycle, view;
      }
      writes := writes + 1;
      if !world.active {
        return Some(L.Stop(State())), lifecycle, view;
      }
      var readback := ReadIssue(child);
      if readback.None? || !HasLinkMarker(readback.value.description, a.marker) || readback.value.parent != Some(view.id) {
        var doubt := Unconfirmed(SubissueUnverified);
        return Some(doubt), lifecycle, view;
      }
      lifecycle := lifecycle.(scope := Owned, subissue := None, umbrella := Some(view.identifier));
      SaveRecord(record.(issueId := Some(readback.value.id), identifier := Some(readback.value.identifier),
                         parentIdentifier := Some(view.identifier), lifecycle := Some(lifecycle)));
      view := readback.value;
    }

    // ----- 3. completion -----

    method CommentDoubt(error: SyncError) returns (end: L.SyncResult)
      modifies this
      ensures end == L.CommentDoubt(old(State()), error) && world == end.w
    {
      Save(Current(record).(comment := Some(CommentUnconfirmed), error := Some(error)));
      end := L.Finish(State(), Some(error));
    }

    method PostCompletion(a: L.SyncArgs, lifecycle0: Lifecycle, before: IssueView) returns (end: Option<L.SyncResult>, lifecycle: Lifecycle, view: IssueView)
      modifies this
      ensures match L.PostCompletion(old(State()), a, lifecycle0, before)
              case Halt(r) => end == Some(r)
              case Go(g) => end == None && State() == g.p && lifecycle == g.lifecycle && view == g.view
    {
      hide CompletionComment, L.CommentMarker, L.Visible, Await, Settle;
      end, lifecycle, view := None, lifecycle0, before;
      var marker := L.CommentMarker(a);
      Save(lifecycle.(comment := Some(CommentPending), commentMarker := Some(marker)));
      if !world.active {
        return Some(L.Stop(State())), lifecycle, view;
      }
      var (w1, answer) := Post(world, a.facts, view.id, marker, CompletionComment(a.facts, marker));
      world := w1;
      if answer.Ambiguous? {
        var doubt := CommentDoubt(CommentAmbiguous);
        return Some(doubt), lifecycle, view;
      }
      if answer.Refused? {
        Save(Current(record).(comment := Some(CommentFailed), error := Some(CommentRejected)));
        return Some(L.Finish(State(), Some(CommentRejected))), lifecycle, view;
      }
      writes := writes + 1;
      if !world.active {
        return Some(L.Stop(State())), lifecycle, view;
      }
      var check := ReadIssue(view.id);
      if check.None? || !L.Visible(check.value.comments, marker) {
        var doubt := CommentDoubt(CommentUnverified);
        return Some(doubt), lifecycle, view;
      }
      view := check.value;
      lifecycle := lifecycle.(comment := Some(CommentPosted), commentMarker := Some(marker));
      Save(lifecycle.(error := None));
    }

    method Complete(a: L.SyncArgs, lifecycle0: Lifecycle, before: IssueView, changed: bool) returns (end: L.SyncResult)
      modifies this
      ensures end == L.Complete(old(State()), a, lifecycle0, before, changed)
    {
      var lifecycle, view := lifecycle0, before;
      var marker := L.CommentMarker(a);
      if Unresolved(lifecycle) {
        if !Truthy(lifecycle.commentMarker) || !L.Visible(view.comments, lifecycle.commentMarker.value) {
          end := Fail(if lifecycle.comment == Some(CommentPending) then CommentStillPending else CommentStillUnconfirmed);
          return;
        }
        lifecycle := lifecycle.(comment := Some(CommentPosted));
        Save(lifecycle.(error := None));
      }
      var alreadyPosted := L.Visible(view.comments, marker);
      if !AcceptedCompletion(a.facts) {
        end := FollowTask(a, lifecycle, view, changed);
        return;
      }
      if !alreadyPosted {
        var ended;
        ended, lifecycle, view := PostCompletion(a, lifecycle, view);
        if ended.Some? {
          return ended.value;
        }
      }
      end := Close(a, lifecycle, view, changed);
    }

    method FollowTask(a: L.SyncArgs, lifecycle: Lifecycle, view: IssueView, changed: bool) returns (end: L.SyncResult)
      modifies this
      ensures end == L.FollowTask(old(State()), a, lifecycle, view, changed)
    {
      if a.facts.status == "completed" {
        Save(lifecycle.(error := Some(CompletionUnaccepted)));
        return L.Finish(State(), Some(CompletionUnaccepted));
      }
      var ended, _, stateChanged := ApplyState(a, view, L.StateFor(a.facts));
      if ended.Some? {
        return ended.value;
      }
      if changed || stateChanged || lifecycle.closed {
        Save(lifecycle.(closed := false, error := None));
      }
      end := L.Finish(State(), None);
    }

    method Close(a: L.SyncArgs, lifecycle: Lifecycle, view: IssueView, changed: bool) returns (end: L.SyncResult)
      modifies this
      ensures end == L.Close(old(State()), a, lifecycle, view, changed)
    {
      var marker := L.CommentMarker(a);
      var ended, _, stateChanged := ApplyState(a, view, L.DONE_STATE);
      if ended.Some? {
        return ended.value;
      }
      var alreadyClosed := lifecycle.closed && lifecycle.comment == Some(CommentPosted) && lifecycle.commentMarker == Some(marker);
      if changed || stateChanged || !alreadyClosed {
        Save(lifecycle.(comment := Some(CommentPosted), commentMarker := Some(marker), closed := true, error := None));
      }
      end := L.Finish(State(), None);
    }
  }

  /** One lifecycle pass: `syncTask`. */
  method SyncTask(w: World, a: L.SyncArgs) returns (result: L.SyncResult)
    ensures result == L.Sync(w, a)
  {
    var pass := new SyncPass(w, a.record);
    if a.record.issueId.None? || a.facts.status == "deleted" {
      return L.Finish(pass.State(), None);
    }
    if !pass.world.active {
      return L.Stop(pass.State());
    }
    var read := pass.ReadIssue(a.record.issueId.value);
    if read.None? {
      result := pass.Fail(SyncReadFailed);
      return;
    }
    var view, lifecycle := read.value, Current(pass.record);
    var ended: Option<L.SyncResult> := None;
    if !HasLinkMarker(view.description, a.marker) {
      if !lifecycle.scope.Adopted? {
        result := pass.Fail(SharedUnowned);
        return;
      }
      ended, lifecycle, view := pass.WorkBeneath(a, lifecycle, view);
      if ended.Some? {
        return ended.value;
      }
    }
    var changed;
    ended, view, changed := pass.Describe(a, view);
    if ended.Some? {
      return ended.value;
    }
    result := pass.Complete(a, lifecycle, view, changed);
  }
}

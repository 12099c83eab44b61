/** One durable fact per TaskManage task, and the session journal that holds them (extensions/hoja-mode/publish.ts).
    Timestamps are left out: records are compared without them. */
module HojaRecords {
  import opened Wrappers

  datatype TaskState = Linked | Reconciling | Skipped | Failed
  datatype Scope = Owned | Adopted
  datatype CommentPhase = CommentPending | CommentPosted | CommentUnconfirmed | CommentFailed
  datatype SubissuePhase = SubissuePending | SubissueUnconfirmed

  /** `lifecycle.error`, one name per code of the source. */
  datatype SyncError =
    | CommentAmbiguous | CommentRejected | CommentStillPending | CommentStillUnconfirmed
    | CommentUnverified | CompletionUnaccepted | DescriptionAmbiguous | DescriptionFailed
    | DescriptionUnverified | SharedProjectUnresolved | SharedTargetMismatch | SharedUnowned
    | StateAmbiguous | StateFailed | StateProjectUnknown | StateTargetMismatch
    | StateUnresolved | StateUnverified | SubissueAmbiguous | SubissueFailed
    | SubissueStillPending | SubissueStillUnconfirmed | SubissueUnverified | SyncReadFailed

  /** `record.reason`, likewise. */
  datatype Reason =
    | AmbiguousWrite | CreateFailed | IdentifierMismatch | InvalidHojaIssue
    | InvalidHojaMetadata | IssueNotFound | LookupFailed | NoProject
    | ParentUnpublished | ProjectUnresolved | ReadbackMismatch | ReadbackUnverified
    | StateUnavailable | WriteInFlight

  datatype Lifecycle = Lifecycle(
    scope: Scope,
    comment: Option<CommentPhase>,
    commentMarker: Option<string>,
    closed: bool,
    subissue: Option<SubissuePhase>,
    umbrella: Option<string>,
    error: Option<SyncError>)

  datatype Record = Record(
    taskId: string,
    state: TaskState,
    issueId: Option<nat>,
    identifier: Option<string>,
    project: Option<string>,
    projectId: Option<string>,
    parentIdentifier: Option<string>,
    expectedParent: Option<nat>,
    substitutedFrom: Option<string>,
    marker: Option<string>,
    reason: Option<Reason>,
    lifecycle: Option<Lifecycle>)

  /** A lifecycle that only says how much of the issue this session may write to. */
  function Begin(scope: Scope): Lifecycle {
    Lifecycle(scope, None, None, false, None, None, None)
  }

  function Bare(taskId: string, state: TaskState): Record {
    Record(taskId, state, None, None, None, None, None, None, None, None, None, None)
  }

  function Because(taskId: string, state: TaskState, reason: Reason): Record {
    Bare(taskId, state).(reason := Some(reason))
  }

  /** `record.lifecycle ?? { scope: "owned" }`. */
  function Current(r: Record): Lifecycle {
    r.lifecycle.GetOr(Begin(Owned))
  }

  /** The outcome of an earlier completion comment is unknown. */
  predicate Unresolved(l: Lifecycle) {
    l.comment == Some(CommentPending) || l.comment == Some(CommentUnconfirmed)
  }

  // ----- the journal -----

  /** A session entry: an association record, or something that is not one and is ignored. */
  datatype Entry = Link(record: Record) | Foreign

  type Records = map<string, Record>

  predicate Replayable(e: Entry) {
    e.Link? && e.record.taskId != ""
  }

  /** Newest record per task wins. */
  function Replay(journal: seq<Entry>): Records {
    if journal == [] then map[]
    else
      var e, before := journal[|journal| - 1], Replay(journal[..|journal| - 1]);
      if Replayable(e) then before[e.record.taskId := e.record] else before
  }

  /** Every record is filed under its own task. */
  predicate Keyed(records: Records) {
    forall t | t in records :: t != "" && records[t].taskId == t
  }

  method ReplayHojaRecords(entries: seq<Entry>) returns (records: Records)
    ensures records == Replay(entries)
  {
    records := map[];
    for i := 0 to |entries|
      invariant records == Replay(entries[..i])
    {
      assert entries[..i + 1][..i] == entries[..i];
      if !Replayable(entries[i]) {
        continue;
      }
      records := records[entries[i].record.taskId := entries[i].record];
    }
    assert entries[..|entries|] == entries;
  }

  lemma ReplayAppend(journal: seq<Entry>, r: Record)
    ensures Replay(journal + [Link(r)]) == if r.taskId != "" then Replay(journal)[r.taskId := r] else Replay(journal)
  {
    assert (journal + [Link(r)])[..|journal|] == journal;
  }

  /** What a replay yields for a task is the last record journaled for it, and is filed under that task's own name. */
  lemma {:induction false} ReplayIsNewest(journal: seq<Entry>, task: string)
    ensures match Get(Replay(journal), task)
            case None => forall i | 0 <= i < |journal| && Replayable(journal[i]) :: journal[i].record.taskId != task
            case Some(r) => r.taskId == task && exists i | 0 <= i < |journal| && journal[i] == Link(r) ::
                              forall j | i < j < |journal| && Replayable(journal[j]) :: journal[j].record.taskId != task
  {
    if journal != [] {
      var n := |journal| - 1;
      var front, e := journal[..n], journal[n];
      ReplayIsNewest(front, task);
      if Replayable(e) && e.record.taskId == task {
        assert journal[n] == Link(e.record);
      } else {
        assert Get(Replay(journal), task) == Get(Replay(front), task);
        if task in Replay(front) {
          var r := Replay(front)[task];
          var i :| 0 <= i < |front| && front[i] == Link(r) &&
                   forall j | i < j < |front| && Replayable(front[j]) :: front[j].record.taskId != task;
          forall j | i < j < |journal| && Replayable(journal[j]) ensures journal[j].record.taskId != task {
            assert j < n ==> front[j] == journal[j];
          }
          assert journal[i] == Link(r);
        }
      }
    }
  }
}

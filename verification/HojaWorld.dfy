/** One session's world: the server, the session journal, and the script of everything that happens at each await.

    A script is a sequence of ticks, one per request: what others do before the request is processed, how the request
    ends, which candidate a lookup picks, the identifier a new issue gets, and whether the session goes away meanwhile
    (mode turned off, chat switched, process killed). When the script runs out nothing more goes wrong. A theorem about every script is a theorem about every run. */
module HojaWorld {
  import opened Wrappers
  import opened JsText
  import opened ManagedBlock
  import opened HojaRecords
  import opened HojaServer

  /** `Lost` is the ambiguous failure: the write has committed, or it may commit at any later time, or never. */
  datatype Reply = Done | Rejected | Lost(committed: bool)

  datatype Tick = Tick(others: seq<EnvStep>, reply: Reply, pick: nat, name: string, ends: bool)
  const QUIET := Tick([], Done, 0, "", false)

  datatype Request =
    | CreateIssue(target: Resolved, title: string, description: string, state: string, parent: Option<nat>)
    | PostComment(issue: nat, marker: string, body: string)
    | SetDescription(issue: nat, description: string)
    | SetState(issue: nat, target: Resolved, state: string)

  /** A write request as it left the session: the task's newest journal record at that moment, every issue view read
      so far in the same lifecycle pass, and whether the session was still there. */
  datatype Audit = Audit(facts: TaskFacts, key: Key, request: Request, intent: Option<Record>, seen: seq<IssueView>, active: bool)

  datatype World = World(server: Server, journal: seq<Entry>, active: bool, script: seq<Tick>, seen: seq<IssueView>, asked: seq<Audit>)

  /** `context.journal`: durable only while the session is the one that started the work. */
  function Journal(w: World, r: Record): World {
    if w.active then w.(journal := w.journal + [Link(r)]) else w
  }

  function NextTick(w: World): Tick {
    if w.script == [] then QUIET else w.script[0]
  }

  /** The await itself: others act, and the session may end. */
  function Await(w: World): World {
    var t := NextTick(w);
    w.(server := Evolve(w.server, t.others), active := w.active && !t.ends, script := if w.script == [] then [] else w.script[1..])
  }

  // ----- reads -----

  function ReadIssue(w: World, id: nat): (World, Option<IssueView>) {
    var w1 := Await(w);
    if NextTick(w).reply.Done? && id < |w1.server.issues| then
      var view := ViewOf(w1.server, id);
      (w1.(seen := w1.seen + [view]), Some(view))
    else (w1, None)
  }

  datatype Lookup = NoAnswer | NoHit | Hit(id: nat, identifier: string)

  /** The first issue whose description contains the marker. */
  function FirstWith(issues: seq<Issue>, marker: string): (i: nat)
    ensures i <= |issues| && (i < |issues| ==> Contains(issues[i].description, marker))
    ensures forall j | 0 <= j < i :: !Contains(issues[j].description, marker)
  {
    if issues == [] || Contains(issues[0].description, marker) then 0
    else
      var i := FirstWith(issues[1..], marker);
      assert forall j | 1 <= j < i + 1 :: issues[j] == issues[1..][j - 1];
      i + 1
  }

  /** Which issue a search for a marker comes up with: one the script names, or the first, once nothing goes wrong any more. */
  function Picked(w: World, marker: string): nat {
    if w.script == [] then FirstWith(w.server.issues, marker) else w.script[0].pick
  }

  /** The server may return any issue whose description contains the marker, or miss one that does. */
  function FindByMarker(w: World, marker: string): (World, Lookup) {
    var w1, t, i := Await(w), NextTick(w), Picked(w, marker);
    (w1, if !t.reply.Done? then NoAnswer
         else if i < |w1.server.issues| && Contains(w1.server.issues[i].description, marker)
         then Hit(i, w1.server.issues[i].identifier) else NoHit)
  }

  /** The first issue with this identifier. */
  function FirstNamed(issues: seq<Issue>, wanted: string): (i: nat)
    ensures i <= |issues| && (i < |issues| ==> Upper(issues[i].identifier) == wanted)
    ensures forall j | 0 <= j < i :: Upper(issues[j].identifier) != wanted
  {
    if issues == [] || Upper(issues[0].identifier) == wanted then 0
    else
      var i := FirstNamed(issues[1..], wanted);
      assert forall j | 1 <= j < i + 1 :: issues[j] == issues[1..][j - 1];
      i + 1
  }

  /** Which issue a lookup of an identifier comes up with. */
  function Named(w: World, wanted: string): nat {
    if w.script == [] then FirstNamed(w.server.issues, wanted) else w.script[0].pick
  }

  /** The server may answer with any issue, or with none. */
  function FindByIdentifier(w: World, wanted: string): (World, Lookup) {
    var w1, t, i := Await(w), NextTick(w), Named(w, wanted);
    (w1, if !t.reply.Done? then NoAnswer
         else if i < |w1.server.issues| then Hit(i, w1.server.issues[i].identifier) else NoHit)
  }

  /** `Unknown` is the project error that lets a caller try the next declared name. */
  datatype Resolution = ResolvedTo(target: Resolved) | Unknown | ResolveFailed

  function Resolve(w: World, project: string): (World, Resolution) {
    var w1, name := Await(w), Lower(Trim(project));
    (w1, if !NextTick(w).reply.Done? then ResolveFailed
         else if name in w1.server.projects then ResolvedTo(w1.server.projects[name]) else Unknown)
  }

  // ----- writes -----

  /** How a write ends for the caller. `Refused` is definite: nothing was committed. */
  datatype Answer = Accepted | Refused | Ambiguous

  function Ask(w: World, facts: TaskFacts, key: Key, request: Request): World {
    w.(asked := w.asked + [Audit(facts, key, request, Get(Replay(w.journal), facts.taskId), w.seen, w.active)])
  }

  function Settle(s: Server, write: Late, reply: Reply): Server {
    match reply
    case Done => Commit(s, write)
    case Rejected => s
    case Lost(committed) => if committed then Commit(s, write) else s.(late := s.late + [write])
  }

  function AnswerOf(reply: Reply): Answer {
    match reply
    case Done => Accepted
    case Rejected => Refused
    case Lost(_) => Ambiguous
  }

  /** Send one write: it is asked, others act, then the server settles it. */
  function Send(w: World, facts: TaskFacts, key: Key, request: Request, write: Late): (World, Answer) {
    var w1, reply := Await(Ask(w, facts, key, request)), NextTick(w).reply;
    (w1.(server := Settle(w1.server, write, reply)), AnswerOf(reply))
  }

  function NewIssue(identifier: string, target: Resolved, description: string, state: string, parent: Option<nat>, key: Key): Issue {
    Issue(identifier, description, state, target.teamId, target.projectId, parent, key)
  }

  /** A team without the wanted state is refused before anything is sent. An accepted issue gets the next id. */
  function Create(w: World, facts: TaskFacts, key: Key, target: Resolved, title: string, description: string, state: string,
                  parent: Option<nat>): (World, Answer, nat)
  {
    if Lower(state) !in target.states then (w, Refused, 0)
    else
      var (w1, answer) := Send(w, facts, key, CreateIssue(target, title, description, state, parent),
                               LateIssue(NewIssue(NextTick(w).name, target, description, state, parent, key)));
      (w1, answer, if answer.Accepted? then |w1.server.issues| - 1 else 0)
  }

  const COMMENT_LIMIT := 20_000

  /** The client cuts a comment body before it leaves. */
  function Sent(body: string): string {
    if |body| > COMMENT_LIMIT then body[..COMMENT_LIMIT] else body
  }

  function Post(w: World, facts: TaskFacts, issue: nat, marker: string, body: string): (World, Answer) {
    var key := CommentKey(facts.taskId, issue, marker);
    Send(w, facts, key, PostComment(issue, marker, body), LateComment(Comment(issue, Sent(body), key)))
  }

  function WriteDescription(w: World, facts: TaskFacts, issue: nat, description: string): (World, Answer) {
    Send(w, facts, OtherKey, SetDescription(issue, description), LateEdit(issue, Some(description), None))
  }

  function WriteState(w: World, facts: TaskFacts, issue: nat, target: Resolved, state: string): (World, Answer) {
    if Lower(state) !in target.states then (w, Refused)
    else Send(w, facts, OtherKey, SetState(issue, target, state), LateEdit(issue, None, Some(state)))
  }
}

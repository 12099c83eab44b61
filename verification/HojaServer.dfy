/** The issue server as the protocol sees it: issues, comments, and writes whose answer was lost and which may still
    commit. Everyone else may edit, comment and file issues at any time; nobody deletes. */
module HojaServer {
  import opened Wrappers

  /** What a write of this session is for. The server never sees it; it lets us count what was committed. */
  datatype Key = RootKey(task: string) | SubKey(task: string) | CommentKey(task: string, issue: nat, marker: string) | OtherKey

  datatype Resolved = Resolved(teamId: string, projectId: string, project: string, states: set<string>)

  datatype Issue = Issue(identifier: string, description: string, state: string, teamId: string, projectId: string,
                         parent: Option<nat>, key: Key)
  datatype Comment = Comment(issue: nat, body: string, key: Key)
  datatype Late =
    | LateIssue(created: Issue)
    | LateComment(posted: Comment)
    | LateEdit(target: nat, description: Option<string>, state: Option<string>)

  /** Issue ids are positions in `issues`. */
  datatype Server = Server(issues: seq<Issue>, comments: seq<Comment>, late: seq<Late>, projects: map<string, Resolved>)

  datatype IssueView = IssueView(id: nat, identifier: string, description: string, state: string, teamId: string, projectId: string,
                                 parent: Option<nat>, parentIdentifier: Option<string>, comments: seq<string>)

  function CommentsOn(comments: seq<Comment>, issue: nat): seq<string> {
    if comments == [] then []
    else
      var last := comments[|comments| - 1];
      CommentsOn(comments[..|comments| - 1], issue) + (if last.issue == issue then [last.body] else [])
  }

  function ViewOf(s: Server, id: nat): IssueView
    requires id < |s.issues|
  {
    var i := s.issues[id];
    var parentIdentifier := if i.parent.Some? && i.parent.value < |s.issues| then Some(s.issues[i.parent.value].identifier) else None;
    IssueView(id, i.identifier, i.description, i.state, i.teamId, i.projectId, i.parent, parentIdentifier, CommentsOn(s.comments, id))
  }

  // ----- everyone else -----

  datatype EnvStep =
    | CommitLate(which: nat)
    | EditIssue(target: nat, identifier: string, description: string, state: string, teamId: string, projectId: string, parent: Option<nat>)
    | HumanComment(issue: nat, body: string)
    | HumanIssue(filed: Issue)
    | SetProject(name: string, resolved: Option<Resolved>)

  function Edit(s: Server, target: nat, description: Option<string>, state: Option<string>): Server {
    if target >= |s.issues| then s
    else
      var i := s.issues[target];
      s.(issues := s.issues[target := i.(description := description.GetOr(i.description), state := state.GetOr(i.state))])
  }

  function Commit(s: Server, write: Late): Server {
    match write
    case LateIssue(created) => s.(issues := s.issues + [created])
    case LateComment(posted) => s.(comments := s.comments + [posted])
    case LateEdit(target, description, state) => Edit(s, target, description, state)
  }

  function Apply(s: Server, step: EnvStep): Server {
    match step
    case CommitLate(which) =>
      if which >= |s.late| then s else Commit(s.(late := s.late[..which] + s.late[which + 1..]), s.late[which])
    case EditIssue(target, identifier, description, state, teamId, projectId, parent) =>
      if target >= |s.issues| then s
      else s.(issues := s.issues[target := Issue(identifier, description, state, teamId, projectId, parent, s.issues[target].key)])
    case HumanComment(issue, body) => s.(comments := s.comments + [Comment(issue, body, OtherKey)])
    case HumanIssue(filed) => s.(issues := s.issues + [filed.(key := OtherKey)])
    case SetProject(name, resolved) =>
      s.(projects := if resolved.Some? then s.projects[name := resolved.value] else s.projects - {name})
  }

  function Evolve(s: Server, steps: seq<EnvStep>): Server {
    if steps == [] then s else Apply(Evolve(s, steps[..|steps| - 1]), steps[|steps| - 1])
  }

  // ----- counting this session's writes -----

  function LateKey(l: Late): Key {
    match l
    case LateIssue(created) => created.key
    case LateComment(posted) => posted.key
    case LateEdit(_, _, _) => OtherKey
  }

  function IssueKeys(issues: seq<Issue>): seq<Key> {
    seq(|issues|, i requires 0 <= i < |issues| => issues[i].key)
  }

  function CommentKeys(comments: seq<Comment>): seq<Key> {
    seq(|comments|, i requires 0 <= i < |comments| => comments[i].key)
  }

  function LateKeys(late: seq<Late>): seq<Key> {
    seq(|late|, i requires 0 <= i < |late| => LateKey(late[i]))
  }

  /** Writes of one kind that are committed. */
  function Committed(s: Server, k: Key): nat {
    multiset(IssueKeys(s.issues))[k] + multiset(CommentKeys(s.comments))[k]
  }

  /** Writes of one kind that are committed or may still commit. */
  function Total(s: Server, k: Key): nat {
    Committed(s, k) + multiset(LateKeys(s.late))[k]
  }

  /** What can only grow, and what can only shrink, while others act: comments stay, and this session's writes are
      never multiplied. */
  ghost predicate Later(s: Server, t: Server) {
    && |s.issues| <= |t.issues|
    && s.comments <= t.comments
    && forall k: Key :: k != OtherKey ==> Total(t, k) <= Total(s, k)
  }

  lemma LateKeysRemove(late: seq<Late>, i: nat, k: Key)
    requires i < |late|
    ensures multiset(LateKeys(late))[k] == multiset(LateKeys(late[..i] + late[i + 1..]))[k] + (if LateKey(late[i]) == k then 1 else 0)
  {
    var keys := LateKeys(late);
    assert LateKeys(late[..i] + late[i + 1..]) == keys[..i] + keys[i + 1..];
    assert keys == keys[..i] + [keys[i]] + keys[i + 1..];
  }

  /** Committing a write moves it from the late ones to the committed ones. */
  lemma CommitCounts(s: Server, write: Late, k: Key)
    requires k != OtherKey
    ensures Total(Commit(s, write), k) == Total(s, k) + (if LateKey(write) == k then 1 else 0)
    ensures Committed(Commit(s, write), k) == Committed(s, k) + (if LateKey(write) == k then 1 else 0)
    ensures |s.issues| <= |Commit(s, write).issues| && s.comments <= Commit(s, write).comments
  {
    match write
    case LateIssue(created) => assert IssueKeys(s.issues + [created]) == IssueKeys(s.issues) + [created.key];
    case LateComment(posted) => assert CommentKeys(s.comments + [posted]) == CommentKeys(s.comments) + [posted.key];
    case LateEdit(target, description, state) =>
      assert IssueKeys(Edit(s, target, description, state).issues) == IssueKeys(s.issues);
  }

  lemma ApplyIsLater(s: Server, step: EnvStep)
    ensures Later(s, Apply(s, step))
  {
    if step.CommitLate? {
      LandingIsLater(s, step.which);
    } else {
      OthersAreLater(s, step);
    }
  }

  lemma LandingIsLater(s: Server, which: nat)
    ensures Later(s, Apply(s, CommitLate(which)))
  {
    if which < |s.late| {
      hide Total, Commit;
      var rest := s.(late := s.late[..which] + s.late[which + 1..]);
      CommitCounts(rest, s.late[which], RootKey(""));
      forall k: Key | k != OtherKey ensures Total(Commit(rest, s.late[which]), k) <= Total(s, k) {
        WithoutOneLate(s, which, k);
        CommitCounts(rest, s.late[which], k);
      }
    }
  }

  lemma WithoutOneLate(s: Server, which: nat, k: Key)
    requires which < |s.late|
    ensures Total(s, k) == Total(s.(late := s.late[..which] + s.late[which + 1..]), k) + (if LateKey(s.late[which]) == k then 1 else 0)
  {
    LateKeysRemove(s.late, which, k);
  }

  lemma OthersAreLater(s: Server, step: EnvStep)
    requires !step.CommitLate?
    ensures Later(s, Apply(s, step))
  {
    forall k: Key | k != OtherKey ensures Total(Apply(s, step), k) <= Total(s, k) {
      match step
      case EditIssue(_, _, _, _, _, _, _) => assert IssueKeys(Apply(s, step).issues) == IssueKeys(s.issues);
      case HumanComment(_, _) => assert CommentKeys(Apply(s, step).comments) == CommentKeys(s.comments) + [OtherKey];
      case HumanIssue(_) => assert IssueKeys(Apply(s, step).issues) == IssueKeys(s.issues) + [OtherKey];
      case SetProject(_, _) =>
    }
  }

  /** Whatever everyone else does, and whatever lost writes land meanwhile, this session's writes are conserved. */
  lemma {:induction false} EvolveIsLater(s: Server, steps: seq<EnvStep>)
    ensures Later(s, Evolve(s, steps))
  {
    if steps != [] {
      var n := |steps| - 1;
      EvolveIsLater(s, steps[..n]);
      ApplyIsLater(Evolve(s, steps[..n]), steps[n]);
    }
  }

  lemma {:induction false} CommentsStay(c: seq<Comment>, d: seq<Comment>, issue: nat)
    requires c <= d
    ensures CommentsOn(c, issue) <= CommentsOn(d, issue)
  {
    if |c| < |d| {
      CommentsStay(c, d[..|d| - 1], issue);
    } else {
      assert c == d;
    }
  }
}

/** Replaying completed turns with the hook message before its prompt (extensions/swarm-transport-parity/extension.ts). */
module HookReplay {
  import opened Wrappers

  datatype Role = User | HookSlot | Other

  /** A message: its role, and what else it is. */
  datatype Message = Message(role: Role, content: nat)

  /** The last user prompt before `n`, or -1. */
  function LastPrompt(messages: seq<Message>): (last: int)
    ensures -1 <= last < |messages| && (last >= 0 ==> messages[last].role == User)
    ensures forall i | last < i < |messages| :: messages[i].role != User
  {
    if messages == [] then -1
    else if messages[|messages| - 1].role == User then |messages| - 1
    else LastPrompt(messages[..|messages| - 1])
  }

  /** A completed turn starts here: a prompt with its hook behind it, before the latest prompt. */
  predicate PairAt(messages: seq<Message>, i: int) {
    0 <= i && i + 1 < |messages| && messages[i].role == User && messages[i + 1].role == HookSlot && i < LastPrompt(messages)
  }

  /** Where the message at `i` of the replay came from: its partner when it is half of a pair. */
  function Source(messages: seq<Message>, i: int): (j: int)
    requires 0 <= i < |messages|
    ensures 0 <= j < |messages|
  {
    if PairAt(messages, i) then i + 1 else if PairAt(messages, i - 1) then i - 1 else i
  }

  function Replayed(messages: seq<Message>): (out: seq<Message>)
    ensures |out| == |messages|
  {
    seq(|messages|, i requires 0 <= i < |messages| => messages[Source(messages, i)])
  }

  /** Pairs never overlap. */
  lemma PairsApart(messages: seq<Message>, i: int)
    ensures PairAt(messages, i) ==> 0 <= i && !PairAt(messages, i + 1)
  {
  }

  /** How a replay grows, by a pair or by a message. */
  lemma ReplayGrows(messages: seq<Message>, i: int)
    requires 0 <= i < |messages| && !PairAt(messages, i - 1)
    ensures PairAt(messages, i) ==>
      i + 2 <= |messages| && Replayed(messages)[..i + 2] == Replayed(messages)[..i] + [messages[i + 1], messages[i]]
    ensures !PairAt(messages, i) ==> Replayed(messages)[..i + 1] == Replayed(messages)[..i] + [messages[i]]
  {
    hide LastPrompt;
  }

  /** The replay up to `i`, the rest as it was. */
  ghost predicate ReplayedUpTo(messages: seq<Message>, out: seq<Message>, i: int) {
    0 <= i <= |messages| && !PairAt(messages, i - 1) && out == Replayed(messages)[..i] + messages[i..]
  }

  lemma ReplaySkips(messages: seq<Message>, out: seq<Message>, i: int)
    requires ReplayedUpTo(messages, out, i) && i < |messages| && !PairAt(messages, i)
    ensures ReplayedUpTo(messages, out, i + 1) && out[i] == messages[i]
  {
    hide PairAt, Replayed;
    ReplayGrows(messages, i);
    assert messages[i..] == [messages[i]] + messages[i + 1..];
  }

  lemma ReplaySwaps(messages: seq<Message>, out: seq<Message>, i: int)
    requires ReplayedUpTo(messages, out, i) && PairAt(messages, i)
    ensures i + 1 < |messages| == |out| && out[i] == messages[i] && out[i + 1] == messages[i + 1]
    ensures ReplayedUpTo(messages, out[i := messages[i + 1]][i + 1 := messages[i]], i + 2)
  {
    hide Replayed, LastPrompt;
    ReplayGrows(messages, i);
    Swapped(Replayed(messages)[..i], messages[i], messages[i + 1], messages[i + 2..], out);
    assert messages[i..] == [messages[i], messages[i + 1]] + messages[i + 2..];
  }

  lemma Swapped(before: seq<Message>, x: Message, y: Message, after: seq<Message>, out: seq<Message>)
    ensures var i := |before|;
            out == before + ([x, y] + after) ==> out[i] == x && out[i + 1] == y && out[i := y][i + 1 := x] == before + [y, x] + after
  {
  }

  lemma ReplayEnds(messages: seq<Message>, out: seq<Message>, i: int)
    requires ReplayedUpTo(messages, out, i) && i + 1 >= |messages|
    ensures out == Replayed(messages)
  {
    if i < |messages| {
      ReplaySkips(messages, out, i);
    }
  }

  method FindLastPrompt(messages: seq<Message>) returns (last: int)
    ensures last == LastPrompt(messages)
  {
    last := -1;
    for k := 0 to |messages|
      invariant last == LastPrompt(messages[..k])
    {
      assert messages[..k + 1][..k] == messages[..k];
      if messages[k].role == User {
        last := k;
      }
    }
    assert messages[..|messages|] == messages;
  }

  /** Two neighbours change places. */
  method Exchange(out: array<Message>, i: nat)
    requires i + 1 < out.Length
    modifies out
    ensures out[..] == old(out[..])[i := old(out[i + 1])][i + 1 := old(out[i])]
  {
    out[i], out[i + 1] := out[i + 1], out[i];
  }

  /** Swaps the halves of every completed pair in place; tells whether there was one. */
  method SwapPairs(out: array<Message>) returns (changed: bool)
    modifies out
    ensures out[..] == Replayed(old(out[..])) && (changed <==> exists i :: PairAt(old(out[..]), i))
  {
    hide Replayed, Source, ReplayedUpTo, LastPrompt, PairAt;
    ghost var messages := out[..];
    var lastPrompt := FindLastPrompt(out[..]);
    changed := false;
    ghost var pair := -1;
    var i := 0;
    ReplayBegins(messages);
    PairsInside(messages);
    while i + 1 < out.Length
      invariant 0 <= i <= |messages| == out.Length && ReplayedUpTo(messages, out[..], i)
      invariant if changed then PairAt(messages, pair) else forall k | k < i :: !PairAt(messages, k)
    {
      ghost var now := out[..];
      Untouched(messages, now, i);
      PairTest(messages, i);
      if out[i].role == User && out[i + 1].role == HookSlot && i < lastPrompt {
        ReplaySwaps(messages, now, i);
        Exchange(out, i);
        changed, pair, i := true, i, i + 2;
      } else {
        ReplaySkips(messages, now, i);
        i := i + 1;
      }
    }
    ReplayEnds(messages, out[..], i);
  }

  method ReplayHookOrder(messages: seq<Message>) returns (replayed: Option<seq<Message>>)
    ensures replayed == if exists i :: CompletedPair(messages, i) then Some(Replayed(messages)) else None
  {
    hide Replayed, PairAt, CompletedPair;
    forall i ensures PairAt(messages, i) <==> CompletedPair(messages, i) {
      PairsAreCompleted(messages, i);
    }
    var out := new Message[|messages|](i requires 0 <= i < |messages| => messages[i]);
    assert out[..] == messages;
    var changed := SwapPairs(out);
    replayed := if changed then Some(out[..]) else None;
  }

  lemma ReplayBegins(messages: seq<Message>)
    ensures ReplayedUpTo(messages, messages, 0)
  {
  }

  lemma PairTest(messages: seq<Message>, i: int)
    requires 0 <= i && i + 1 < |messages|
    ensures PairAt(messages, i) <==> messages[i].role == User && messages[i + 1].role == HookSlot && i < LastPrompt(messages)
  {
  }

  lemma PairsInside(messages: seq<Message>)
    ensures forall k :: PairAt(messages, k) ==> 0 <= k && k + 1 < |messages|
  {
  }

  lemma Untouched(messages: seq<Message>, out: seq<Message>, i: int)
    requires ReplayedUpTo(messages, out, i) && i + 1 < |messages|
    ensures |out| == |messages| && out[i] == messages[i] && out[i + 1] == messages[i + 1]
  {
    hide Replayed;
  }

  // ----- what a replay is -----

  /** A prompt, its hook message directly behind it, and a later prompt. */
  ghost predicate CompletedPair(messages: seq<Message>, i: int) {
    && 0 <= i && i + 1 < |messages| && messages[i].role == User && messages[i + 1].role == HookSlot
    && exists j :: i < j < |messages| && messages[j].role == User
  }

  lemma PairsAreCompleted(messages: seq<Message>, i: int)
    ensures PairAt(messages, i) <==> CompletedPair(messages, i)
  {
    var last := LastPrompt(messages);
    if CompletedPair(messages, i) {
      var j :| i < j < |messages| && messages[j].role == User;
      assert j <= last;
    }
  }

  /** Exactly the halves of completed pairs change places, each with the other; every other message stays where it was. */
  lemma ReplaySwapsExactlyThePairs(messages: seq<Message>, i: int)
    requires 0 <= i < |messages|
    ensures CompletedPair(messages, i) ==> Replayed(messages)[i] == messages[i + 1]
    ensures i > 0 && CompletedPair(messages, i - 1) ==> Replayed(messages)[i] == messages[i - 1]
    ensures !CompletedPair(messages, i) && !CompletedPair(messages, i - 1) ==> Replayed(messages)[i] == messages[i]
  {
    hide CompletedPair, LastPrompt;
    PairsAreCompleted(messages, i);
    PairsAreCompleted(messages, i - 1);
  }

  /** The pairs are disjoint, so swapping partners twice is doing nothing: a replay is a product of disjoint swaps. */
  lemma SourceIsInvolution(messages: seq<Message>, i: int)
    requires 0 <= i < |messages|
    ensures Source(messages, Source(messages, i)) == i
    ensures Source(messages, i) != i ==> PairAt(messages, i) || PairAt(messages, i - 1)
  {
  }

  /** Prompts keep their order, and so do hook messages: a message never passes another of its own role. */
  lemma SourceKeepsOrder(messages: seq<Message>, i: int, j: int)
    requires 0 <= i < j < |messages| && Replayed(messages)[i].role == Replayed(messages)[j].role
    ensures Source(messages, i) < Source(messages, j)
  {
  }

  /** Everything from the latest prompt on is sent as it was. */
  lemma LiveTurnIsUntouched(messages: seq<Message>)
    ensures LastPrompt(messages) >= 0 ==> Replayed(messages)[LastPrompt(messages)..] == messages[LastPrompt(messages)..]
    ensures LastPrompt(messages) < 0 ==> Replayed(messages) == messages
    ensures LastPrompt(Replayed(messages)) == LastPrompt(messages)
  {
    var last, out := LastPrompt(messages), Replayed(messages);
    if last >= 0 {
      assert !PairAt(messages, last) && !PairAt(messages, last - 1);
      assert out[last] == messages[last];
    }
  }

  /** A replay is a product of disjoint swaps of pairs: nothing is lost or invented, prompts keep their order and so do
      hook messages, and everything from the latest prompt on is sent as it was. */
  lemma ReplayIsPermutation(messages: seq<Message>)
    ensures multiset(Replayed(messages)) == multiset(messages)
    ensures forall i | 0 <= i < |messages| :: Source(messages, Source(messages, i)) == i
    ensures forall i, j | 0 <= i < j < |messages| && Replayed(messages)[i].role == Replayed(messages)[j].role :: Source(messages, i) < Source(messages, j)
    ensures LastPrompt(messages) >= 0 ==> Replayed(messages)[LastPrompt(messages)..] == messages[LastPrompt(messages)..]
  {
    hide Replayed, Source, LastPrompt;
    PrefixIsPermutation(messages, |messages|);
    assert messages[..|messages|] == messages && Replayed(messages)[..|messages|] == Replayed(messages);
    forall i | 0 <= i < |messages| ensures Source(messages, Source(messages, i)) == i {
      SourceIsInvolution(messages, i);
    }
    forall i, j | 0 <= i < j < |messages| && Replayed(messages)[i].role == Replayed(messages)[j].role ensures Source(messages, i) < Source(messages, j) {
      SourceKeepsOrder(messages, i, j);
    }
    LiveTurnIsUntouched(messages);
  }

  predicate SameMessages(a: seq<Message>, b: seq<Message>) {
    multiset(a) == multiset(b)
  }

  lemma SamePlus(a: seq<Message>, b: seq<Message>, x: Message, y: Message)
    requires SameMessages(a, b)
    ensures SameMessages(a + [x], b + [x]) && SameMessages(a + [x, y], b + [y, x])
  {
  }

  /** The messages before `n` are replayed among themselves. */
  predicate PrefixKept(messages: seq<Message>, n: int) {
    0 <= n <= |messages| && SameMessages(Replayed(messages)[..n], messages[..n])
  }

  lemma {:induction false} PrefixIsPermutation(messages: seq<Message>, n: nat)
    requires n <= |messages| && !PairAt(messages, n - 1)
    ensures PrefixKept(messages, n)
  {
    hide PrefixKept;
    PairsApart(messages, n - 2);
    PairsApart(messages, n - 3);
    if n == 0 {
      NothingKept(messages);
    } else if PairAt(messages, n - 2) {
      PrefixIsPermutation(messages, n - 2);
      PairKept(messages, n);
    } else {
      PrefixIsPermutation(messages, n - 1);
      MessageKept(messages, n);
    }
  }

  lemma NothingKept(messages: seq<Message>)
    ensures PrefixKept(messages, 0)
  {
    assert Replayed(messages)[..0] == messages[..0];
  }

  lemma PairKept(messages: seq<Message>, n: nat)
    requires 2 <= n <= |messages| && PairAt(messages, n - 2) && PrefixKept(messages, n - 2)
    ensures PrefixKept(messages, n)
  {
    hide Replayed, SameMessages;
    var x, y := messages[n - 2], messages[n - 1];
    PairsApart(messages, n - 3);
    ReplayGrows(messages, n - 2);
    SamePlus(Replayed(messages)[..n - 2], messages[..n - 2], y, x);
    assert messages[..n] == messages[..n - 2] + [x, y];
  }

  lemma MessageKept(messages: seq<Message>, n: nat)
    requires 1 <= n <= |messages| && !PairAt(messages, n - 1) && !PairAt(messages, n - 2) && PrefixKept(messages, n - 1)
    ensures PrefixKept(messages, n)
  {
    hide Replayed, SameMessages;
    var x := messages[n - 1];
    ReplayGrows(messages, n - 1);
    SamePlus(Replayed(messages)[..n - 1], messages[..n - 1], x, x);
    assert messages[..n] == messages[..n - 1] + [x];
  }
}

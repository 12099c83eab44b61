/** The annoyed tool's `execute`, step by step on the store (extensions/annoyed/extension.ts). Each call is proved to be
    a path of one invocation through `AnnoyedProtocol`, so what is proved of every interleaving holds of these steps. */
module AnnoyedTool {
  import opened Wrappers
  import opened AnnoyedStore
  import opened AnnoyedProtocol

  /** How the outside world answers one call: the judge (an error is None), the publication, the search for an earlier
      one, and whether the caller has cancelled by the time each answers. `text` is what this call uses for its
      receipt, its marker and its destination. */
  datatype World = World(judged: Option<Verdict>, judgeCancelled: bool, aborted: bool, url: Option<string>, publishAborted: bool,
                         found: Option<string>, text: string)

  datatype Ending = Returned(url: string) | Failed | Cancelled | OwnedElsewhere

  /** One invocation alone on its row: the row, its place, and how often it called publish. */
  function Solo(row: Option<Meta>, pc: Pc, hows: seq<How>): (Option<Meta>, Pc, nat)
    decreases |hows|
  {
    if hows == [] then (row, pc, 0)
    else
      var (row1, pc1, calls) := Advance(row, pc, hows[0]);
      var (row2, pc2, more) := Solo(row1, pc1, hows[1..]);
      (row2, pc2, calls + more)
  }

  lemma {:induction false} SoloSnoc(row: Option<Meta>, pc: Pc, hows: seq<How>, how: How)
    ensures var (row1, pc1, calls) := Solo(row, pc, hows);
            var (row2, pc2, more) := Advance(row1, pc1, how);
            Solo(row, pc, hows + [how]) == (row2, pc2, calls + more)
    decreases |hows|
  {
    hide Advance;
    if hows == [] {
      assert hows + [how] == [how] && [how][1..] == [];
    } else {
      var (row1, pc1, calls) := Advance(row, pc, hows[0]);
      SoloSnoc(row1, pc1, hows[1..], how);
      assert (hows + [how])[1..] == hows[1..] + [how];
    }
  }

  function ActsOf(who: nat, hows: seq<How>): seq<Act> {
    seq(|hows|, i requires 0 <= i < |hows| => Act(who, hows[i]))
  }

  /** An invocation that runs while no other moves is one of the interleavings of the protocol. */
  lemma {:induction false} SoloIsARun(s: Sys, who: nat, hows: seq<How>)
    ensures var (row, pc, calls) := Solo(s.row, PcOf(s, who), hows);
            var t := Run(s, ActsOf(who, hows));
            t.row == row && PcOf(t, who) == pc && t.published == s.published + calls
            && forall other | other != who :: PcOf(t, other) == PcOf(s, other)
    decreases |hows|
  {
    if hows != [] {
      assert ActsOf(who, hows)[0] == Act(who, hows[0]) && ActsOf(who, hows)[1..] == ActsOf(who, hows[1..]);
      SoloIsARun(Step(s, Act(who, hows[0])), who, hows[1..]);
    }
  }

  function RowOf(rows: map<string, Row>, fingerprint: string): Option<Meta> {
    if fingerprint in rows then Some(rows[fingerprint].meta) else None
  }

  ghost predicate OthersKept(before: map<string, Row>, rows: map<string, Row>, fingerprint: string) {
    forall other | other != fingerprint :: Get(rows, other) == Get(before, other)
  }

  // ----- what the caller is told -----

  /** The report has been published and its URL is known. */
  predicate Published(row: Option<Meta>) {
    row.Some? && row.value.url.Some? && row.value.url.value != ""
  }

  /** Somebody was posting the report, or could not confirm that they had, and it is known where and under which marker. */
  predicate WasPosted(row: Option<Meta>) {
    && row.Some? && !Published(row) && (row.value.status == Some(Posting) || row.value.status == Some(Unresolved))
    && row.value.destination.Some? && row.value.destination.value != "" && row.value.marker.Some? && row.value.marker.value != ""
  }

  /** The report is new, or was given back with its verdict. */
  predicate Free(row: Option<Meta>) {
    row.None? || (!Published(row) && row.value.status == Some(Ready) && row.value.verdict.Some?)
  }

  /** The judge is asked only about a new report. */
  predicate JudgeFails(first: Option<Meta>, w: World) {
    first.None? && w.judged.None?
  }

  predicate Stops(first: Option<Meta>, w: World) {
    (first.None? && w.judgeCancelled) || w.aborted
  }

  /** How the publish call ends: its URL is kept and returned; without one the report stays `posting` when the caller has
      cancelled, and is `unresolved` otherwise. */
  predicate Settles(w: World, row: Option<Meta>, ending: Ending) {
    && row.Some?
    && if w.url.Some? && w.url.value != "" then ending == Returned(w.url.value) && row.value.status == Some(Confirmed) && row.value.url == w.url
       else if w.publishAborted then ending == Cancelled && row.value.status == Some(Posting) && !Published(row)
       else ending == Failed && row.value.status == Some(Unresolved) && !Published(row)
  }

  /** What is known of a report once its posting has begun. */
  predicate Describes(row: Option<Meta>, verdict: Option<Verdict>, marker: Option<string>, w: World) {
    && row.Some? && row.value.verdict == verdict && row.value.destination == Some(w.text) && row.value.owner == Some(w.text)
    && row.value.marker == (if marker.Some? then marker else Some(w.text))
  }

  predicate GivenBack(row: Option<Meta>, published: nat) {
    published == 0 && row.Some? && row.value.status == Some(Ready) && !Published(row)
  }

  /** How a call that got the reservation ends, and what it leaves in the row. */
  predicate Answers(first: Option<Meta>, w: World, row: Option<Meta>, ending: Ending, published: nat) {
    if JudgeFails(first, w) then ending == Failed && GivenBack(row, published) && row.value.verdict == Some(FALLBACK)
    else if Stops(first, w) then ending == Cancelled && GivenBack(row, published)
    else
      && published == 1 && Settles(w, row, ending)
      && Describes(row, if first.Some? then first.value.verdict else w.judged, if first.Some? then first.value.marker else None, w)
  }

  /** How a call that found somebody else's posting ends: with its URL when the search answers, else with an error. */
  predicate Finds(first: Option<Meta>, w: World, row: Option<Meta>, ending: Ending) {
    if w.found.Some? && w.found.value != ""
    then ending == Returned(w.found.value) && first.Some? && row == Some(first.value.(status := Some(Confirmed), url := w.found))
    else ending == Failed && row == first
  }

  /** How the current await of this invocation ends. */
  function HowIt(w: World, ok: bool, aborted: bool, text: string): How {
    Proceed(ok, aborted, w.judged.GetOr(FALLBACK), text)
  }

  /** Reserve the fingerprint, and say how the protocol sees it. */
  method Reserve(store: Store, fingerprint: string, w: World) returns (meta: Meta, reserved: bool, ghost path: seq<How>)
    modifies store
    ensures Solo(RowOf(old(store.rows), fingerprint), Start, path) == (RowOf(store.rows, fingerprint), Decide(reserved, meta), 0)
    ensures fingerprint in store.rows && OthersKept(old(store.rows), store.rows, fingerprint)
    ensures var row := RowOf(old(store.rows), fingerprint);
            row.Some? && !MayReserve(row.value) ==> !reserved && meta == row.value && RowOf(store.rows, fingerprint) == row
    ensures var row := RowOf(old(store.rows), fingerprint);
            && RowOf(store.rows, fingerprint) == Some(meta) && reserved == (row.None? || MayReserve(row.value))
            && (row.None? ==> meta == Inserted(w.text)) && (row.Some? && reserved ==> meta == Taken(row.value, w.text))
  {
    ghost var first, how := RowOf(store.rows, fingerprint), HowIt(w, true, false, w.text);
    meta, reserved := store.Reserve(fingerprint, w.text);
    path := [];
    SoloSnoc(first, Start, path, how);
    path := path + [how];
    SoloSnoc(first, Start, path, how);
    path := path + [how];
    if first.Some? && reserved {
      SoloSnoc(first, Start, path, how);
      path := path + [how];
    }
  }

  /** One metadata write. */
  method Write(store: Store, fingerprint: string, patch: Meta, ghost first: Option<Meta>, ghost path: seq<How>, ghost next: Pc, ghost calls: nat)
    returns (ghost longer: seq<How>)
    requires fingerprint in store.rows && Solo(first, Start, path) == (RowOf(store.rows, fingerprint), Set(patch, next), calls)
    modifies store
    ensures Solo(first, Start, longer) == (RowOf(store.rows, fingerprint), next, calls)
    ensures fingerprint in store.rows && OthersKept(old(store.rows), store.rows, fingerprint)
    ensures RowOf(store.rows, fingerprint) == Some(MergedMetadata(old(store.rows)[fingerprint].meta, patch))
  {
    ghost var how := Proceed(true, false, FALLBACK, "");
    SoloSnoc(first, Start, path, how);
    var found := store.SetMetadata(fingerprint, patch);
    longer := path + [how];
  }

  /** Post the report behind the reservation. */
  method Post(store: Store, fingerprint: string, w: World, snap: Meta, verdict: Verdict, ghost first: Option<Meta>, ghost before: seq<How>)
    returns (ending: Ending, published: nat, ghost path: seq<How>)
    requires fingerprint in store.rows && Solo(first, Start, before) == (RowOf(store.rows, fingerprint), Choose(snap, verdict), 0)
    modifies store
    requires !Published(RowOf(store.rows, fingerprint))
    ensures Solo(first, Start, path) == (RowOf(store.rows, fingerprint), Gone, published)
    ensures OthersKept(old(store.rows), store.rows, fingerprint)
    ensures var row := RowOf(store.rows, fingerprint);
            if w.aborted then ending == Cancelled && GivenBack(row, published)
            else published == 1 && Settles(w, row, ending) && Describes(row, Some(verdict), snap.marker, w)
  {
    hide Solo;
    published, path := 0, before;
    ghost var chosen := HowIt(w, true, false, w.text);
    SoloSnoc(first, Start, path, chosen);
    path := Write(store, fingerprint, ReservedPatch(snap, verdict, w.text), first, path + [chosen], CheckAbort, 0);
    ghost var checked := HowIt(w, true, w.aborted, "");
    SoloSnoc(first, Start, path, checked);
    path := path + [checked];
    if w.aborted {
      path := Write(store, fingerprint, StatusPatch(Ready), first, path, Gone, 0);
      return Cancelled, published, path;
    }
    path := Write(store, fingerprint, StatusPatch(Posting), first, path, Publish, 0);
    SoloSnoc(first, Start, path, checked);
    path, published := path + [checked], 1;
    ending, path := Settle(store, fingerprint, w, first, path);
  }

  /** The publish call has been made: record how it ended. */
  method Settle(store: Store, fingerprint: string, w: World, ghost first: Option<Meta>, ghost before: seq<How>)
    returns (ending: Ending, ghost path: seq<How>)
    requires fingerprint in store.rows && Solo(first, Start, before) == (RowOf(store.rows, fingerprint), AwaitPublish, 1)
    requires !Published(RowOf(store.rows, fingerprint)) && store.rows[fingerprint].meta.status == Some(Posting)
    modifies store
    ensures Solo(first, Start, path) == (RowOf(store.rows, fingerprint), Gone, 1)
    ensures OthersKept(old(store.rows), store.rows, fingerprint)
    ensures Settles(w, RowOf(store.rows, fingerprint), ending)
    ensures fingerprint in store.rows && store.rows[fingerprint].meta == old(store.rows)[fingerprint].meta.(
              status := store.rows[fingerprint].meta.status, url := store.rows[fingerprint].meta.url)
  {
    hide Solo;
    ghost var answered := HowIt(w, w.url.Some?, w.publishAborted, w.url.GetOr(""));
    SoloSnoc(first, Start, before, answered);
    path := before + [answered];
    if Truthy(w.url) {
      path := Write(store, fingerprint, ConfirmedPatch(w.url.value), first, path, Gone, 1);
      ending := Returned(w.url.value);
    } else if w.publishAborted {
      ending := Cancelled;
    } else {
      path := Write(store, fingerprint, StatusPatch(Unresolved), first, path, Gone, 1);
      ending := Failed;
    }
  }

  /** Someone has posted, or was about to: look for the issue instead of posting again. */
  method Reconcile(store: Store, fingerprint: string, w: World, ghost first: Option<Meta>, ghost before: seq<How>)
    returns (ending: Ending, ghost path: seq<How>)
    requires fingerprint in store.rows && Solo(first, Start, before) == (RowOf(store.rows, fingerprint), Pc.Reconcile, 0)
    modifies store
    ensures Solo(first, Start, path) == (RowOf(store.rows, fingerprint), Gone, 0)
    ensures OthersKept(old(store.rows), store.rows, fingerprint)
    ensures Finds(RowOf(old(store.rows), fingerprint), w, RowOf(store.rows, fingerprint), ending)
  {
    hide Solo;
    ghost var answered := HowIt(w, w.found.Some?, false, w.found.GetOr(""));
    SoloSnoc(first, Start, before, answered);
    path, ending := before + [answered], Failed;
    if Truthy(w.found) {
      path := Write(store, fingerprint, ConfirmedPatch(w.found.value), first, path, Gone, 0);
      ending := Returned(w.found.value);
    }
  }

  /** The tool. Its steps are a path of the protocol from beginning to end; it calls publish at most once, and only from
      behind its own reservation. When the URL is already there it only returns it. */
  method Execute(store: Store, fingerprint: string, w: World) returns (ending: Ending, published: nat, ghost path: seq<How>)
    modifies store
    ensures Solo(RowOf(old(store.rows), fingerprint), Start, path) == (RowOf(store.rows, fingerprint), Gone, published)
    ensures OthersKept(old(store.rows), store.rows, fingerprint)
    ensures var row := RowOf(old(store.rows), fingerprint);
            row.Some? && Truthy(row.value.url) && Absorbing(row.value.status) ==>
              ending == Returned(row.value.url.value) && published == 0 && RowOf(store.rows, fingerprint) == row
    ensures forall u :: ending == Returned(u) <==> Published(RowOf(store.rows, fingerprint)) && RowOf(store.rows, fingerprint).value.url == Some(u)
    ensures Published(RowOf(old(store.rows), fingerprint)) ==>
              ending == Returned(RowOf(old(store.rows), fingerprint).value.url.value) && published == 0
    ensures WasPosted(RowOf(old(store.rows), fingerprint)) ==>
              published == 0 && Finds(RowOf(old(store.rows), fingerprint), w, RowOf(store.rows, fingerprint), ending)
    ensures Free(RowOf(old(store.rows), fingerprint)) ==>
              Answers(RowOf(old(store.rows), fingerprint), w, RowOf(store.rows, fingerprint), ending, published)
    ensures var row := RowOf(old(store.rows), fingerprint);
            && (ending == OwnedElsewhere <==> !Published(row) && !WasPosted(row) && !Free(row))
            && (ending == OwnedElsewhere ==> published == 0 && RowOf(store.rows, fingerprint) == row)
  {
    hide Solo;
    ghost var first := RowOf(store.rows, fingerprint);
    var snap, reserved;
    snap, reserved, path := Reserve(store, fingerprint, w);
    published := 0;
    ghost var how := HowIt(w, true, false, "");
    SoloSnoc(first, Start, path, how);
    path := path + [how];
    if Truthy(snap.url) {
      return Returned(snap.url.value), 0, path;
    }
    if IsPosted(snap) && Truthy(snap.destination) && Truthy(snap.marker) {
      ending, path := Reconcile(store, fingerprint, w, first, path);
      return;
    }
    if !reserved {
      return OwnedElsewhere, 0, path;
    }
    if snap.verdict.Some? {
      ending, published, path := Post(store, fingerprint, w, snap, snap.verdict.value, first, path);
      return;
    }
    path := Write(store, fingerprint, StatusPatch(Judging).(verdict := Some(FALLBACK)), first, path, Judge(snap), 0);
    ghost var judged := HowIt(w, w.judged.Some?, w.judgeCancelled, "");
    SoloSnoc(first, Start, path, judged);
    path := path + [judged];
    if w.judged.None? || w.judgeCancelled {
      path := Write(store, fingerprint, StatusPatch(Ready), first, path, Gone, 0);
      return if w.judged.None? then Failed else Cancelled, 0, path;
    }
    ending, published, path := Post(store, fingerprint, w, snap, w.judged.value, first, path);
  }
}

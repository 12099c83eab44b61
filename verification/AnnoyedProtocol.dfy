/** Any number of annoyed invocations on one fingerprint, interleaved at every store transaction and await, with aborts
    and crashes anywhere (extensions/annoyed/extension.ts). */
module AnnoyedProtocol {
  import opened Wrappers
  import opened AnnoyedStore

  /** Where an invocation is. `Set` is about to call `setMetadata`; `Merge` has read the row but not yet written it,
      which can be seen only by another process. */
  datatype Pc =
    | Start
    | Created(snap: Meta)
    | Observed(snap: Meta)
    | Won
    | Decide(reserved: bool, snap: Meta)
    | Judge(snap: Meta)
    | Choose(snap: Meta, verdict: Verdict)
    | CheckAbort
    | Publish
    | AwaitPublish
    | Reconcile
    | Set(patch: Meta, next: Pc)
    | Merge(before: Meta, patch: Meta, next: Pc)
    | Gone

  /** One scheduling choice: how the current await of the invocation ends. */
  datatype How = Proceed(ok: bool, aborted: bool, verdict: Verdict, text: string) | SplitRead | Crash

  const FALLBACK := Verdict("uncertain", "judge interrupted")

  function StatusPatch(s: Status): Meta {
    NO_META.(status := Some(s))
  }

  function ConfirmedPatch(url: string): Meta {
    StatusPatch(Confirmed).(url := Some(url))
  }

  predicate Truthy(o: Option<string>) {
    o.Some? && o.value != ""
  }

  predicate IsPosted(m: Meta) {
    m.status == Some(Posting) || m.status == Some(Unresolved)
  }

  /** The branch taken on the reservation's result. */
  function Branch(reserved: bool, snap: Meta): Pc {
    if Truthy(snap.url) then Gone
    else if IsPosted(snap) && Truthy(snap.destination) && Truthy(snap.marker) then Reconcile
    else if !reserved then Gone
    else if snap.verdict.None? then Set(StatusPatch(Judging).(verdict := Some(FALLBACK)), Judge(snap))
    else Choose(snap, snap.verdict.value)
  }

  function ReservedPatch(snap: Meta, verdict: Verdict, text: string): Meta {
    Meta(Some(Reserved), Some(verdict), Some(text), Some(if snap.marker.Some? then snap.marker.value else text), None, Some(text), None)
  }

  /** One step of one invocation on the shared row: the new row, its new place, and whether it called publish. */
  function Advance(row: Option<Meta>, pc: Pc, how: How): (Option<Meta>, Pc, nat) {
    if how.Crash? then (row, Gone, 0)
    else
      match pc
      case Start =>
        if row.None? then
          var inserted := Inserted(if how.Proceed? then how.text else "");
          (Some(inserted), Created(inserted), 0)
        else (row, Observed(row.value), 0)
      case Created(snap) => (row, Decide(true, snap), 0)
      case Observed(snap) =>
        if row.Some? && MayReserve(row.value)
        then (Some(Taken(row.value, if how.Proceed? then how.text else "")), Won, 0) else (row, Decide(false, snap), 0)
      case Won => (row, Decide(true, if row.Some? then row.value else NO_META), 0)
      case Decide(reserved, snap) => (row, Branch(reserved, snap), 0)
      case Judge(snap) =>
        if how.Proceed? && how.ok && !how.aborted then (row, Choose(snap, how.verdict), 0) else (row, Set(StatusPatch(Ready), Gone), 0)
      case Choose(snap, verdict) => (row, Set(ReservedPatch(snap, verdict, if how.Proceed? then how.text else ""), CheckAbort), 0)
      case CheckAbort =>
        if how.Proceed? && how.aborted then (row, Set(StatusPatch(Ready), Gone), 0) else (row, Set(StatusPatch(Posting), Publish), 0)
      case Publish => (row, AwaitPublish, 1)
      case AwaitPublish =>
        if how.Proceed? && how.ok && how.text != "" then (row, Set(ConfirmedPatch(how.text), Gone), 0)
        else if how.Proceed? && how.aborted then (row, Gone, 0)
        else (row, Set(StatusPatch(Unresolved), Gone), 0)
      case Reconcile =>
        if how.Proceed? && how.ok && how.text != "" then (row, Set(ConfirmedPatch(how.text), Gone), 0) else (row, Gone, 0)
      case Set(patch, next) =>
        if row.None? then (row, Gone, 0)
        else if how.SplitRead? then (row, Merge(row.value, patch, next), 0)
        else (Some(MergedMetadata(row.value, patch)), next, 0)
      case Merge(before, patch, next) => (Some(MergedMetadata(before, patch)), next, 0)
      case Gone => (row, Gone, 0)
  }

  // ----- the system -----

  /** The shared row, every invocation that has begun, and how often publish was called. */
  datatype Sys = Sys(row: Option<Meta>, pcs: map<nat, Pc>, published: nat)
  datatype Act = Act(who: nat, how: How)

  function PcOf(s: Sys, who: nat): Pc {
    if who in s.pcs then s.pcs[who] else Start
  }

  function Step(s: Sys, act: Act): Sys {
    var (row, pc, calls) := Advance(s.row, PcOf(s, act.who), act.how);
    Sys(row, s.pcs[act.who := pc], s.published + calls)
  }

  function Run(s: Sys, acts: seq<Act>): Sys
    decreases |acts|
  {
    if acts == [] then s else Run(Step(s, acts[0]), acts[1..])
  }

  const EMPTY := Sys(None, map[], 0)

  // ----- who may still post -----

  predicate Absorbing(status: Option<Status>) {
    status == Some(Posting) || status == Some(Unresolved) || status == Some(Confirmed)
  }

  /** The invocation holds the reservation: it may still reach publish, or is about to give it back. */
  predicate Holds(pc: Pc) {
    match pc
    case Created(_) => true
    case Won => true
    case Decide(reserved, _) => reserved
    case Judge(_) => true
    case Choose(_, _) => true
    case CheckAbort => true
    case Publish => true
    case Set(patch, _) => !Absorbing(patch.status) || patch.status == Some(Posting)
    case Merge(_, patch, _) => !Absorbing(patch.status) || patch.status == Some(Posting)
    case _ => false
  }

  /** Where a metadata write leads, by what it writes. */
  predicate Leads(patch: Meta, next: Pc) {
    match patch.status
    case Some(Judging) => next.Judge? && patch.url.None?
    case Some(Reserved) => next == CheckAbort && patch.url.None?
    case Some(Ready) => next == Gone && patch.url.None?
    case Some(Posting) => next == Publish && patch.url.None?
    case Some(Unresolved) => next == Gone && patch.url.None?
    case Some(Confirmed) => next == Gone && Truthy(patch.url)
    case None => false
  }

  /** What the row and the counter look like while an invocation is at `pc`. */
  predicate Fits(row: Option<Meta>, published: nat, pc: Pc) {
    match pc
    case Start => true
    case Gone => true
    case Observed(snap) => row.Some? && (Absorbing(snap.status) ==> Absorbing(row.value.status))
    case Created(snap) =>
      && row.Some? && published == 0 && snap.status.None? && !Absorbing(row.value.status) && row.value.status != Some(Ready)
    case Decide(reserved, snap) =>
      && row.Some? && (Absorbing(snap.status) ==> Absorbing(row.value.status))
      && (reserved ==> published == 0 && !Absorbing(row.value.status) && row.value.status != Some(Ready))
    case Publish => row.Some? && published == 0 && Absorbing(row.value.status)
    case AwaitPublish => row.Some? && published == 1 && Absorbing(row.value.status)
    case Reconcile => row.Some? && Absorbing(row.value.status)
    case Judge(snap) => row.Some? && published == 0 && !Absorbing(row.value.status) && row.value.status != Some(Ready)
    case Choose(snap, _) => row.Some? && published == 0 && !Absorbing(row.value.status) && row.value.status != Some(Ready)
    case Set(patch, next) =>
      && row.Some? && Leads(patch, next)
      && if Holds(pc) then published == 0 && !Absorbing(row.value.status) && row.value.status != Some(Ready) else Absorbing(row.value.status)
    case Merge(before, patch, next) =>
      && row.Some? && Leads(patch, next) && (Truthy(before.url) ==> Absorbing(row.value.status))
      && if Holds(pc) then published == 0 && !Absorbing(row.value.status) && row.value.status != Some(Ready) else Absorbing(row.value.status)
    case _ => row.Some? && published == 0 && !Absorbing(row.value.status) && row.value.status != Some(Ready)
  }

  predicate OneHolder(s: Sys) {
    forall i, j | i in s.pcs && j in s.pcs && i != j :: !(Holds(s.pcs[i]) && Holds(s.pcs[j]))
  }

  predicate Inv(s: Sys) {
    && OneHolder(s)
    && (forall i | i in s.pcs :: Fits(s.row, s.published, s.pcs[i]))
    && s.published <= 1
    && (s.published == 1 ==> s.row.Some? && Absorbing(s.row.value.status) && forall i | i in s.pcs :: !Holds(s.pcs[i]))
    && (s.row.Some? && s.row.value.status == Some(Ready) ==> forall i | i in s.pcs :: !Holds(s.pcs[i]))
    && (s.row.Some? && Truthy(s.row.value.url) ==> Absorbing(s.row.value.status))
  }

  /** What one step may do to the row and the counter. */
  predicate Effect(row: Option<Meta>, row': Option<Meta>, pc: Pc, calls: nat) {
    && (row.Some? ==> row'.Some? && (Absorbing(row.value.status) ==> Absorbing(row'.value.status)))
    && (calls > 0 ==> pc == Publish && calls == 1)
    && (row' != row && !Holds(pc) ==> row.None? || row.value.status == Some(Ready) || Absorbing(row.value.status))
  }

  /** The row's own part of the invariant. */
  predicate RowOk(row: Option<Meta>, published: nat) {
    && (published > 0 ==> published == 1 && row.Some? && Absorbing(row.value.status))
    && (row.Some? && Truthy(row.value.url) ==> Absorbing(row.value.status))
  }

  /** The moving invocation still fits where it arrives. */
  lemma ArrivalFits(row: Option<Meta>, published: nat, pc: Pc, how: How)
    requires Fits(row, published, pc) && RowOk(row, published)
    ensures var (row', pc', calls) := Advance(row, pc, how);
            Fits(row', published + calls, pc')
  {
    match pc
    case Set(patch, next) => WriteFits(row, published, pc, row.value, patch, next);
    case Merge(before, patch, next) => WriteFits(row, published, pc, before, patch, next);
    case Decide(reserved, snap) =>
    case _ =>
  }

  lemma WriteFits(row: Option<Meta>, published: nat, pc: Pc, before: Meta, patch: Meta, next: Pc)
    requires Fits(row, published, pc) && RowOk(row, published)
    requires pc == Set(patch, next) || pc == Merge(before, patch, next)
    ensures Fits(Some(MergedMetadata(before, patch)), published, next)
  {
  }

  lemma MoverFits(s: Sys, who: nat, how: How)
    requires Inv(s)
    ensures var (row, pc', calls) := Advance(s.row, PcOf(s, who), how);
            Fits(row, s.published + calls, pc')
  {
    ArrivalFits(s.row, s.published, PcOf(s, who), how);
  }

  lemma MoverEffect(s: Sys, who: nat, how: How)
    requires Inv(s)
    ensures var pc := PcOf(s, who);
            var (row, pc', calls) := Advance(s.row, pc, how);
            && Effect(s.row, row, pc, calls)
            && (Holds(pc') ==> Holds(pc) || s.row.None? || s.row.value.status == Some(Ready))
            && (calls > 0 ==> !Holds(pc'))
  {
  }

  lemma MoverRow(s: Sys, who: nat, how: How)
    requires Inv(s)
    ensures var pc := PcOf(s, who);
            var (row, pc', calls) := Advance(s.row, pc, how);
            && (row.Some? && row.value.status == Some(Ready) && row != s.row ==> Holds(pc) && !Holds(pc'))
            && (row.Some? && Truthy(row.value.url) ==> Absorbing(row.value.status))
  {
  }

  /** Those who stand still: nothing another invocation does moves the ground under them. */
  lemma OthersStillFit(row: Option<Meta>, row': Option<Meta>, published: nat, calls: nat, pc: Pc)
    requires Fits(row, published, pc)
    requires row.Some? ==> row'.Some? && (Absorbing(row.value.status) ==> Absorbing(row'.value.status))
    requires Holds(pc) ==> calls == 0 && (row' == row || Absorbing(row.value.status))
    requires calls > 0 ==> published == 0
    ensures Fits(row', published + calls, pc)
  {
  }

  lemma OthersFit(s: Sys, act: Act)
    requires Inv(s)
    ensures forall i | i in s.pcs && i != act.who :: Fits(Step(s, act).row, Step(s, act).published, s.pcs[i])
  {
    MoverEffect(s, act.who, act.how);
    var pc := PcOf(s, act.who);
    var (row, pc', calls) := Advance(s.row, pc, act.how);
    assert calls > 0 ==> Fits(s.row, s.published, Publish);
    hide Advance;
    forall i | i in s.pcs && i != act.who ensures Fits(row, s.published + calls, s.pcs[i]) {
      OthersStillFit(s.row, row, s.published, calls, s.pcs[i]);
    }
  }

  lemma StepKeeps(s: Sys, act: Act)
    requires Inv(s)
    ensures Inv(Step(s, act))
  {
    MoverFits(s, act.who, act.how);
    MoverEffect(s, act.who, act.how);
    MoverRow(s, act.who, act.how);
    OthersFit(s, act);
    var pc := PcOf(s, act.who);
    assert Fits(s.row, s.published, pc);
    hide Advance;
    var t := Step(s, act);
    assert t.pcs.Keys == s.pcs.Keys + {act.who};
    assert OneHolder(t);
  }

  /** Every interleaving keeps the invariant. */
  lemma {:induction false} RunKeeps(s: Sys, acts: seq<Act>)
    requires Inv(s)
    ensures Inv(Run(s, acts))
    decreases |acts|
  {
    if acts != [] {
      StepKeeps(s, acts[0]);
      RunKeeps(Step(s, acts[0]), acts[1..]);
    }
  }

  /** Mutual exclusion and at most one publication, over every interleaving of any number of invocations, with aborts,
      crashes and even metadata writes whose read and write another process has separated. And a row that says `ready`
      has no live owner that could still post. */
  lemma AtMostOnePublication(acts: seq<Act>)
    ensures var s := Run(EMPTY, acts);
            && s.published <= 1
            && (forall i, j | i in s.pcs && j in s.pcs && Holds(s.pcs[i]) && Holds(s.pcs[j]) :: i == j)
            && (s.row.Some? && s.row.value.status == Some(Ready) ==> forall i | i in s.pcs :: !Holds(s.pcs[i]) && !s.pcs[i].Publish?)
  {
    RunKeeps(EMPTY, acts);
  }

  // ----- the publication URL -----

  /** `setMetadata` reads and writes without letting go, as it does within one process. */
  predicate Whole(acts: seq<Act>) {
    forall a | a in acts :: !a.how.SplitRead?
  }

  predicate NothingSplit(s: Sys) {
    forall i | i in s.pcs :: !s.pcs[i].Merge?
  }

  predicate HasUrl(s: Sys) {
    s.row.Some? && Truthy(s.row.value.url)
  }

  /** Where an invocation can be that began after the URL was there: it only looks, and leaves. */
  predicate OnlyLooks(pc: Pc) {
    match pc
    case Start => true
    case Gone => true
    case Observed(snap) => Truthy(snap.url)
    case Decide(reserved, snap) => !reserved && Truthy(snap.url)
    case _ => false
  }

  /** The invocation read the row before the URL was there, and its write would put that row back. */
  predicate Erases(pc: Pc) {
    pc.Merge? && !Truthy(MergedMetadata(pc.before, pc.patch).url)
  }

  predicate Stale(s: Sys) {
    exists i | i in s.pcs :: Erases(s.pcs[i])
  }

  /** Whoever reads the row from now on sees the URL, and no write takes away what it read. */
  lemma UrlStepKeeps(s: Sys, act: Act)
    requires Inv(s) && HasUrl(s) && !Stale(s)
    ensures HasUrl(Step(s, act)) && !Stale(Step(s, act))
  {
    var pc := PcOf(s, act.who);
    assert Fits(s.row, s.published, pc) && !Erases(pc);
    MoverKeepsUrl(s.row, s.published, pc, act.how);
  }

  lemma MoverKeepsUrl(row: Option<Meta>, published: nat, pc: Pc, how: How)
    requires Fits(row, published, pc) && row.Some? && Truthy(row.value.url) && !Erases(pc) && Absorbing(row.value.status)
    ensures var (row', pc', _) := Advance(row, pc, how);
            row'.Some? && Truthy(row'.value.url) && !Erases(pc')
  {
  }

  lemma WholeStepKeeps(s: Sys, act: Act)
    requires Inv(s) && NothingSplit(s) && !act.how.SplitRead?
    ensures NothingSplit(Step(s, act))
  {
    assert Fits(s.row, s.published, PcOf(s, act.who));
  }

  lemma LookStepKeeps(s: Sys, act: Act, who: nat)
    requires Inv(s) && HasUrl(s) && OnlyLooks(PcOf(s, who))
    ensures OnlyLooks(PcOf(Step(s, act), who)) && (act.who == who ==> Step(s, act).published == s.published)
  {
  }

  lemma {:induction false} UrlAndLatecomers(s: Sys, acts: seq<Act>, who: nat)
    requires Inv(s) && HasUrl(s) && !Stale(s) && OnlyLooks(PcOf(s, who))
    ensures HasUrl(Run(s, acts)) && OnlyLooks(PcOf(Run(s, acts), who))
    decreases |acts|
  {
    if acts != [] {
      UrlStepKeeps(s, acts[0]);
      LookStepKeeps(s, acts[0], who);
      StepKeeps(s, acts[0]);
      UrlAndLatecomers(Step(s, acts[0]), acts[1..], who);
    }
  }

  lemma {:induction false} UrlStays(s: Sys, acts: seq<Act>)
    requires Inv(s) && HasUrl(s) && !Stale(s)
    ensures HasUrl(Run(s, acts))
    decreases |acts|
  {
    if acts != [] {
      UrlStepKeeps(s, acts[0]);
      StepKeeps(s, acts[0]);
      UrlStays(Step(s, acts[0]), acts[1..]);
    }
  }

  /** A stale write loses the URL as soon as it is made. */
  lemma StaleLosesUrl(s: Sys) returns (act: Act)
    requires Stale(s)
    ensures !HasUrl(Run(s, [act]))
  {
    var i :| i in s.pcs && Erases(s.pcs[i]);
    act := Act(i, Proceed(true, false, FALLBACK, ""));
    assert [act][1..] == [];
    assert Run(s, [act]) == Run(Step(s, act), []);
  }

  /** Once a row has a publication URL, no continuation of any kind can lose it if and only if no invocation still holds a
      row it read before the URL was there. */
  lemma UrlIsPermanentIff(before: seq<Act>)
    requires HasUrl(Run(EMPTY, before))
    ensures var s := Run(EMPTY, before);
            (forall afterwards: seq<Act> :: HasUrl(Run(s, afterwards))) <==> !Stale(s)
  {
    RunKeeps(EMPTY, before);
    var s := Run(EMPTY, before);
    if Stale(s) {
      var act := StaleLosesUrl(s);
      assert !HasUrl(Run(s, [act]));
    } else {
      forall afterwards: seq<Act> ensures HasUrl(Run(s, afterwards)) {
        UrlStays(s, afterwards);
      }
    }
  }

  lemma {:induction false} WholeRunsStayWhole(s: Sys, acts: seq<Act>)
    requires Inv(s) && NothingSplit(s) && Whole(acts)
    ensures NothingSplit(Run(s, acts))
    decreases |acts|
  {
    if acts != [] {
      assert acts[0] in acts;
      WholeStepKeeps(s, acts[0]);
      StepKeeps(s, acts[0]);
      WholeRunsStayWhole(Step(s, acts[0]), acts[1..]);
    }
  }

  /** Within one process nobody ever holds such a row. */
  lemma WholeIsNeverStale(before: seq<Act>)
    requires Whole(before)
    ensures !Stale(Run(EMPTY, before))
  {
    WholeRunsStayWhole(EMPTY, before);
  }

  /** Then an invocation that begins later never judges, reserves, reconciles or publishes: it can only return the URL. */
  lemma UrlIsPermanent(before: seq<Act>, afterwards: seq<Act>, who: nat)
    requires HasUrl(Run(EMPTY, before)) && !Stale(Run(EMPTY, before)) && PcOf(Run(EMPTY, before), who) == Start
    ensures var end := Run(Run(EMPTY, before), afterwards);
            HasUrl(end) && OnlyLooks(PcOf(end, who))
  {
    RunKeeps(EMPTY, before);
    UrlAndLatecomers(Run(EMPTY, before), afterwards, who);
  }

  // ----- why writes must be whole -----

  lemma {:induction false} RunSnoc(s: Sys, acts: seq<Act>, act: Act)
    ensures Run(s, acts + [act]) == Step(Run(s, acts), act)
    decreases |acts|
  {
    if acts == [] {
      assert (acts + [act])[1..] == [];
    } else {
      assert (acts + [act])[1..] == acts[1..] + [act];
      RunSnoc(Step(s, acts[0]), acts[1..], act);
    }
  }

  const YES := Proceed(true, false, FALLBACK, "x")
  const NO := Proceed(false, false, FALLBACK, "x")

  lemma Extend(acts: seq<Act>, act: Act) returns (more: seq<Act>)
    ensures Run(EMPTY, more) == Step(Run(EMPTY, acts), act)
  {
    more := acts + [act];
    RunSnoc(EMPTY, acts, act);
  }

  lemma OwnerReserves() returns (acts: seq<Act>)
    ensures var s := Run(EMPTY, acts);
            PcOf(s, 0) == Decide(true, Inserted("x")) && PcOf(s, 1) == Start && s.row == Some(Inserted("x"))
  {
    acts := Extend([], Act(0, YES));
    acts := Extend(acts, Act(0, YES));
  }

  lemma OwnerJudges() returns (acts: seq<Act>)
    ensures var s := Run(EMPTY, acts);
            PcOf(s, 0) == Judge(Inserted("x")) && PcOf(s, 1) == Start && s.row.Some? && s.row.value.url.None?
  {
    acts := OwnerReserves();
    acts := Extend(acts, Act(0, YES));
    acts := Extend(acts, Act(0, YES));
  }

  lemma OwnerChooses() returns (acts: seq<Act>)
    ensures var s := Run(EMPTY, acts);
            && PcOf(s, 0) == CheckAbort && PcOf(s, 1) == Start && s.row.Some? && s.row.value.url.None?
            && Truthy(s.row.value.destination) && Truthy(s.row.value.marker)
  {
    acts := OwnerJudges();
    acts := Extend(acts, Act(0, YES));
    acts := Extend(acts, Act(0, YES));
    acts := Extend(acts, Act(0, YES));
  }

  lemma OwnerPosts() returns (acts: seq<Act>)
    ensures var s := Run(EMPTY, acts);
            && PcOf(s, 0) == AwaitPublish && PcOf(s, 1) == Start
            && s.row.Some? && s.row.value.status == Some(Posting) && s.row.value.url.None?
            && Truthy(s.row.value.destination) && Truthy(s.row.value.marker)
  {
    acts := OwnerChooses();
    acts := Extend(acts, Act(0, NO));
    acts := Extend(acts, Act(0, YES));
    acts := Extend(acts, Act(0, YES));
  }

  lemma ReconcilerLooks() returns (acts: seq<Act>)
    ensures var s := Run(EMPTY, acts);
            && PcOf(s, 0) == AwaitPublish && PcOf(s, 1) == Reconcile
            && s.row.Some? && s.row.value.status == Some(Posting) && s.row.value.url.None?
  {
    acts := OwnerPosts();
    acts := Extend(acts, Act(1, YES));
    acts := Extend(acts, Act(1, YES));
    acts := Extend(acts, Act(1, YES));
  }

  /** A reachable state: the owner waits for its publish call while a second invocation has just found the issue. */
  lemma OwnerAndReconciler() returns (acts: seq<Act>)
    ensures var s := Run(EMPTY, acts);
            && PcOf(s, 0) == AwaitPublish && PcOf(s, 1) == Set(ConfirmedPatch("x"), Gone)
            && s.row.Some? && s.row.value.status == Some(Posting) && s.row.value.url.None?
  {
    acts := ReconcilerLooks();
    acts := Extend(acts, Act(1, YES));
  }

  /** With the read and the write of one merge separated, the owner's late `unresolved` can erase the URL a reconciler
      has just stored. */
  lemma SplitMergeLosesUrl() returns (before: seq<Act>, afterwards: seq<Act>)
    ensures HasUrl(Run(EMPTY, before)) && !HasUrl(Run(Run(EMPTY, before), afterwards))
  {
    before := OwnerAndReconciler();
    before := Extend(before, Act(0, NO));
    before := Extend(before, Act(0, SplitRead));
    before := Extend(before, Act(1, YES));
    afterwards := [Act(0, YES)];
    assert afterwards[1..] == [];
    assert Run(Run(EMPTY, before), afterwards) == Step(Run(EMPTY, before), Act(0, YES));
  }
}

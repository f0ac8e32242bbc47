/** The tombstone ledger: the fence makes it one chain, and a row always means a full grace of coldness. */
module LakeLedger {
  import opened Wrappers
  import opened Lake
  import PackSweep

  // --- the invariant -----------------------------------------------------------

  /** Store times of packs are in the past, and a pack is never older than its first PUT. */
  ghost predicate PackTimes(s: State) {
    && (forall p :: p in s.firstPut ==> s.firstPut[p] <= s.clock)
    && (forall p :: p in s.packs ==> p in s.firstPut && s.firstPut[p] <= s.packs[p] <= s.clock)
  }

  /** Every row was stamped more than a grace after the pack first existed. */
  ghost predicate RowsAged(c: Config, s: State, rows: map<Pack, nat>) {
    forall p :: p in rows ==> p in s.firstPut && s.firstPut[p] + c.grace < rows[p]
  }

  ghost predicate MetasOk(s: State, metas: map<Pack, Option<nat>>) {
    forall p :: p in metas && metas[p].Some? ==> p in s.firstPut && s.firstPut[p] <= metas[p].value
  }

  /** p was created more than two graces before time t. */
  ghost predicate TwoGraces(c: Config, s: State, p: Pack, t: nat) {
    p in s.firstPut && s.firstPut[p] + 2 * c.grace < t
  }

  /** A ledger read at a version is exactly what that version holds for as long as it is current. */
  ghost predicate RefOk(s: State, R: Runner) {
    match R.ref
    case RefAt(e) => e <= s.etags && (s.ledger.LedgerObject? && s.ledger.etag == e ==> s.ledger.rows == Some(R.cold))
    case _ => R.cold == map[]
  }

  ghost predicate CycleOf(s: State, R: Runner) {
    && R.cycle < |s.cycles|
    && var y := s.cycles[R.cycle];
       && y.ref == R.ref && y.loaded == R.cold && y.now == R.now && y.metas == R.metas && y.marked == R.marked
       && y.grace == R.grace
       && R.todo <= PackSweep.Deletable(y.marked, y.metas, y.loaded, y.now, y.grace)
       && (R.doomed.Some? ==> R.doomed.value in PackSweep.Deletable(y.marked, y.metas, y.loaded, y.now, y.grace))
  }

  ghost predicate RunnerOk(c: Config, s: State, R: Runner) {
    && R.grace >= c.grace && MetasOk(s, R.metas) && RowsAged(c, s, R.cold) && RefOk(s, R)
    && R.now <= s.clock && R.recheck <= s.clock
    && (R.stage == Committed || R.stage == Rechecked ==> CycleOf(s, R))
    && (R.stage == Rechecked ==> R.now <= R.recheck)
    && (R.stage != Rechecked && R.stage != Halted ==> R.doomed.None?)
  }

  ghost predicate Runners(c: Config, s: State) {
    forall r :: r in s.runners ==> RunnerOk(c, s, s.runners[r])
  }

  /** A pack that once existed and is gone was older than two graces when it went. */
  ghost predicate GoneLate(c: Config, s: State) {
    forall p :: p in s.firstPut && p !in s.packs ==> TwoGraces(c, s, p, s.clock)
  }

  /** One committed cycle, on its own: it wrote a row for every pack it saw cold and does not delete, old or new. */
  ghost predicate CycleOk(y: Cycle) {
    forall k :: RowOk(y, k)
  }

  ghost predicate RowOk(y: Cycle, k: Pack) {
    && (k in y.written <==> PackSweep.Cold(y.marked, y.metas, y.now, y.grace, k)
                            && k !in PackSweep.Deletable(y.marked, y.metas, y.loaded, y.now, y.grace))
    && (k in y.written ==> y.written[k] == if k in y.loaded then y.loaded[k] else y.now)
  }

  /** Cycle i was fenced on the version cycle i - 1 wrote, unless it read no valid ledger at all. */
  ghost predicate Linked(cycles: seq<Cycle>, i: nat)
    requires i < |cycles|
  {
    match cycles[i].ref
    case RefAt(e) => i > 0 && cycles[i - 1].etag == e && cycles[i].loaded == cycles[i - 1].written
    case RefAbsent => i == 0 && cycles[i].loaded == map[]
    case RefCorrupt => cycles[i].loaded == map[]
  }

  ghost predicate LinkOk(cycles: seq<Cycle>, etags: nat, i: nat) {
    i < |cycles| ==> Linked(cycles, i) && CycleOk(cycles[i]) && cycles[i].etag <= etags
  }

  ghost predicate Links(cycles: seq<Cycle>, etags: nat) {
    forall i: nat :: LinkOk(cycles, etags, i)
  }

  ghost predicate Ordered(cycles: seq<Cycle>) {
    forall i, j :: 0 <= i < j < |cycles| ==> cycles[i].etag < cycles[j].etag
  }

  /** The object in the store is what the last cycle wrote, or garbage someone put over it. */
  ghost predicate TopOfChain(cycles: seq<Cycle>, ledger: Ledger, etags: nat) {
    match ledger
    case NoLedger => cycles == []
    case LedgerObject(e, rows) =>
      e <= etags && (rows.Some? ==>
                     cycles != [] && cycles[|cycles| - 1].etag == e && cycles[|cycles| - 1].written == rows.value)
  }

  ghost predicate Chain(s: State) {
    Links(s.cycles, s.etags) && Ordered(s.cycles) && TopOfChain(s.cycles, s.ledger, s.etags)
  }

  ghost predicate Inv(c: Config, s: State) {
    PackTimes(s) && RowsAged(c, s, LedgerRows(s.ledger)) && Runners(c, s) && GoneLate(c, s) && Chain(s)
  }

  // --- the steps --------------------------------------------------------------------

  /** What a step may do to packs and clock without a collector: add, refresh, or let time pass. */
  ghost predicate PacksGrow(s: State, s': State) {
    && s.clock <= s'.clock
    && (forall p :: p in s.packs ==> p in s'.packs && s.packs[p] <= s'.packs[p])
    && (forall p :: p in s'.packs && !(p in s.packs && s'.packs[p] == s.packs[p]) ==> s'.packs[p] == s'.clock)
    && (forall p :: p in s.firstPut ==> p in s'.firstPut && s'.firstPut[p] == s.firstPut[p])
    && (forall p :: p in s'.firstPut && p !in s.firstPut ==> p in s'.packs && s'.firstPut[p] == s'.clock == s.clock)
    && (forall p :: p in s'.packs && p !in s.packs ==> p in s'.firstPut)
  }

  ghost predicate LedgerSame(s: State, s': State) {
    s'.ledger == s.ledger && s'.etags == s.etags && s'.cycles == s.cycles && s'.runners == s.runners
  }

  lemma StoreGrows(s: State, x: StoreEvent)
    requires StoreEnabled(s, x) && PackTimes(s)
    ensures PacksGrow(s, DoStore(s, x))
    ensures !x.CorruptLedger? ==> LedgerSame(s, DoStore(s, x))
  {
  }

  lemma WritesGrow(s: State, w: nat, u: WriterEvent)
    requires WriterEnabled(s, w, u) && PackTimes(s)
    ensures PacksGrow(s, WriterWrites(s, w, u)) && LedgerSame(s, WriterWrites(s, w, u))
  {
    if u.PutPack? || u.Refresh? { PackWritesGrow(s, w, u); } else { OtherWritesKeepPacks(s, w, u); }
  }

  lemma PackWritesGrow(s: State, w: nat, u: WriterEvent)
    requires WriterEnabled(s, w, u) && PackTimes(s) && (u.PutPack? || u.Refresh?)
    ensures PacksGrow(s, WriterWrites(s, w, u)) && LedgerSame(s, WriterWrites(s, w, u))
  {
  }

  lemma OtherWritesKeepPacks(s: State, w: nat, u: WriterEvent)
    requires WriterEnabled(s, w, u) && !u.PutPack? && !u.Refresh?
    ensures var t := WriterWrites(s, w, u);
            t.clock == s.clock && t.packs == s.packs && t.firstPut == s.firstPut && LedgerSame(s, t)
  {
    var t := WriterWrites(s, w, u);
    match u
    case Plan(_, _, _) =>
    case Send =>
    case Drop =>
    case Propose =>
    case Quit =>
    case _ => assert t == s;
  }

  lemma WriterGrows(c: Config, s: State, w: nat, u: WriterEvent)
    requires WriterEnabled(s, w, u) && PackTimes(s)
    ensures PacksGrow(s, DoWriter(c, s, w, u)) && LedgerSame(s, DoWriter(c, s, w, u))
  {
    WritesGrow(s, w, u);
    var t, s' := WriterWrites(s, w, u), DoWriter(c, s, w, u);
    assert s' == t.(writers := s'.writers);
  }

  /** What a collector's record is checked against: the ledger history, first PUTs, and the clock. */
  ghost predicate SameLedgerWorld(s: State, s': State) {
    && s.clock <= s'.clock && s'.ledger == s.ledger && s'.etags == s.etags && s'.cycles == s.cycles
    && (forall p :: p in s.firstPut ==> p in s'.firstPut && s'.firstPut[p] == s.firstPut[p])
  }

  lemma WorldKeepsRunner(c: Config, s: State, s': State, R: Runner)
    requires SameLedgerWorld(s, s') && RunnerOk(c, s, R)
    ensures RunnerOk(c, s', R)
  {
  }

  lemma GrowKeepsInv(c: Config, s: State, s': State)
    requires PacksGrow(s, s') && LedgerSame(s, s') && Inv(c, s)
    ensures Inv(c, s')
  {
    forall r | r in s'.runners ensures RunnerOk(c, s', s'.runners[r]) { WorldKeepsRunner(c, s, s', s.runners[r]); }
  }

  lemma CorruptionKeepsInv(c: Config, s: State)
    requires Inv(c, s)
    ensures Inv(c, DoStore(s, CorruptLedger))
  {
    var s' := DoStore(s, CorruptLedger);
    forall i: nat ensures LinkOk(s'.cycles, s'.etags, i) { assert LinkOk(s.cycles, s.etags, i); }
    forall r | r in s'.runners ensures RunnerOk(c, s', s'.runners[r]) { assert RunnerOk(c, s, s.runners[r]); }
  }

  /** A plan's stamps and survivors: every new row is older than a grace. */
  lemma PlanRowsAged(c: Config, s: State, R: Runner)
    requires R.grace >= c.grace && MetasOk(s, R.metas) && RowsAged(c, s, R.cold) && PlanOf(R).SweepActions?
    ensures RowsAged(c, s, PackSweep.NewRows(PlanOf(R), R.metas, R.cold, R.now))
  {
    var rows := PackSweep.NewRows(PlanOf(R), R.metas, R.cold, R.now);
    forall p | p in rows ensures p in s.firstPut && s.firstPut[p] + c.grace < rows[p] {
      if p in PlanOf(R).tombstone { assert PackSweep.Cold(R.marked, R.metas, R.now, R.grace, p); }
    }
  }

  lemma PlanCycleOk(R: Runner, e: nat)
    requires PlanOf(R).SweepActions?
    ensures CycleOk(Cycle(R.ref, R.cold, R.now, R.metas, R.marked, R.grace,
                          PackSweep.NewRows(PlanOf(R), R.metas, R.cold, R.now), e))
    ensures PlanOf(R).delete == PackSweep.Deletable(R.marked, R.metas, R.cold, R.now, R.grace)
  {
  }

  lemma AppendKeepsLinks(cycles: seq<Cycle>, y: Cycle, etags: nat)
    requires Links(cycles, etags) && CycleOk(y) && y.etag == etags + 1 && Linked(cycles + [y], |cycles|)
    ensures Links(cycles + [y], etags + 1) && (Ordered(cycles) ==> Ordered(cycles + [y]))
  {
    var ds, next := cycles + [y], etags + 1;
    forall i: nat ensures LinkOk(ds, next, i) {
      assert LinkOk(cycles, etags, i);
    }
    if Ordered(cycles) {
      forall i, j | 0 <= i < j < |ds| ensures ds[i].etag < ds[j].etag { assert LinkOk(cycles, etags, i); }
    }
  }

  function CycleFrom(s: State, R: Runner): Cycle
    requires PlanOf(R).SweepActions?
  {
    Cycle(R.ref, R.cold, R.now, R.metas, R.marked, R.grace, PackSweep.NewRows(PlanOf(R), R.metas, R.cold, R.now),
          s.etags + 1)
  }

  lemma FencedCycleLinks(s: State, R: Runner, y: Cycle)
    requires FenceHolds(s, R.ref) && RefOk(s, R) && TopOfChain(s.cycles, s.ledger, s.etags)
    requires y.ref == R.ref && y.loaded == R.cold
    ensures Linked(s.cycles + [y], |s.cycles|)
  {
  }

  /** Only a runner holding the current version commits, so the new cycle extends the chain. */
  lemma CommitExtendsChain(c: Config, s: State, R: Runner)
    requires StageEnabled(s, R, CommitLedger) && Chain(s) && RefOk(s, R)
    ensures Chain(WithLedger(s, R))
  {
    var y := CycleFrom(s, R);
    FreshCycleOk(s, R);
    FencedCycleLinks(s, R, y);
    AppendKeepsLinks(s.cycles, y, s.etags);
    WithLedgerIs(s, R);
    assert TopOfChain(s.cycles + [y], LedgerObject(y.etag, Some(y.written)), y.etag);
  }

  lemma FreshCycleOk(s: State, R: Runner)
    requires PlanOf(R).SweepActions?
    ensures CycleOk(CycleFrom(s, R))
  {
    PlanCycleOk(R, s.etags + 1);
  }

  lemma WithLedgerIs(s: State, R: Runner)
    requires PlanOf(R).SweepActions?
    ensures var y, t := CycleFrom(s, R), WithLedger(s, R);
            t.cycles == s.cycles + [y] && t.etags == y.etag && t.ledger == LedgerObject(y.etag, Some(y.written))
  {
  }

  lemma CommitKeepsOther(c: Config, s: State, r: nat, Q: Runner)
    requires GcEnabled(c, s, r, CommitLedger) && RunnerOk(c, s, Q)
    ensures RunnerOk(c, DoRunner(c, s, r, CommitLedger), Q)
  {
  }

  lemma CommitterOk(c: Config, s: State, r: nat)
    requires GcEnabled(c, s, r, CommitLedger) && RunnerOk(c, s, s.runners[r])
    ensures RunnerOk(c, DoRunner(c, s, r, CommitLedger), RunnerAfter(c, s, r, CommitLedger))
  {
    PlanCycleOk(s.runners[r], s.etags + 1);
  }

  lemma CommitKeepsRunners(c: Config, s: State, r: nat)
    requires GcEnabled(c, s, r, CommitLedger) && Runners(c, s)
    ensures Runners(c, DoRunner(c, s, r, CommitLedger))
  {
    var s' := DoRunner(c, s, r, CommitLedger);
    CommitterOk(c, s, r);
    forall q | q in s'.runners ensures RunnerOk(c, s', s'.runners[q]) {
      if q != r { CommitKeepsOther(c, s, r, s.runners[q]); }
    }
  }

  lemma CommitKeepsInv(c: Config, s: State, r: nat)
    requires GcEnabled(c, s, r, CommitLedger) && Inv(c, s)
    ensures Inv(c, DoRunner(c, s, r, CommitLedger))
  {
    var s' := DoRunner(c, s, r, CommitLedger);
    var R := s.runners[r];
    assert RunnerOk(c, s, R);
    CommitExtendsChain(c, s, R);
    PlanRowsAged(c, s, R);
    CommitKeepsRunners(c, s, r);
    CommitWrites(c, s, r);
  }

  lemma CommitWrites(c: Config, s: State, r: nat)
    requires GcEnabled(c, s, r, CommitLedger)
    ensures var s', t := DoRunner(c, s, r, CommitLedger), WithLedger(s, s.runners[r]);
            && s'.packs == s.packs && s'.firstPut == s.firstPut && s'.clock == s.clock
            && s'.ledger == t.ledger && s'.cycles == t.cycles && s'.etags == t.etags
  {
  }

  /** What survives two cycles: a pack in a committed plan's delete set is older than two graces. */
  lemma DeletableTwiceAged(c: Config, s: State, R: Runner, p: Pack)
    requires R.grace >= c.grace && RowsAged(c, s, R.cold)
    requires p in PackSweep.Deletable(R.marked, R.metas, R.cold, R.now, R.grace)
    ensures TwoGraces(c, s, p, R.now)
  {
  }

  lemma DeleteKeepsInv(c: Config, s: State, r: nat)
    requires GcEnabled(c, s, r, Delete) && Inv(c, s)
    ensures Inv(c, DoRunner(c, s, r, Delete))
  {
    var s' := DoRunner(c, s, r, Delete);
    var R := s.runners[r];
    assert RunnerOk(c, s, R);
    DeletableTwiceAged(c, s, R, R.doomed.value);
    assert SameLedgerWorld(s, s');
    DeleteKeepsRunners(c, s, r);
  }

  lemma DeleteKeepsRunners(c: Config, s: State, r: nat)
    requires GcEnabled(c, s, r, Delete) && Runners(c, s)
    ensures Runners(c, DoRunner(c, s, r, Delete))
  {
    var s' := DoRunner(c, s, r, Delete);
    forall q | q in s'.runners ensures RunnerOk(c, s', s'.runners[q]) {
      assert RunnerOk(c, s, s.runners[q]);
      WorldKeepsRunner(c, s, s', if q == r then s.runners[r].(doomed := None) else s.runners[q]);
    }
  }

  lemma ReadingMetasOk(c: Config, s: State, R: Runner, v: GcEvent)
    requires StageEnabled(s, R, v) && (v.ListPacks? || v.Rehead?) && PackTimes(s) && RunnerOk(c, s, R)
    ensures RunnerOk(c, s, RunnerMoves(s, R, v))
  {
  }

  lemma ReadingLedgerOk(c: Config, s: State, R: Runner)
    requires StageEnabled(s, R, ReadLedger) && RowsAged(c, s, LedgerRows(s.ledger)) && RunnerOk(c, s, R)
    requires s.ledger.LedgerObject? ==> s.ledger.etag <= s.etags
    ensures RunnerOk(c, s, RunnerMoves(s, R, ReadLedger))
  {
  }

  lemma OtherMoveOk(c: Config, s: State, R: Runner, v: GcEvent)
    requires StageEnabled(s, R, v) && RunnerOk(c, s, R)
    requires !v.CommitLedger? && !v.Delete? && !v.ListPacks? && !v.Rehead? && !v.ReadLedger?
    ensures RunnerOk(c, s, RunnerMoves(s, R, v))
  {
  }

  /** Every other collector step only moves that collector. */
  lemma MoveKeepsInv(c: Config, s: State, r: nat, v: GcEvent)
    requires GcEnabled(c, s, r, v) && !v.CommitLedger? && !v.Delete? && Inv(c, s)
    ensures Inv(c, DoRunner(c, s, r, v))
  {
    var s' := DoRunner(c, s, r, v);
    assert SameLedgerWorld(s, s') && s'.packs == s.packs && s'.firstPut == s.firstPut && s'.clock == s.clock;
    if !v.GcBegin? {
      assert RunnerOk(c, s, s.runners[r]);
      if v.ListPacks? || v.Rehead? { ReadingMetasOk(c, s, s.runners[r], v); }
      else if v.ReadLedger? { ReadingLedgerOk(c, s, s.runners[r]); }
      else { OtherMoveOk(c, s, s.runners[r], v); }
    }
    forall q | q in s'.runners ensures RunnerOk(c, s', s'.runners[q]) {
      if q != r { assert RunnerOk(c, s, s.runners[q]); }
      WorldKeepsRunner(c, s, s', s'.runners[q]);
    }
  }

  lemma GcKeepsInv(c: Config, s: State, r: nat, v: GcEvent)
    requires GcEnabled(c, s, r, v) && Inv(c, s)
    ensures Inv(c, DoRunner(c, s, r, v))
  {
    if v.CommitLedger? { CommitKeepsInv(c, s, r); }
    else if v.Delete? { DeleteKeepsInv(c, s, r); }
    else { MoveKeepsInv(c, s, r, v); }
  }

  lemma StepKeepsInv(c: Config, s: State, e: Event)
    requires Inv(c, s) && Enabled(c, s, e)
    ensures Inv(c, Do(c, s, e))
  {
    match e {
      case Store(x) =>
        if x.CorruptLedger? { CorruptionKeepsInv(c, s); }
        else { StoreGrows(s, x); GrowKeepsInv(c, s, DoStore(s, x)); }
      case Writing(w, u) => WriterGrows(c, s, w, u); GrowKeepsInv(c, s, DoWriter(c, s, w, u));
      case Collecting(r, v) => GcKeepsInv(c, s, r, v);
    }
  }

  // --- what a row means ---------------------------------------------------------------

  /** Cycle y listed k unreferenced and older than its grace, and left a row for it. */
  ghost predicate SeenCold(y: Cycle, k: Pack) {
    k in y.written && PackSweep.Cold(y.marked, y.metas, y.now, y.grace, k)
  }

  /** A row in cycle j's ledger goes back to the cycle that stamped it, and was seen cold by every cycle in between. */
  ghost predicate ColdSince(cycles: seq<Cycle>, i: nat, j: nat, k: Pack)
    requires i <= j < |cycles|
  {
    && k !in cycles[i].loaded && k in cycles[j].written && cycles[j].written[k] == cycles[i].now
    && forall m :: i <= m <= j ==> SeenCold(cycles[m], k)
  }

  /** The meaning of a tombstone over the whole ledger history. */
  lemma {:induction false} RowMeansColdSince(cycles: seq<Cycle>, etags: nat, j: nat, k: Pack) returns (i: nat)
    requires Links(cycles, etags) && j < |cycles| && k in cycles[j].written
    ensures i <= j && ColdSince(cycles, i, j, k)
  {
    assert LinkOk(cycles, etags, j);
    assert RowOk(cycles[j], k);
    assert SeenCold(cycles[j], k);
    i := j;
    if k in cycles[j].loaded {
      assert cycles[j].ref.RefAt? && cycles[j].written[k] == cycles[j - 1].written[k];
      i := RowMeansColdSince(cycles, etags, j - 1, k);
    }
  }
}

/** What the pack sweep does over whole runs: packs left cold are condemned in time, and no cycle condemns too many. */
module LakeSweep {
  import opened Wrappers
  import opened Lake
  import PackSweep
  import LakeLedger
  import LakeTheorems
  import opened LakeActors

  // --- a cold pack is condemned as soon as its row is a grace old -------------------------------------------

  ghost predicate FoundCold(y: Cycle, p: Pack) {
    PackSweep.OldAndUnreferenced(y.marked, y.metas, y.now, y.grace, p)
  }

  /**
   * Cycle i stamps p; it and every later cycle up to j find p old and unreferenced, each fenced on the ledger of the
   * one before; and those before j come at most a grace after the stamp.
   */
  ghost predicate Aging(cycles: seq<Cycle>, i: nat, j: nat, p: Pack)
    requires i <= j < |cycles|
  {
    && p !in cycles[i].loaded
    && (forall m :: i <= m <= j ==> FoundCold(cycles[m], p))
    && (forall m :: i < m <= j ==> cycles[m].ref.RefAt?)
    && (forall m :: i < m < j ==> cycles[m].now <= cycles[i].now + cycles[m].grace)
  }

  /** The first stamp stays, cycle after cycle, until a cycle comes more than a grace later; that one drops the row. */
  lemma {:induction false} StampStays(cycles: seq<Cycle>, etags: nat, i: nat, j: nat, p: Pack)
    requires LakeLedger.Links(cycles, etags) && i < j < |cycles| && Aging(cycles, i, j, p)
    ensures p in cycles[j].loaded && cycles[j].loaded[p] == cycles[i].now
    ensures p in cycles[j].written <==> cycles[j].now <= cycles[i].now + cycles[j].grace
    ensures p in cycles[j].written ==> cycles[j].written[p] == cycles[i].now
  {
    assert LakeLedger.LinkOk(cycles, etags, i) && LakeLedger.LinkOk(cycles, etags, j);
    assert FoundCold(cycles[i], p) && FoundCold(cycles[j], p);
    assert LakeLedger.RowOk(cycles[i], p) && LakeLedger.RowOk(cycles[j], p);
    if i + 1 < j { StampStays(cycles, etags, i, j - 1, p); }
  }

  /** A committed cycle condemns a pack it found aging exactly if it comes more than a grace after the stamp. */
  lemma OverdueIsCondemned(c: Config, ss: seq<State>, es: seq<Event>, n: nat, r: nat, i: nat, p: Pack)
    requires IsRun(c, ss, es) && n < |es| && es[n] == Collecting(r, CommitLedger)
    requires var y := ss[n + 1].cycles; i + 1 < |y| && Aging(y, i, |y| - 1, p)
    ensures r in ss[n + 1].runners
    ensures var y, last := ss[n + 1].cycles, ss[n + 1].cycles[|ss[n + 1].cycles| - 1];
            && (p in ss[n + 1].runners[r].todo <==> last.now > y[i].now + last.grace)
            && (p !in ss[n + 1].runners[r].todo ==> p in last.written && last.written[p] == y[i].now)
  {
    LinksOf(c, ss, es, n + 1);
    CommitStep(c, ss, es, n, r, p);
    CondemnedInTime(ss[n + 1], r, i, p);
  }

  lemma LinksOf(c: Config, ss: seq<State>, es: seq<Event>, n: nat)
    requires IsRun(c, ss, es) && n < |ss|
    ensures LakeLedger.Links(ss[n].cycles, ss[n].etags)
  {
    LakeTheorems.RunKeepsInv(c, ss, es, n);
  }

  lemma CommitStep(c: Config, ss: seq<State>, es: seq<Event>, n: nat, r: nat, p: Pack)
    requires IsRun(c, ss, es) && n < |es| && es[n] == Collecting(r, CommitLedger)
    ensures var t := ss[n + 1];
            r in t.runners && t.cycles != [] && Condemns(t.cycles[|t.cycles| - 1], t.runners[r], p)
  {
    assert StepAt(c, ss, es, n);
    CommitCondemns(c, ss[n], r, p);
  }

  lemma CondemnedInTime(s: State, r: nat, i: nat, p: Pack)
    requires LakeLedger.Links(s.cycles, s.etags) && i + 1 < |s.cycles| && Aging(s.cycles, i, |s.cycles| - 1, p)
    requires r in s.runners && Condemns(s.cycles[|s.cycles| - 1], s.runners[r], p)
    ensures var y, last := s.cycles, s.cycles[|s.cycles| - 1];
            && (p in s.runners[r].todo <==> last.now > y[i].now + last.grace)
            && (p !in s.runners[r].todo ==> p in last.written && last.written[p] == y[i].now)
  {
    StampStays(s.cycles, s.etags, i, |s.cycles| - 1, p);
    assert FoundCold(s.cycles[|s.cycles| - 1], p);
  }

  /** What a runner has to delete after cycle y. */
  ghost predicate Condemns(y: Cycle, R: Runner, p: Pack) {
    p in R.todo <==> FoundCold(y, p) && p in y.loaded && y.now > y.loaded[p] + y.grace
  }

  lemma CommitCondemns(c: Config, s: State, r: nat, p: Pack)
    requires GcEnabled(c, s, r, CommitLedger)
    ensures var t := DoRunner(c, s, r, CommitLedger);
            r in t.runners && t.cycles != [] && Condemns(t.cycles[|t.cycles| - 1], t.runners[r], p)
  {
    var R := s.runners[r];
    PackSweep.WhatThePlanDoes(R.marked, R.refs, R.metas, R.cold, R.now, R.grace,
                              PackSweep.DEFAULT_MAX_DELETE_FRACTION, p);
  }

  // --- the circuit breaker ------------------------------------------------------------------------------------

  /** The packs collector r deleted in the first n steps. */
  ghost function DeletedBy(ss: seq<State>, es: seq<Event>, r: nat, n: nat): set<Pack>
    requires n <= |es| < |ss|
  {
    if n == 0 then {} else DeletedBy(ss, es, r, n - 1) + DeletedAt(ss[n - 1], es[n - 1], r)
  }

  ghost function DeletedAt(s: State, e: Event, r: nat): set<Pack> {
    if e == Collecting(r, Delete) && r in s.runners && s.runners[r].doomed.Some?
    then {s.runners[r].doomed.value}
    else {}
  }

  predicate PastCommit(R: Runner) {
    R.stage == Committed || R.stage == Rechecked
  }

  /** What a runner has deleted, and past its commit what it may yet delete, is in its plan. */
  ghost predicate WithinPlan(R: Runner, deleted: set<Pack>) {
    && (deleted != {} ==> (PastCommit(R) || R.stage == Halted) && PlanOf(R).SweepActions?)
    && (deleted != {} ==> deleted <= PlanOf(R).delete)
    && (PastCommit(R) ==> PlanOf(R).SweepActions? && Pending(R) <= PlanOf(R).delete)
  }

  ghost function Pending(R: Runner): set<Pack> {
    R.todo + if R.doomed.Some? then {R.doomed.value} else {}
  }

  /** A move past the commit changes nothing the plan depends on. */
  lemma PlanStays(s: State, R: Runner, v: GcEvent)
    requires StageEnabled(s, R, v) && (PastCommit(R) || v.CommitLedger? || v.Halt?)
    ensures PlanOf(RunnerMoves(s, R, v)) == PlanOf(R)
  {
  }

  lemma MoveStaysWithinPlan(s: State, R: Runner, v: GcEvent, deleted: set<Pack>)
    requires StageEnabled(s, R, v) && WithinPlan(R, deleted) && (!PastCommit(R) && R.stage != Halted ==> R.doomed.None?)
    ensures WithinPlan(RunnerMoves(s, R, v), deleted + if v.Delete? && R.doomed.Some? then {R.doomed.value} else {})
  {
    if PastCommit(R) || v.CommitLedger? || v.Halt? {
      PlanStays(s, R, v);
    } else {
      assert deleted == {} && !PastCommit(RunnerMoves(s, R, v));
    }
  }

  /** Runner r's record and deletions are within its plan. */
  ghost predicate Bounded(s: State, r: nat, deleted: set<Pack>) {
    if r in s.runners
    then WithinPlan(s.runners[r], deleted)
         && (!PastCommit(s.runners[r]) && s.runners[r].stage != Halted ==> s.runners[r].doomed.None?)
    else deleted == {}
  }

  lemma OwnMoveBounded(c: Config, s: State, r: nat, v: GcEvent, deleted: set<Pack>)
    requires GcEnabled(c, s, r, v) && Bounded(s, r, deleted)
    ensures Bounded(DoRunner(c, s, r, v), r, deleted + DeletedAt(s, Collecting(r, v), r))
  {
    if !v.GcBegin? { MoveStaysWithinPlan(s, s.runners[r], v, deleted); }
  }

  lemma StepBounded(c: Config, s: State, e: Event, r: nat, deleted: set<Pack>)
    requires Enabled(c, s, e) && Bounded(s, r, deleted)
    ensures Bounded(Do(c, s, e), r, deleted + DeletedAt(s, e, r))
  {
    if IsBy(e, ACollector(r)) {
      OwnMoveBounded(c, s, r, e.v, deleted);
    } else {
      OthersLeave(c, s, e, ACollector(r));
    }
  }

  lemma {:induction false} RunBounded(c: Config, ss: seq<State>, es: seq<Event>, r: nat, n: nat)
    requires IsRun(c, ss, es) && n <= |es|
    ensures Bounded(ss[n], r, DeletedBy(ss, es, r, n))
  {
    if n > 0 {
      RunBounded(c, ss, es, r, n - 1);
      assert StepAt(c, ss, es, n - 1);
      StepBounded(c, ss[n - 1], es[n - 1], r, DeletedBy(ss, es, r, n - 1));
    }
  }

  /** One pass over ten or more packs never deletes more than two fifths of what it listed. */
  lemma BreakerHolds(c: Config, ss: seq<State>, es: seq<Event>, r: nat, n: nat)
    requires IsRun(c, ss, es) && n <= |es| && r in ss[n].runners && |ss[n].runners[r].metas| >= 10
    ensures 5 * |DeletedBy(ss, es, r, n)| <= 2 * |ss[n].runners[r].metas|
  {
    RunBounded(c, ss, es, r, n);
    if DeletedBy(ss, es, r, n) != {} { PlanIsModest(ss[n].runners[r], DeletedBy(ss, es, r, n)); }
  }

  lemma PlanIsModest(R: Runner, deleted: set<Pack>)
    requires PlanOf(R).SweepActions? && deleted <= PlanOf(R).delete && |R.metas| >= 10
    ensures 5 * |deleted| <= 2 * |R.metas|
  {
    PackSweep.WhenThePlanRefuses(R.marked, R.refs, R.metas, R.cold, R.now, R.grace,
                                 PackSweep.DEFAULT_MAX_DELETE_FRACTION);
    SubsetSize(deleted, PlanOf(R).delete);
  }

  lemma {:induction false} SubsetSize(a: set<Pack>, b: set<Pack>)
    requires a <= b
    ensures |a| <= |b|
  {
    if a != {} {
      var p :| p in a;
      SubsetSize(a - {p}, b - {p});
    }
  }
}

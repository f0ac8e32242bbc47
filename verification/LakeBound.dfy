/**
 * gap + cycle <= grace is not only enough for pack safety but exactly what it takes: for every other configuration
 * there is a run that keeps all the time assumptions and loses a pack of its head.
 */
module LakeBound {
  import opened Wrappers
  import opened Lake
  import Chunk
  import Rebase
  import PackSweep
  import LakeTheorems

  // --- playing a run ------------------------------------------------------------------------------

  /** A timely run up to state s, in which writer 1 is prompt. */
  ghost predicate At(c: Config, ss: seq<State>, es: seq<Event>, s: State) {
    |ss| == |es| + 1 && ss[|es|] == s && IsTimelyRun(c, ss, es) && Prompt(c, ss, es)
  }

  /**
   * Writer 1 does nothing before the time grace + 1, and by grace + 1 + gap its manifest has landed: between its first
   * move and the landing it cannot have stalled for more than `gap`.
   */
  ghost predicate Prompt(c: Config, ss: seq<State>, es: seq<Event>) {
    |ss| == |es| + 1 && forall i :: 0 <= i < |es| ==> PromptAt(c, ss[i], es[i])
  }

  ghost predicate PromptAt(c: Config, s: State, e: Event) {
    && (e.Writing? && e.w == 1 ==> s.clock > c.grace)
    && (e == Store(Deliver(K1)) ==> s.clock <= c.grace + 1 + c.gap)
  }

  /** One step more. */
  lemma Play(c: Config, ss: seq<State>, es: seq<Event>, s: State, e: Event) returns (tt: seq<State>, fs: seq<Event>)
    requires At(c, ss, es, s) && Enabled(c, s, e) && Timely(c, s, e) && PromptAt(c, s, e)
    ensures At(c, tt, fs, Do(c, s, e))
  {
    tt, fs := ss + [Do(c, s, e)], es + [e];
    forall i | 0 <= i < |fs| ensures StepAt(c, tt, fs, i) && TimelyAt(c, tt, fs, i) && PromptAt(c, tt[i], fs[i]) {
      if i < |es| {
        assert StepAt(c, ss, es, i) && TimelyAt(c, ss, es, i) && PromptAt(c, ss[i], es[i]);
        assert tt[i] == ss[i] && tt[i + 1] == ss[i + 1] && fs[i] == es[i];
      }
    }
  }

  lemma Write(c: Config, ss: seq<State>, es: seq<Event>, s: State, w: nat, u: WriterEvent)
    returns (tt: seq<State>, fs: seq<Event>, t: State)
    requires At(c, ss, es, s) && WriterEnabled(s, w, u) && (w == 1 ==> s.clock > c.grace)
    ensures t == DoWriter(c, s, w, u) && At(c, tt, fs, t)
  {
    t := DoWriter(c, s, w, u);
    tt, fs := Play(c, ss, es, s, Writing(w, u));
  }

  lemma Happen(c: Config, ss: seq<State>, es: seq<Event>, s: State, x: StoreEvent)
    returns (tt: seq<State>, fs: seq<Event>, t: State)
    requires At(c, ss, es, s) && StoreEnabled(s, x) && (x.Deliver? ==> TimelyDelivery(c, s, x.k))
    requires x == Deliver(K1) ==> s.clock <= c.grace + 1 + c.gap
    ensures t == DoStore(s, x) && At(c, tt, fs, t)
  {
    t := DoStore(s, x);
    tt, fs := Play(c, ss, es, s, Store(x));
  }

  lemma Collect(c: Config, ss: seq<State>, es: seq<Event>, s: State, r: nat, g: GcEvent)
    returns (tt: seq<State>, fs: seq<Event>, t: State)
    requires At(c, ss, es, s) && GcEnabled(c, s, r, g)
    requires g.Resolve? && r in s.runners ==> !SkipsCommitted(s, s.runners[r])
    requires g.Recheck? && r in s.runners ==> s.clock <= s.runners[r].listedAt + c.cycle
    ensures t == DoRunner(c, s, r, g) && At(c, tt, fs, t)
  {
    t := DoRunner(c, s, r, g);
    tt, fs := Play(c, ss, es, s, Collecting(r, g));
  }

  /** The ledger commit, with its plan worked out beforehand. */
  lemma PassFence(c: Config, ss: seq<State>, es: seq<Event>, s: State, r: nat, R: Runner, plan: PackSweep.Plan,
                  y: Cycle)
    returns (tt: seq<State>, fs: seq<Event>, t: State)
    requires At(c, ss, es, s) && r in s.runners && s.runners[r] == R && R.stage == Clocked && FenceHolds(s, R.ref)
    requires PlanOf(R) == plan && plan.SweepActions? && y == Committing(R, plan, s.etags)
    ensures t == s.(ledger := LedgerObject(y.etag, Some(y.written)), etags := y.etag, cycles := s.cycles + [y],
                    runners := s.runners[r := R.(stage := Committed, cycle := |s.cycles|, todo := plan.delete)])
    ensures At(c, tt, fs, t)
  {
    tt, fs, t := Collect(c, ss, es, s, r, CommitLedger);
  }

  function Committing(R: Runner, plan: PackSweep.Plan, etags: nat): Cycle
    requires plan.SweepActions?
  {
    Cycle(R.ref, R.cold, R.now, R.metas, R.marked, R.grace, PackSweep.NewRows(plan, R.metas, R.cold, R.now), etags + 1)
  }

  // --- the cast ---------------------------------------------------------------------------------------

  const P := Chunk.Digest([1])
  const M := Chunk.Manifest(1, 1, P, [Chunk.Entry(P, P, 0, 1)])
  const K0 := Key(0, 0)
  const K1 := Key(1, 1)
  const First := Attempt(0, K0, Whole([1]), {}, {}, map[], {}, {})
  const W0 := Writer([], Rebase.AbortAll, 1, 0, false, Creating(First, 0))
  const W1 := Writer([], Rebase.AbortAll, 1, 0, false, Idle)

  lemma TheManifest()
    ensures M.Packs() == {P} && WellFormedPayload(Chunked(M)) && Chunked(M).Data() == [1]
  {
    assert Chunk.Slice(M.entries[0]) == [1];
    assert Chunk.Contents(M.entries, 1) == [1] by { assert Chunk.Contents(M.entries, 0) == []; }
    assert M.Packs() == {P} by { assert M.entries[0].pack == P; }
    assert Chunk.Chunks([1], 1) == [[1]] by { assert Chunk.ChunksFrom([1], 1, 1) == []; }
  }

  /** The refreshing writer's attempt; it does everything at time t. */
  function Refreshed(t: nat): Attempt {
    Attempt(1, K1, Chunked(M), {P}, {P}, map[P := t], {P}, {})
  }

  function Metas(t: nat): map<Pack, Option<nat>> {
    map[P := Some(t)]
  }

  const TombstonesP := PackSweep.SweepActions({}, {P}, {}, {})
  const DeletesP := PackSweep.SweepActions({}, {}, {}, {P})

  /** A pack seen cold for the first time at t is only tombstoned. */
  lemma FirstSighting(t: nat, grace: nat, mtime: nat)
    requires t - mtime > grace
    ensures PackSweep.Decide({}, {}, Metas(mtime), map[], t, grace, PackSweep.DEFAULT_MAX_DELETE_FRACTION)
              == TombstonesP
    ensures PackSweep.NewRows(TombstonesP, Metas(mtime), map[], t) == map[P := t]
  {
    assert PackSweep.Cold({}, Metas(mtime), t, grace, P);
    assert PackSweep.Tombstones({}, Metas(mtime), map[], t, grace) == {P};
    assert PackSweep.Deletable({}, Metas(mtime), map[], t, grace) == {};
    assert PackSweep.Resurrected({}, Metas(mtime), map[], t, grace) == {};
  }

  /** Seen cold again more than a grace later, it is deleted. */
  lemma SecondSighting(t: nat, grace: nat, mtime: nat, since: nat)
    requires t - mtime > grace && t - since > grace
    ensures PackSweep.Decide({}, {}, Metas(mtime), map[P := since], t, grace, PackSweep.DEFAULT_MAX_DELETE_FRACTION)
              == DeletesP
    ensures PackSweep.NewRows(DeletesP, Metas(mtime), map[P := since], t) == map[]
  {
    assert PackSweep.Cold({}, Metas(mtime), t, grace, P);
    assert PackSweep.Tombstones({}, Metas(mtime), map[P := since], t, grace) == {};
    assert PackSweep.Deletable({}, Metas(mtime), map[P := since], t, grace) == {P};
    assert PackSweep.Resurrected({}, Metas(mtime), map[P := since], t, grace) == {};
  }

  // --- the first generation, and an old pack nobody references ------------------------------------------

  const Sending := Empty.(sent := map[K0 := First], landed := {K0}, live := {K0}, used := map[0 := 0],
                          writers := map[0 := W0.(phase := Sent(First))])
  const Begun := Sending.(markers := map[0 := Marker(0, false)], proposed := {K0}, writers := map[0 := W0])

  lemma Bootstraps(c: Config) returns (ss: seq<State>, es: seq<Event>)
    ensures At(c, ss, es, Sending)
  {
    var s;
    ss, es, s := [Empty], [], Empty;
    ss, es, s := Write(c, ss, es, s, 0, Bootstrap([1], 1));
    ss, es, s := Write(c, ss, es, s, 0, Plan(0, Whole([1]), {}));
    ss, es, s := Write(c, ss, es, s, 0, Send);
    ss, es, s := Happen(c, ss, es, s, Deliver(K0));
    assert s == Sending;
  }

  lemma LandsFirst(c: Config) returns (ss: seq<State>, es: seq<Event>)
    ensures At(c, ss, es, Begun)
  {
    var s;
    ss, es := Bootstraps(c);
    ss, es, s := Write(c, ss, es, Sending, 0, Ack);
    ss, es, s := Write(c, ss, es, s, 0, Propose);
    ss, es, s := Happen(c, ss, es, s, Land(K0));
    assert s == Begun;
  }

  /** One generation committed; the clock, the pack, the ledger and the participants vary. */
  function Scene(clock: nat, mtime: nat, ledger: Ledger, cycles: seq<Cycle>, used: map<nat, nat>,
                 writers: map<nat, Writer>, runners: map<nat, Runner>): State
  {
    State(clock, map[0 := Marker(0, false)], map[K0 := First], {K0}, {K0}, {}, {K0}, used, map[P := mtime],
          map[P := 0], ledger, |cycles|, cycles, writers, runners)
  }

  const Used0 := map[0 := 0]
  const Used1 := map[0 := 0, 1 := 1]
  const Alone := map[0 := W0]

  function Pair(ph: Phase): map<nat, Writer> {
    map[0 := W0, 1 := W1.(phase := ph)]
  }

  /** Collector r's record at the given stage; it listed at time t and sees the pack as written at mtime. */
  function Listed(c: Config, t: nat, metas: map<Pack, Option<nat>>, pending: set<Key>): Runner {
    Runner(PacksListed, c.retain, c.grace, 0, t, {K0}, {}, metas, pending, None, {}, {}, map[], RefAbsent, 0, 0, {},
           0, None)
  }

  function Fresh(c: Config): Runner {
    Runner(HeadKnown, c.retain, c.grace, 0, 0, {}, {}, map[], {}, None, {}, {}, map[], RefAbsent, 0, 0, {}, 0, None)
  }

  function Clocked0(c: Config, t: nat): Runner {
    Listed(c, t, Metas(0), {}).(stage := Clocked, now := t)
  }

  function Cycle0(c: Config, t: nat): Cycle {
    Cycle(RefAbsent, map[], t, Metas(0), {}, c.grace, map[P := t], 1)
  }

  function Ledger0(t: nat): Ledger {
    LedgerObject(1, Some(map[P := t]))
  }

  function Ages(t: nat): State {
    Scene(t, 0, NoLedger, [], Used0, Alone, map[])
  }

  function AtRest(c: Config, t: nat, R: Runner): State {
    Scene(t, 0, NoLedger, [], Used0, Alone, map[0 := R])
  }

  function Tombstoned(c: Config, t: nat): State {
    Scene(t, 0, Ledger0(t), [Cycle0(c, t)], Used0, Alone, map[0 := Clocked0(c, t).(stage := Committed)])
  }

  /** An earlier upload that timed out lands at time 0 and then nothing happens for a grace and one. */
  lemma PackAges(c: Config, t: nat) returns (ss: seq<State>, es: seq<Event>)
    ensures At(c, ss, es, Ages(t))
  {
    var s;
    ss, es := LandsFirst(c);
    ss, es, s := Happen(c, ss, es, Begun, StrayPut(P));
    ss, es, s := Happen(c, ss, es, s, Tick(t));
    assert s == Ages(t);
  }

  lemma ListsFirst(c: Config, t: nat) returns (ss: seq<State>, es: seq<Event>)
    requires c.retain >= 1
    ensures At(c, ss, es, AtRest(c, t, Listed(c, t, Metas(0), {K0})))
  {
    var s;
    ss, es := PackAges(c, t);
    ss, es, s := Collect(c, ss, es, Ages(t), 0, GcBegin(c.retain, c.grace, 0));
    ss, es, s := Collect(c, ss, es, s, 0, List);
    ss, es, s := Collect(c, ss, es, s, 0, ListPacks);
    assert s.runners[0].kept == {K0} && s.runners[0].expired == {};
    assert s.runners[0].metas == Metas(0);
    assert s.runners == map[0 := Listed(c, t, Metas(0), {K0})];
  }

  lemma MarksFirst(c: Config, t: nat) returns (ss: seq<State>, es: seq<Event>)
    requires c.retain >= 1
    ensures At(c, ss, es, AtRest(c, t, Clocked0(c, t)))
  {
    var s;
    ss, es := ListsFirst(c, t);
    ss, es, s := Collect(c, ss, es, AtRest(c, t, Listed(c, t, Metas(0), {K0})), 0, Peek(K0));
    ss, es, s := Collect(c, ss, es, s, 0, Resolve({}));
    assert s.runners[0].pending == {};
    ss, es, s := Collect(c, ss, es, s, 0, ReadLedger);
    ss, es, s := Collect(c, ss, es, s, 0, ReadClock);
    assert s.runners == map[0 := Clocked0(c, t)];
  }

  lemma FirstPlan(c: Config, t: nat)
    requires t > c.grace
    ensures PlanOf(Clocked0(c, t)) == TombstonesP && Committing(Clocked0(c, t), TombstonesP, 0) == Cycle0(c, t)
  {
    FirstSighting(t, c.grace, 0);
  }

  lemma TombstonesPack(c: Config, t: nat) returns (ss: seq<State>, es: seq<Event>)
    requires c.retain >= 1 && t > c.grace
    ensures At(c, ss, es, Tombstoned(c, t))
  {
    var s;
    ss, es := MarksFirst(c, t);
    FirstPlan(c, t);
    ss, es, s := PassFence(c, ss, es, AtRest(c, t, Clocked0(c, t)), 0, Clocked0(c, t), TombstonesP, Cycle0(c, t));
    assert s.cycles == [Cycle0(c, t)];
    assert s == Tombstoned(c, t);
  }

  // --- a writer refreshes the pack and is a little late --------------------------------------------------

  function Quiet0(c: Config, t: nat): map<nat, Runner> {
    map[0 := Clocked0(c, t).(stage := Committed)]
  }

  /** After time t the tombstone of time t stands and the pack was re-PUT at time t. */
  function Waiting(c: Config, t: nat, clock: nat, ph: Phase, runners: map<nat, Runner>): State {
    Scene(clock, t, Ledger0(t), [Cycle0(c, t)], Used1, Pair(ph), runners)
  }

  lemma Fetches(c: Config, t: nat) returns (ss: seq<State>, es: seq<Event>)
    requires c.retain >= 1 && t > c.grace
    ensures At(c, ss, es, Tombstoned(c, t).(writers := Pair(Based(1, [1]))))
  {
    var s;
    ss, es := TombstonesPack(c, t);
    ss, es, s := Write(c, ss, es, Tombstoned(c, t), 1, Begin([], Rebase.AbortAll, 1));
    ss, es, s := Write(c, ss, es, s, 1, Fetch(0));
    assert s.writers == Pair(Based(1, [1]));
  }

  lemma Plans(c: Config, t: nat) returns (ss: seq<State>, es: seq<Event>)
    requires c.retain >= 1 && t > c.grace
    ensures At(c, ss, es, Planned(c, t))
  {
    var s;
    ss, es := Fetches(c, t);
    TheManifest();
    ss, es, s := Write(c, ss, es, Tombstoned(c, t).(writers := Pair(Based(1, [1]))), 1, Plan(1, Chunked(M), {P}));
    assert s.writers == Planned(c, t).writers;
  }

  function Planned(c: Config, t: nat): State {
    Tombstoned(c, t).(used := Used1,
                      writers := Pair(Publishing(Refreshed(t).(put := {}, refreshed := map[], clean := {}))))
  }

  /** Upload and refresh happen at once, at the time of the tombstone. */
  lemma Uploads(c: Config, t: nat) returns (ss: seq<State>, es: seq<Event>)
    requires c.retain >= 1 && t > c.grace
    ensures At(c, ss, es, Uploaded(c, t))
  {
    var s;
    ss, es := Plans(c, t);
    ss, es, s := Write(c, ss, es, Planned(c, t), 1, PutPack(P));
    assert s.writers[1].phase.a.put == {P};
    assert s.writers == Uploaded(c, t).writers;
    assert s == Uploaded(c, t);
  }

  function Uploaded(c: Config, t: nat): State {
    Tombstoned(c, t).(used := Used1, writers := Pair(Publishing(Refreshed(t).(refreshed := map[], clean := {}))))
  }

  lemma Refreshes(c: Config, t: nat) returns (ss: seq<State>, es: seq<Event>)
    requires c.retain >= 1 && t > c.grace
    ensures At(c, ss, es, Waiting(c, t, t, Publishing(Refreshed(t)), Quiet0(c, t)))
  {
    var s;
    ss, es := Uploads(c, t);
    assert !Doomed(Uploaded(c, t), P);
    ss, es, s := Write(c, ss, es, Uploaded(c, t), 1, Refresh(P));
    assert s.writers[1].phase.a == Refreshed(t);
    assert s.writers == Pair(Publishing(Refreshed(t))) && s.packs == map[P := t];
    assert s == Waiting(c, t, t, Publishing(Refreshed(t)), Quiet0(c, t));
  }

  function SentAt(t: nat): map<Key, Attempt> {
    map[K0 := First, K1 := Refreshed(t)]
  }

  function Both(c: Config, t: nat, R: Runner): map<nat, Runner> {
    map[0 := Clocked0(c, t).(stage := Committed), 1 := R]
  }

  /** The second collector's listing, taken before the manifest is there. */
  function Blind(c: Config, t: nat): Runner {
    Fresh(c).(stage := PayloadsListed, listedAt := t, kept := {K0}, pending := {K0})
  }

  function Dispatched(c: Config, t: nat, u: nat, runners: map<nat, Runner>): State {
    Waiting(c, t, u, Sent(Refreshed(t)), runners).(sent := SentAt(t))
  }

  lemma Sends(c: Config, t: nat) returns (ss: seq<State>, es: seq<Event>)
    requires c.retain >= 1 && t > c.grace
    ensures At(c, ss, es, Dispatched(c, t, t, Quiet0(c, t)))
  {
    var s;
    ss, es := Refreshes(c, t);
    TheManifest();
    ss, es, s := Write(c, ss, es, Waiting(c, t, t, Publishing(Refreshed(t)), Quiet0(c, t)), 1, Send);
    assert s.sent == SentAt(t) && s.writers == Pair(Sent(Refreshed(t)));
  }

  lemma BeginsBlind(c: Config, t: nat, u: nat) returns (ss: seq<State>, es: seq<Event>)
    requires c.retain >= 1 && t > c.grace && t <= u
    ensures At(c, ss, es, Dispatched(c, t, u, Both(c, t, Fresh(c))))
  {
    var s;
    ss, es := Sends(c, t);
    ss, es, s := Happen(c, ss, es, Dispatched(c, t, t, Quiet0(c, t)), Tick(u - t));
    ss, es, s := Collect(c, ss, es, s, 1, GcBegin(c.retain, c.grace, 0));
    assert s.runners == Both(c, t, Fresh(c));
  }

  /** ... the manifest is sent, a second collector lists at time u ... */
  lemma ListsBlind(c: Config, t: nat, u: nat) returns (ss: seq<State>, es: seq<Event>)
    requires c.retain >= 1 && t > c.grace && t <= u
    ensures At(c, ss, es, Dispatched(c, t, u, Both(c, t, Blind(c, u))))
  {
    var s;
    ss, es := BeginsBlind(c, t, u);
    ss, es, s := Collect(c, ss, es, Dispatched(c, t, u, Both(c, t, Fresh(c))), 1, List);
    assert s.runners[1].kept == {K0} && s.runners[1].expired == {};
    assert s.runners == Both(c, t, Blind(c, u));
  }

  const Two := {K0, K1}
  const Marks1 := map[0 := Marker(0, false), 1 := Marker(1, true)]

  /** Both generations are there. */
  function Committed1(c: Config, t: nat, clock: nat, packs: map<Pack, nat>, ledger: Ledger, cycles: seq<Cycle>,
                      R: Runner): State {
    State(clock, Marks1, SentAt(t), Two, Two, {}, Two, Used1, packs, map[P := 0], ledger, |cycles|, cycles,
          Pair(Creating(Refreshed(t), 0)), Both(c, t, R))
  }

  function Pending1(c: Config, t: nat, clock: nat, R: Runner): State {
    Committed1(c, t, clock, map[P := t], Ledger0(t), [Cycle0(c, t)], R)
  }

  function Delivered(c: Config, t: nat, u: nat, ph: Phase): State {
    Waiting(c, t, u, ph, Both(c, t, Blind(c, u))).(sent := SentAt(t), landed := Two, live := Two)
  }

  /** ... and right behind it the manifest lands, at most `gap` after its refresh, and becomes a generation. */
  lemma DeliversBehind(c: Config, t: nat, u: nat) returns (ss: seq<State>, es: seq<Event>)
    requires c.retain >= 1 && t == c.grace + 1 && t <= u <= t + c.gap
    ensures At(c, ss, es, Delivered(c, t, u, Sent(Refreshed(t))))
  {
    var s := Dispatched(c, t, u, Both(c, t, Blind(c, u)));
    ss, es := ListsBlind(c, t, u);
    assert FreshlyRefreshed(c, s, Refreshed(t), P);
    assert s.sent[K1] == Refreshed(t);
    ss, es, s := Happen(c, ss, es, s, Deliver(K1));
    assert s.landed == Two && s.live == Two;
  }

  lemma AcksBehind(c: Config, t: nat, u: nat) returns (ss: seq<State>, es: seq<Event>)
    requires c.retain >= 1 && t == c.grace + 1 && t <= u <= t + c.gap
    ensures At(c, ss, es, Delivered(c, t, u, Landed(Refreshed(t))))
  {
    var s;
    ss, es := DeliversBehind(c, t, u);
    ss, es, s := Write(c, ss, es, Delivered(c, t, u, Sent(Refreshed(t))), 1, Ack);
    assert s.writers == Pair(Landed(Refreshed(t)));
  }

  lemma CommitsBehind(c: Config, t: nat, u: nat, v: nat) returns (ss: seq<State>, es: seq<Event>)
    requires c.retain >= 1 && t == c.grace + 1 && t <= u <= t + c.gap && u <= v
    ensures At(c, ss, es, Pending1(c, t, v, Blind(c, u)))
  {
    var s;
    ss, es := AcksBehind(c, t, u);
    ss, es, s := Write(c, ss, es, Delivered(c, t, u, Landed(Refreshed(t))), 1, Propose);
    assert s.proposed == Two && s.writers == Pair(Creating(Refreshed(t), 0));
    ss, es, s := Happen(c, ss, es, s, Land(K1));
    assert s.markers == Marks1;
    ss, es, s := Happen(c, ss, es, s, Tick(v - u));
    assert s == Pending1(c, t, v, Blind(c, u));
  }

  // --- the second collector finishes within `cycle` --------------------------------------------------------

  function Clocked1(c: Config, t: nat, u: nat, v: nat): Runner {
    Listed(c, u, Metas(t), {}).(stage := Clocked, cold := map[P := t], ref := RefAt(1), now := v)
  }

  function Cycle1(c: Config, t: nat, v: nat): Cycle {
    Cycle(RefAt(1), map[P := t], v, Metas(t), {}, c.grace, map[], 2)
  }

  lemma MarksBlind(c: Config, t: nat, u: nat, v: nat) returns (ss: seq<State>, es: seq<Event>)
    requires c.retain >= 1 && t == c.grace + 1 && t <= u <= t + c.gap && u <= v
    ensures At(c, ss, es, Pending1(c, t, v, Listed(c, u, Metas(t), {})))
  {
    var s;
    ss, es := CommitsBehind(c, t, u, v);
    ss, es, s := Collect(c, ss, es, Pending1(c, t, v, Blind(c, u)), 1, ListPacks);
    assert s.runners[1].metas == Metas(t);
    ss, es, s := Collect(c, ss, es, s, 1, Peek(K0));
    ss, es, s := Collect(c, ss, es, s, 1, Resolve({}));
    assert s.runners[1].pending == {};
    assert s.runners == Both(c, t, Listed(c, u, Metas(t), {}));
  }

  lemma ClocksBlind(c: Config, t: nat, u: nat, v: nat) returns (ss: seq<State>, es: seq<Event>)
    requires c.retain >= 1 && t == c.grace + 1 && t <= u <= t + c.gap && u <= v
    ensures At(c, ss, es, Pending1(c, t, v, Clocked1(c, t, u, v)))
  {
    var s;
    ss, es := MarksBlind(c, t, u, v);
    ss, es, s := Collect(c, ss, es, Pending1(c, t, v, Listed(c, u, Metas(t), {})), 1, ReadLedger);
    ss, es, s := Collect(c, ss, es, s, 1, ReadClock);
    assert s.runners == Both(c, t, Clocked1(c, t, u, v));
  }

  lemma SecondPlan(c: Config, t: nat, u: nat, v: nat)
    requires v > t + c.grace
    ensures var s := Pending1(c, t, v, Clocked1(c, t, u, v));
            && PlanOf(Clocked1(c, t, u, v)) == DeletesP
                && Committing(Clocked1(c, t, u, v), DeletesP, s.etags) == Cycle1(c, t, v)
            && 1 in s.runners && s.runners[1] == Clocked1(c, t, u, v) && FenceHolds(s, RefAt(1))
  {
    SecondSighting(v, c.grace, t, t);
  }

  function Fenced(c: Config, t: nat, v: nat, packs: map<Pack, nat>, R: Runner): State {
    Committed1(c, t, v, packs, LedgerObject(2, Some(map[])), [Cycle0(c, t)] + [Cycle1(c, t, v)], R)
  }

  lemma FencesBlind(c: Config, t: nat, u: nat, v: nat) returns (ss: seq<State>, es: seq<Event>)
    requires c.retain >= 1 && t == c.grace + 1 && t <= u <= t + c.gap && u <= v && v > t + c.grace
    ensures At(c, ss, es,
               Fenced(c, t, v, map[P := t], Clocked1(c, t, u, v).(stage := Committed, cycle := 1, todo := {P})))
  {
    var s := Pending1(c, t, v, Clocked1(c, t, u, v));
    ss, es := ClocksBlind(c, t, u, v);
    SecondPlan(c, t, u, v);
    ss, es, s := PassFence(c, ss, es, s, 1, Clocked1(c, t, u, v), DeletesP, Cycle1(c, t, v));
    FenceEffect(c, t, u, v, s);
  }

  lemma FenceEffect(c: Config, t: nat, u: nat, v: nat, s: State)
    requires s == Pending1(c, t, v, Clocked1(c, t, u, v)).(
                    ledger := LedgerObject(2, Some(map[])), etags := 2, cycles := [Cycle0(c, t)] + [Cycle1(c, t, v)],
                    runners := Both(c, t, Clocked1(c, t, u, v))[
                                 1 := Clocked1(c, t, u, v).(stage := Committed, cycle := 1, todo := {P})])
    ensures s == Fenced(c, t, v, map[P := t], Clocked1(c, t, u, v).(stage := Committed, cycle := 1, todo := {P}))
  {
    assert s.runners == Both(c, t, Clocked1(c, t, u, v).(stage := Committed, cycle := 1, todo := {P}));
  }

  function Rechecked1(c: Config, t: nat, u: nat, v: nat): Runner {
    Clocked1(c, t, u, v).(stage := Rechecked, cycle := 1, recheck := v, doomed := Some(P))
  }

  lemma CondemnsBlind(c: Config, t: nat, u: nat, v: nat) returns (ss: seq<State>, es: seq<Event>)
    requires c.retain >= 1 && t == c.grace + 1 && t <= u <= t + c.gap && u <= v <= u + c.cycle && v > t + c.grace
    ensures At(c, ss, es, Fenced(c, t, v, map[P := t], Rechecked1(c, t, u, v)))
  {
    var s := Fenced(c, t, v, map[P := t], Clocked1(c, t, u, v).(stage := Committed, cycle := 1, todo := {P}));
    ss, es := FencesBlind(c, t, u, v);
    ss, es, s := Collect(c, ss, es, s, 1, Recheck);
    ss, es, s := Collect(c, ss, es, s, 1, HeadPack(P));
    assert s.runners[1].todo == {};
    assert s.runners == Both(c, t, Rechecked1(c, t, u, v));
  }

  /** A committed generation of the window references a pack that is not there. */
  ghost predicate Loses(c: Config, s: State, g: nat, p: Pack) {
    g in s.markers && g + c.retain >= Top(s) && p in PacksOf(s, KeyOf(s, g)) && p !in s.packs
  }

  ghost predicate LosingRun(c: Config, ss: seq<State>, es: seq<Event>, i: nat, g: nat, p: Pack) {
    IsTimelyRun(c, ss, es) && i < |ss| && Loses(c, ss[i], g, p)
  }

  lemma DeletesHead(c: Config, t: nat, u: nat, v: nat) returns (ss: seq<State>, es: seq<Event>)
    requires c.retain >= 1 && t == c.grace + 1 && t <= u <= t + c.gap && u <= v <= u + c.cycle && v > t + c.grace
    ensures LosingRun(c, ss, es, |es|, 1, P) && Prompt(c, ss, es)
    ensures ss[|es|].sent == SentAt(t)
  {
    var s;
    ss, es := CondemnsBlind(c, t, u, v);
    ss, es, s := Collect(c, ss, es, Fenced(c, t, v, map[P := t], Rechecked1(c, t, u, v)), 1, Delete);
    TheManifest();
    assert |s.markers.Keys| == |{0, 1}|;
  }

  /**
   * One grace, not two: with collectors that take no time, a writer loses its pack that stalls, from its first move to
   * the landing of its manifest, for at most one unit over one grace. The pack was there before, from an earlier
   * upload, and had its tombstone; the refresh did not fall between a re-HEAD and its DELETE.
   */
  lemma OneGraceNotTwo(c: Config) returns (ss: seq<State>, es: seq<Event>)
    requires c.retain >= 1 && c.gap == c.grace + 1 && c.cycle == 0
    ensures LosingRun(c, ss, es, |es|, 1, P) && Prompt(c, ss, es)
    ensures var s := ss[|es|]; K1 in s.sent && P in s.sent[K1].clean && P in s.sent[K1].refreshed
  {
    var t := c.grace + 1;
    ss, es := DeletesHead(c, t, t + c.gap, t + c.gap);
  }

  /**
   * The exact bound. Timely runs never lose a pack of the window if and only if gap + cycle <= grace: otherwise a
   * writer that does everything after the pack got its tombstone, and stalls for `gap` only, can lose it.
   */
  lemma SafetyBoundIsExact(c: Config)
    requires c.retain >= 1
    ensures c.gap + c.cycle <= c.grace <==> forall ss, es, i: nat, g: nat, p :: !LosingRun(c, ss, es, i, g, p)
  {
    if c.gap + c.cycle <= c.grace {
      forall ss, es, i: nat, g: nat, p ensures !LosingRun(c, ss, es, i, g, p) {
        if LosingRun(c, ss, es, i, g, p) { LakeTheorems.PackSafety(c, ss, es, i, g, p); }
      }
    } else {
      var t := c.grace + 1;
      var ss, es := DeletesHead(c, t, t + c.gap, t + c.gap + c.cycle);
      assert LosingRun(c, ss, es, |es|, 1, P);
    }
  }
}

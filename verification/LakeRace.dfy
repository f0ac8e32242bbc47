/**
 * Why the third assumption is there: let one generation more than `retain` land while a collector goes from a marker to
 * its payload, and a pack of the head can be lost although everything else is in time, whatever the configuration.
 */
module LakeRace {
  import opened Wrappers
  import opened Lake
  import opened LakeBound
  import Rebase
  import LakeCommit
  import LakeTheorems
  import LakeCalm

  // --- playing a punctual run ------------------------------------------------------------------------

  ghost predicate Upto(c: Config, ss: seq<State>, es: seq<Event>, s: State) {
    |ss| == |es| + 1 && ss[|es|] == s && LakeCalm.PunctualRun(c, ss, es)
  }

  lemma TimelyIsPunctual(c: Config, ss: seq<State>, es: seq<Event>, s: State)
    requires At(c, ss, es, s)
    ensures Upto(c, ss, es, s)
  {
    forall i | 0 <= i < |es| ensures LakeCalm.PunctualAt(c, ss, es, i) { assert TimelyAt(c, ss, es, i); }
  }

  lemma Go(c: Config, ss: seq<State>, es: seq<Event>, s: State, e: Event) returns (tt: seq<State>, fs: seq<Event>)
    requires Upto(c, ss, es, s) && Enabled(c, s, e) && Punctual(c, s, e)
    ensures Upto(c, tt, fs, Do(c, s, e))
  {
    tt, fs := ss + [Do(c, s, e)], es + [e];
    forall i | 0 <= i < |fs| ensures StepAt(c, tt, fs, i) && LakeCalm.PunctualAt(c, tt, fs, i) {
      if i < |es| {
        assert StepAt(c, ss, es, i) && LakeCalm.PunctualAt(c, ss, es, i);
        assert tt[i] == ss[i] && tt[i + 1] == ss[i + 1] && fs[i] == es[i];
      }
    }
  }

  lemma Writes(c: Config, ss: seq<State>, es: seq<Event>, s: State, w: nat, u: WriterEvent)
    returns (tt: seq<State>, fs: seq<Event>, t: State)
    requires Upto(c, ss, es, s) && WriterEnabled(s, w, u)
    ensures t == DoWriter(c, s, w, u) && Upto(c, tt, fs, t)
  {
    t := DoWriter(c, s, w, u);
    tt, fs := Go(c, ss, es, s, Writing(w, u));
  }

  lemma Happens(c: Config, ss: seq<State>, es: seq<Event>, s: State, x: StoreEvent)
    returns (tt: seq<State>, fs: seq<Event>, t: State)
    requires Upto(c, ss, es, s) && StoreEnabled(s, x) && (x.Deliver? ==> TimelyDelivery(c, s, x.k))
    ensures t == DoStore(s, x) && Upto(c, tt, fs, t)
  {
    t := DoStore(s, x);
    tt, fs := Go(c, ss, es, s, Store(x));
  }

  lemma Collects(c: Config, ss: seq<State>, es: seq<Event>, s: State, r: nat, g: GcEvent)
    returns (tt: seq<State>, fs: seq<Event>, t: State)
    requires Upto(c, ss, es, s) && GcEnabled(c, s, r, g)
    requires g.Recheck? && r in s.runners ==> s.clock <= s.runners[r].listedAt + c.cycle
    ensures t == DoRunner(c, s, r, g) && Upto(c, tt, fs, t)
  {
    t := DoRunner(c, s, r, g);
    tt, fs := Go(c, ss, es, s, Collecting(r, g));
  }

  // --- a collector looks for the marker just before it lands ----------------------------------------------

  /** A pack tombstoned and refreshed at t; at v its manifest is about to become generation 1. */
  function Proposed(c: Config, t: nat, v: nat, runners: map<nat, Runner>): State {
    Dispatched(c, t, v, runners).(landed := Two, live := Two, proposed := Two,
                                  writers := Pair(Creating(Refreshed(t), 0)))
  }

  lemma Arrives(c: Config, t: nat) returns (ss: seq<State>, es: seq<Event>)
    requires c.retain >= 1 && t > c.grace
    ensures Upto(c, ss, es, There(c, t))
  {
    var s := Dispatched(c, t, t, Quiet0(c, t));
    ss, es := Sends(c, t);
    TimelyIsPunctual(c, ss, es, s);
    assert FreshlyRefreshed(c, s, Refreshed(t), P);
    assert s.sent[K1] == Refreshed(t);
    ss, es, s := Happens(c, ss, es, s, Deliver(K1));
    assert s.landed == Two && s.live == Two;
    assert s == There(c, t);
  }

  function There(c: Config, t: nat): State {
    Dispatched(c, t, t, Quiet0(c, t)).(landed := Two, live := Two)
  }

  lemma Proposes(c: Config, t: nat) returns (ss: seq<State>, es: seq<Event>)
    requires c.retain >= 1 && t > c.grace
    ensures Upto(c, ss, es, Proposed(c, t, t, Quiet0(c, t)))
  {
    var s;
    ss, es := Arrives(c, t);
    ss, es, s := Writes(c, ss, es, There(c, t), 1, Ack);
    ss, es, s := Writes(c, ss, es, s, 1, Propose);
    assert s.proposed == Two && s.writers == Pair(Creating(Refreshed(t), 0));
    assert s == Proposed(c, t, t, Quiet0(c, t));
  }

  /** The collector's record after its listings; it kept both payloads. */
  function Keeper(c: Config, t: nat, v: nat, pending: set<Key>): Runner {
    Listed(c, v, Metas(t), pending).(kept := Two)
  }

  lemma Begins(c: Config, t: nat, v: nat) returns (ss: seq<State>, es: seq<Event>)
    requires c.retain >= 1 && t > c.grace && t <= v
    ensures Upto(c, ss, es, Proposed(c, t, v, Both(c, t, Fresh(c))))
  {
    var s;
    ss, es := Proposes(c, t);
    ss, es, s := Happens(c, ss, es, Proposed(c, t, t, Quiet0(c, t)), Tick(v - t));
    ss, es, s := Collects(c, ss, es, s, 1, GcBegin(c.retain, c.grace, 0));
    assert s.runners == Both(c, t, Fresh(c));
    assert s == Proposed(c, t, v, Both(c, t, Fresh(c)));
  }

  lemma ListsBoth(c: Config, t: nat, v: nat) returns (ss: seq<State>, es: seq<Event>)
    requires c.retain >= 1 && t > c.grace && t <= v
    ensures Upto(c, ss, es, Proposed(c, t, v, Both(c, t, Keeper(c, t, v, Two))))
  {
    var s;
    ss, es := Begins(c, t, v);
    ss, es, s := Collects(c, ss, es, Proposed(c, t, v, Both(c, t, Fresh(c))), 1, List);
    assert s.runners[1].kept == Two && s.runners[1].expired == {};
    ss, es, s := Collects(c, ss, es, s, 1, ListPacks);
    assert s.runners[1].metas == Metas(t);
    assert s.runners == Both(c, t, Keeper(c, t, v, Two));
  }

  /** It has seen that generation 1 has no marker yet. */
  function Peeked(c: Config, t: nat, v: nat): Runner {
    Keeper(c, t, v, {K1}).(peek := Some((K1, false)))
  }

  lemma Peeks(c: Config, t: nat, v: nat) returns (ss: seq<State>, es: seq<Event>)
    requires c.retain >= 1 && t > c.grace && t <= v
    ensures Upto(c, ss, es, Proposed(c, t, v, Both(c, t, Peeked(c, t, v))))
  {
    var s;
    ss, es := ListsBoth(c, t, v);
    ss, es, s := Collects(c, ss, es, Proposed(c, t, v, Both(c, t, Keeper(c, t, v, Two))), 1, Peek(K0));
    ss, es, s := Collects(c, ss, es, s, 1, Resolve({}));
    assert s.runners[1].pending == {K1};
    ss, es, s := Collects(c, ss, es, s, 1, Peek(K1));
    assert s.runners == Both(c, t, Peeked(c, t, v));
  }

  // --- generations land, each inheriting the pack ------------------------------------------------------------

  function KeyFor(g: nat): Key {
    Key(g, g)
  }

  /** The attempt that makes generation g out of its predecessor's pack. */
  function Heir(g: nat): Attempt {
    Attempt(g, KeyFor(g), Chunked(M), {}, {}, map[], {}, {P})
  }

  const Idler := Writer([], Rebase.AbortAll, 1, 0, false, Idle)

  /** What the race holds fixed while generations land. */
  ghost predicate Frozen(c: Config, t: nat, v: nat, s: State) {
    && s.clock == v && s.packs == map[P := t] && s.ledger == Ledger0(t) && s.etags == 1 && s.cycles == [Cycle0(c, t)]
    && s.runners == Both(c, t, Peeked(c, t, v))
  }

  /** Generations 0 .. n exist, the last of them with the pack; writers and identifiers are 0 .. n. */
  ghost predicate Grown(s: State, n: nat) {
    && n >= 1 && Top(s) == n + 1 && (forall g: nat :: g in s.markers <==> g <= n)
    && (forall w: nat :: w in s.writers <==> w <= n) && (forall i: nat :: i in s.used <==> i <= n)
    && (forall k :: k in s.sent || k in s.live || k in s.proposed ==> k.gen <= n)
    && s.dropped == {} && K1 in s.live && K1 in s.sent && s.markers[1].id == 1
    && HeadIs(s, n)
  }

  ghost predicate HeadIs(s: State, n: nat) {
    && n in s.markers && s.markers[n] == Marker(n, true)
    && KeyFor(n) in s.live && KeyFor(n) in s.sent && s.sent[KeyFor(n)].body == Chunked(M)
  }

  function Overtaken(c: Config, t: nat, v: nat): State {
    Proposed(c, t, v, Both(c, t, Peeked(c, t, v))).(markers := Marks1)
  }

  lemma Overtakes(c: Config, t: nat, v: nat) returns (ss: seq<State>, es: seq<Event>)
    requires c.retain >= 1 && t > c.grace && t <= v
    ensures Upto(c, ss, es, Overtaken(c, t, v))
  {
    var s;
    ss, es := Peeks(c, t, v);
    ss, es, s := Happens(c, ss, es, Proposed(c, t, v, Both(c, t, Peeked(c, t, v))), Land(K1));
    assert s.markers == Marks1;
  }

  lemma OvertakenIsGrown(c: Config, t: nat, v: nat)
    ensures Raced(c, t, v, Overtaken(c, t, v), 1)
  {
    OvertakenHead(c, t, v);
    OvertakenGrown(c, t, v);
  }

  lemma OvertakenGrown(c: Config, t: nat, v: nat)
    requires HeadIs(Overtaken(c, t, v), 1)
    ensures Grown(Overtaken(c, t, v), 1)
  {
    var s := Overtaken(c, t, v);
    assert s.markers.Keys == {0, 1} && s.writers.Keys == {0, 1} && s.used.Keys == {0, 1} && s.sent.Keys == Two;
    OneIsGrown(s);
  }

  lemma OneIsGrown(s: State)
    requires s.markers.Keys == {0, 1} && s.writers.Keys == {0, 1} && s.used.Keys == {0, 1} && s.sent.Keys == Two
    requires s.live == Two && s.proposed == Two && s.dropped == {} && s.markers[1].id == 1 && HeadIs(s, 1)
    ensures Grown(s, 1)
  {
  }

  lemma OvertakenHead(c: Config, t: nat, v: nat)
    ensures HeadIs(Overtaken(c, t, v), 1)
  {
  }

  // Six snapshots of generation n + 1 being made on state s.

  function Based1(s: State, n: nat): State {
    s.(writers := s.writers[n + 1 := Idler.(phase := Based(n + 1, [1]))])
  }

  function Planned1(s: State, n: nat): State {
    s.(used := s.used[n + 1 := n + 1],
       writers := s.writers[n + 1 := Idler.(phase := Publishing(Heir(n + 1).(checked := {})))])
  }

  function Checked1(s: State, n: nat): State {
    Planned1(s, n).(writers := s.writers[n + 1 := Idler.(phase := Publishing(Heir(n + 1)))])
  }

  function Sent1(s: State, n: nat): State {
    s.(used := s.used[n + 1 := n + 1], sent := s.sent[KeyFor(n + 1) := Heir(n + 1)],
       writers := s.writers[n + 1 := Idler.(phase := Sent(Heir(n + 1)))])
  }

  function Landed1(s: State, n: nat, ph: Phase): State {
    Sent1(s, n).(landed := s.landed + {KeyFor(n + 1)}, live := s.live + {KeyFor(n + 1)},
                 writers := s.writers[n + 1 := Idler.(phase := ph)])
  }

  function Next1(s: State, n: nat): State {
    Landed1(s, n, Creating(Heir(n + 1), 0)).(proposed := s.proposed + {KeyFor(n + 1)},
                                             markers := s.markers[n + 1 := Marker(n + 1, true)])
  }

  lemma FetchesNext(c: Config, ss: seq<State>, es: seq<Event>, s: State, n: nat)
    returns (tt: seq<State>, fs: seq<Event>)
    requires Upto(c, ss, es, s) && HeadIs(s, n) && n + 1 !in s.writers
    ensures Upto(c, tt, fs, Based1(s, n))
  {
    var s';
    TheManifest();
    tt, fs, s' := Writes(c, ss, es, s, n + 1, Begin([], Rebase.AbortAll, 1));
    tt, fs, s' := Writes(c, tt, fs, s', n + 1, Fetch(n));
    assert s'.writers == Based1(s, n).writers;
  }

  lemma PlansNext(c: Config, ss: seq<State>, es: seq<Event>, s: State, n: nat) returns (tt: seq<State>, fs: seq<Event>)
    requires Upto(c, ss, es, Based1(s, n)) && HeadIs(s, n) && n + 1 !in s.used
    ensures Upto(c, tt, fs, Planned1(s, n))
  {
    var s';
    CanPlanNext(s, n);
    tt, fs, s' := Writes(c, ss, es, Based1(s, n), n + 1, Plan(n + 1, Chunked(M), {}));
    assert s'.writers == Planned1(s, n).writers;
  }

  lemma CanPlanNext(s: State, n: nat)
    requires HeadIs(s, n) && n + 1 !in s.used
    ensures WriterEnabled(Based1(s, n), n + 1, Plan(n + 1, Chunked(M), {}))
  {
    TheManifest();
  }

  lemma SendsNext(c: Config, ss: seq<State>, es: seq<Event>, s: State, n: nat) returns (tt: seq<State>, fs: seq<Event>)
    requires Upto(c, ss, es, Planned1(s, n)) && P in s.packs
    ensures Upto(c, tt, fs, Sent1(s, n))
  {
    var s';
    tt, fs := ChecksNext(c, ss, es, s, n);
    CanSendNext(s, n);
    tt, fs, s' := Writes(c, tt, fs, Checked1(s, n), n + 1, Send);
    assert s'.writers == Sent1(s, n).writers;
  }

  lemma CanSendNext(s: State, n: nat)
    requires P in s.packs
    ensures WriterEnabled(Checked1(s, n), n + 1, Send)
  {
    TheManifest();
  }

  lemma ChecksNext(c: Config, ss: seq<State>, es: seq<Event>, s: State, n: nat) returns (tt: seq<State>, fs: seq<Event>)
    requires Upto(c, ss, es, Planned1(s, n)) && P in s.packs
    ensures Upto(c, tt, fs, Checked1(s, n))
  {
    var s';
    TheManifest();
    tt, fs, s' := Writes(c, ss, es, Planned1(s, n), n + 1, Check(P));
    assert s'.writers[n + 1].phase.a == Heir(n + 1);
    assert s'.writers == Checked1(s, n).writers;
  }

  lemma LandsNext(c: Config, ss: seq<State>, es: seq<Event>, s: State, n: nat) returns (tt: seq<State>, fs: seq<Event>)
    requires Upto(c, ss, es, Sent1(s, n)) && KeyFor(n + 1) !in s.live
    ensures Upto(c, tt, fs, Landed1(s, n, Landed(Heir(n + 1))))
  {
    var s';
    tt, fs, s' := Happens(c, ss, es, Sent1(s, n), Deliver(KeyFor(n + 1)));
    tt, fs, s' := Writes(c, tt, fs, s', n + 1, Ack);
    assert s'.writers == Landed1(s, n, Landed(Heir(n + 1))).writers;
  }

  lemma CommitsNext(c: Config, ss: seq<State>, es: seq<Event>, s: State, n: nat)
    returns (tt: seq<State>, fs: seq<Event>)
    requires Upto(c, ss, es, Landed1(s, n, Landed(Heir(n + 1)))) && n + 1 !in s.markers
    ensures Upto(c, tt, fs, Next1(s, n))
  {
    var s';
    tt, fs, s' := Writes(c, ss, es, Landed1(s, n, Landed(Heir(n + 1))), n + 1, Propose);
    assert s'.writers == Next1(s, n).writers;
    tt, fs, s' := Happens(c, tt, fs, s', Land(KeyFor(n + 1)));
    assert s'.markers == Next1(s, n).markers;
  }

  lemma NextIsGrown(s: State, n: nat)
    requires Grown(s, n)
    ensures Grown(Next1(s, n), n + 1)
  {
  }

  lemma OneMore(c: Config, ss: seq<State>, es: seq<Event>, s: State, n: nat) returns (tt: seq<State>, fs: seq<Event>)
    requires Upto(c, ss, es, s) && HeadIs(s, n) && n + 1 !in s.writers && n + 1 !in s.used && P in s.packs
    requires KeyFor(n + 1) !in s.live && n + 1 !in s.markers
    ensures Upto(c, tt, fs, Next1(s, n))
  {
    tt, fs := FetchesNext(c, ss, es, s, n);
    tt, fs := PlansNext(c, tt, fs, s, n);
    tt, fs := SendsNext(c, tt, fs, s, n);
    tt, fs := LandsNext(c, tt, fs, s, n);
    tt, fs := CommitsNext(c, tt, fs, s, n);
  }

  /** A state of the race with generations 0 .. m. */
  ghost predicate Raced(c: Config, t: nat, v: nat, s: State, m: nat) {
    Frozen(c, t, v, s) && Grown(s, m)
  }

  lemma RaceGoesOn(c: Config, t: nat, v: nat, s: State, n: nat)
    requires Raced(c, t, v, s, n)
    ensures Raced(c, t, v, Next1(s, n), n + 1)
    ensures HeadIs(s, n) && n + 1 !in s.writers && n + 1 !in s.used && P in s.packs
    ensures KeyFor(n + 1) !in s.live && n + 1 !in s.markers
  {
    NextIsGrown(s, n);
  }

  /** Generations 2 .. m land on top of generation 1. */
  lemma {:induction false} Grows(c: Config, t: nat, v: nat, m: nat) returns (ss: seq<State>, es: seq<Event>, s: State)
    requires c.retain >= 1 && t > c.grace && t <= v && m >= 1
    ensures Upto(c, ss, es, s) && Raced(c, t, v, s, m)
  {
    if m == 1 {
      ss, es := Overtakes(c, t, v);
      s := Overtaken(c, t, v);
      OvertakenIsGrown(c, t, v);
    } else {
      ss, es, s := Grows(c, t, v, m - 1);
      ss, es, s := GrowsOn(c, t, v, ss, es, s, m - 1);
    }
  }

  lemma GrowsOn(c: Config, t: nat, v: nat, ss: seq<State>, es: seq<Event>, s: State, n: nat)
    returns (tt: seq<State>, fs: seq<Event>, s': State)
    requires Upto(c, ss, es, s) && Raced(c, t, v, s, n)
    ensures Upto(c, tt, fs, s') && Raced(c, t, v, s', n + 1)
  {
    RaceGoesOn(c, t, v, s, n);
    tt, fs := OneMore(c, ss, es, s, n);
    s' := Next1(s, n);
  }

  // --- the sweep, the skip, and the delete ----------------------------------------------------------------------

  /** A third collector lists at head n: with n = retain + 1, generation 1 has left the window. */
  lemma SweepsMiddle(c: Config, ss: seq<State>, es: seq<Event>, s: State, n: nat)
    returns (tt: seq<State>, fs: seq<Event>, R: Runner)
    requires Upto(c, ss, es, s) && 2 !in s.runners && HeadIs(s, n) && n == c.retain + 1 && c.retain >= 1 && K1 in s.live
    ensures Upto(c, tt, fs, s.(runners := s.runners[2 := R], live := s.live - {K1}))
  {
    var s';
    tt, fs, s' := Collects(c, ss, es, s, 2, GcBegin(c.retain, c.grace, n));
    tt, fs, s' := Collects(c, tt, fs, s', 2, List);
    R := s'.runners[2];
    assert K1 in R.expired;
    tt, fs, s' := Collects(c, tt, fs, s', 2, Sweep(K1));
    assert s'.runners == s.runners[2 := R];
  }

  /** What the late collector's end depends on. */
  ghost predicate Doomsday(c: Config, t: nat, v: nat, s: State, R: Runner) {
    && s.clock == v && s.packs == map[P := t] && s.ledger == Ledger0(t) && s.etags == 1 && s.cycles == [Cycle0(c, t)]
    && 1 in s.runners && s.runners[1] == R
  }

  function WithRunner(s: State, R: Runner): State {
    s.(runners := s.runners[1 := R])
  }

  lemma SkipsMiddle(c: Config, ss: seq<State>, es: seq<Event>, t: nat, v: nat, s: State)
    returns (tt: seq<State>, fs: seq<Event>)
    requires Upto(c, ss, es, s) && Doomsday(c, t, v, s, Peeked(c, t, v)) && K1 !in s.live
    ensures Upto(c, tt, fs, WithRunner(s, Keeper(c, t, v, {})))
  {
    var s';
    tt, fs, s' := Collects(c, ss, es, s, 1, Resolve({}));
    assert s'.runners[1].pending == {};
    assert s'.runners == s.runners[1 := Keeper(c, t, v, {})];
  }

  function Decider(c: Config, t: nat, v: nat): Runner {
    Clocked1(c, t, v, v).(kept := Two)
  }

  lemma DecidesBlind(c: Config, ss: seq<State>, es: seq<Event>, t: nat, v: nat, s: State)
    returns (tt: seq<State>, fs: seq<Event>)
    requires Upto(c, ss, es, s) && Doomsday(c, t, v, s, Keeper(c, t, v, {}))
    ensures Upto(c, tt, fs, WithRunner(s, Decider(c, t, v)))
  {
    var s';
    tt, fs, s' := Collects(c, ss, es, s, 1, ReadLedger);
    tt, fs, s' := Collects(c, tt, fs, s', 1, ReadClock);
    assert s'.runners == s.runners[1 := Decider(c, t, v)];
  }

  lemma DecidersPlan(c: Config, t: nat, v: nat)
    requires v > t + c.grace
    ensures PlanOf(Decider(c, t, v)) == DeletesP && Committing(Decider(c, t, v), DeletesP, 1) == Cycle1(c, t, v)
  {
    SecondSighting(v, c.grace, t, t);
  }

  lemma FencesBlindly(c: Config, ss: seq<State>, es: seq<Event>, t: nat, v: nat, s: State)
    returns (tt: seq<State>, fs: seq<Event>, s': State)
    requires Upto(c, ss, es, s) && Doomsday(c, t, v, s, Decider(c, t, v)) && v > t + c.grace
    ensures Upto(c, tt, fs, s') && 1 in s'.runners
    ensures s'.runners[1] == Decider(c, t, v).(stage := Committed, cycle := 1, todo := {P})
    ensures s'.clock == v && s'.packs == map[P := t] && s'.markers == s.markers && s'.sent == s.sent
  {
    DecidersPlan(c, t, v);
    tt, fs, s' := Collects(c, ss, es, s, 1, CommitLedger);
  }

  lemma DeletesBlindly(c: Config, ss: seq<State>, es: seq<Event>, t: nat, v: nat, s: State)
    returns (tt: seq<State>, fs: seq<Event>, s': State)
    requires Upto(c, ss, es, s) && 1 in s.runners && s.clock == v && s.packs == map[P := t] && v > t + c.grace
    requires s.runners[1] == Decider(c, t, v).(stage := Committed, cycle := 1, todo := {P})
    ensures Upto(c, tt, fs, s') && s'.markers == s.markers && s'.sent == s.sent && P !in s'.packs
  {
    tt, fs, s' := Collects(c, ss, es, s, 1, Recheck);
    tt, fs, s' := Collects(c, tt, fs, s', 1, HeadPack(P));
    tt, fs, s' := Collects(c, tt, fs, s', 1, Delete);
  }

  /**
   * The whole run: generations 0 .. retain + 1, and the head's pack is gone. The lease does not exclude it. The
   * sweeping rival took the lease first and stalled past its ttl before it resolved the head; a sweep only renews after
   * every 50th deletion. Meanwhile the late collector took the lease over, so that its renewal before the ledger commit
   * succeeds.
   */
  lemma LosesHead(c: Config) returns (ss: seq<State>, es: seq<Event>)
    requires c.retain >= 1
    ensures LakeCalm.PunctualRun(c, ss, es) && Loses(c, ss[|es|], c.retain + 1, P) && Top(ss[|es|]) == c.retain + 2
  {
    var t, v, n := c.grace + 1, 2 * c.grace + 2, c.retain + 1;
    var s, R;
    ss, es, s := Grows(c, t, v, n);
    ss, es, R := SweepsMiddle(c, ss, es, s, n);
    s := s.(runners := s.runners[2 := R], live := s.live - {K1});
    ss, es := SkipsMiddle(c, ss, es, t, v, s);
    s := WithRunner(s, Keeper(c, t, v, {}));
    ss, es := DecidesBlind(c, ss, es, t, v, s);
    s := WithRunner(s, Decider(c, t, v));
    ss, es, s := FencesBlindly(c, ss, es, t, v, s);
    ss, es, s := DeletesBlindly(c, ss, es, t, v, s);
    TheManifest();
  }

  // --- the exact bound -------------------------------------------------------------------------------------------

  /** A run in time, with at most n generations between any marker read and its payload read, that loses a pack. */
  ghost predicate CalmLosingRun(c: Config, n: nat, ss: seq<State>, es: seq<Event>, i: nat, g: nat, p: Pack) {
    LakeCalm.PunctualRun(c, ss, es) && LakeCalm.Calm(n, ss, es) && i < |ss| && Loses(c, ss[i], g, p)
  }

  /** A collector that reads a marker has a head. */
  lemma PeekNeedsHead(c: Config, ss: seq<State>, es: seq<Event>, j: nat, r: nat, k: Key)
    requires IsRun(c, ss, es) && j < |es| && es[j] == Collecting(r, Peek(k))
    ensures Top(ss[j]) >= 1
  {
    assert StepAt(c, ss, es, j);
    LakeTheorems.RunKeepsInv(c, ss, es, j);
    assert LakeCommit.RunnerFloor(c, ss[j], ss[j].runners[r]);
  }

  lemma ShortRunIsCalm(c: Config, ss: seq<State>, es: seq<Event>, n: nat)
    requires IsRun(c, ss, es) && Top(ss[|es|]) <= n + 1
    ensures LakeCalm.Calm(n, ss, es)
  {
    forall j: nat, i: nat, r: nat, k | LakeCalm.ResolvesAfter(es, j, i, r, k) ensures Top(ss[i]) <= Top(ss[j]) + n {
      PeekNeedsHead(c, ss, es, j, r, k);
      LakeTheorems.TopGrows(c, ss, es, i, |es|);
    }
  }

  lemma CalmerIsCalm(n: nat, m: nat, ss: seq<State>, es: seq<Event>)
    requires |ss| == |es| + 1 && LakeCalm.Calm(n, ss, es) && n <= m
    ensures LakeCalm.Calm(m, ss, es)
  {
    forall j: nat, i: nat, r: nat, k | LakeCalm.ResolvesAfter(es, j, i, r, k) ensures Top(ss[i]) <= Top(ss[j]) + m {
      assert Top(ss[i]) <= Top(ss[j]) + n;
    }
  }

  /**
   * The exact bound on a collector's lag. In a configuration that respects gap + cycle <= grace, packs of the
   * window are safe in all runs in which at most n generations land between any marker read and its payload read,
   * if and only if n <= retain.
   */
  lemma LagBoundIsExact(c: Config, n: nat)
    requires c.Valid()
    ensures n <= c.retain <==> forall ss, es, i: nat, g: nat, p :: !CalmLosingRun(c, n, ss, es, i, g, p)
  {
    if n <= c.retain {
      forall ss, es, i: nat, g: nat, p ensures !CalmLosingRun(c, n, ss, es, i, g, p) {
        if CalmLosingRun(c, n, ss, es, i, g, p) {
          CalmerIsCalm(n, c.retain, ss, es);
          LakeCalm.CalmRunIsSafe(c, ss, es, i, g, p);
        }
      }
    } else {
      var ss, es := LosesHead(c);
      ShortRunIsCalm(c, ss, es, n);
      assert CalmLosingRun(c, n, ss, es, |es|, c.retain + 1, P);
    }
  }
}

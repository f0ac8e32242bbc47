/** Pack safety: no pack of a retained committed generation is ever missing, in any timely run. */
module LakePacks {
  import opened Wrappers
  import opened Lake
  import LakeCommit
  import LakeLedger

  // --- what is at stake ---------------------------------------------------------

  /** Payloads that a reader of the retention window may need now or after the next marker lands. */
  ghost predicate Relevant(c: Config, s: State, k: Key) {
    k in s.live && k !in s.dropped && ((IsCommitted(s, k) && k.gen + c.retain >= Top(s)) || k.gen == Top(s))
  }

  /** Where a collector that has not finished its mark pass will still find p. */
  ghost predicate WillMark(s: State, R: Runner, k: Key, p: Pack) {
    exists j :: j in R.pending && p in PacksOf(s, j) && (j == k || IsCommitted(s, j))
  }

  /** One collector cannot hurt p on behalf of payload k: p is marked, or about to be, or too young for this cycle. */
  ghost predicate Shielded(c: Config, s: State, R: Runner, k: Key, p: Pack)
    requires p in s.packs && p in s.firstPut
  {
    || s.packs[p] + c.gap >= R.listedAt
    || s.firstPut[p] + 2 * c.grace >= R.listedAt + c.cycle
    || p in R.marked
    || WillMark(s, R, k, p)
  }

  ghost predicate Present(s: State, p: Pack) {
    p in s.packs && p in s.firstPut
  }

  ghost predicate SafeFrom(c: Config, s: State, R: Runner, k: Key, p: Pack) {
    Active(R) ==> Present(s, p) && R.doomed != Some(p) && Shielded(c, s, R, k, p)
  }

  ghost predicate Safe(c: Config, s: State, k: Key, p: Pack) {
    Present(s, p) && forall r :: r in s.runners ==> SafeFrom(c, s, s.runners[r], k, p)
  }

  /** The pack half of the invariant. */
  ghost predicate AllSafe(c: Config, s: State) {
    forall k, p :: Relevant(c, s, k) && p in PacksOf(s, k) ==> Safe(c, s, k, p)
  }

  /** While a clean refresh is recent, the pack is there, is that young, and no collector is about to delete it. */
  ghost predicate RefreshHolds(c: Config, s: State, a: Attempt, p: Pack) {
    p in a.clean ==>
      p in a.refreshed && a.refreshed[p] <= s.clock
      && (s.clock <= a.refreshed[p] + c.gap ==> p in s.packs && s.packs[p] >= a.refreshed[p] && !Doomed(s, p))
  }

  ghost predicate AttemptFresh(c: Config, s: State, a: Attempt) {
    forall p :: RefreshHolds(c, s, a, p)
  }

  ghost predicate Refreshes(c: Config, s: State) {
    && (forall k :: k in s.sent ==> AttemptFresh(c, s, s.sent[k]))
    && (forall w :: w in s.writers && s.writers[w].phase.Publishing? ==> AttemptFresh(c, s, s.writers[w].phase.a))
  }

  /** A collector past its recheck took at most `cycle`, and its candidates are unmarked. */
  ghost predicate RunnerOk(c: Config, s: State, R: Runner) {
    && R.listedAt <= s.clock
    && (R.stage == LedgerRead || R.stage == Clocked || R.stage == Committed || R.stage == Rechecked ==> R.pending == {})
    && (R.stage == Rechecked ==> R.recheck <= R.listedAt + c.cycle)
    && (R.stage != Rechecked && R.stage != Halted ==> R.doomed.None?)
    && (R.stage == Committed || R.stage == Rechecked ==> R.todo !! R.marked)
  }

  ghost predicate Runners(c: Config, s: State) {
    forall r :: r in s.runners ==> RunnerOk(c, s, s.runners[r])
  }

  ghost predicate Inv(c: Config, s: State) {
    AllSafe(c, s) && Refreshes(c, s) && Runners(c, s)
  }

  // --- deletion is harmless ----------------------------------------------------------

  /** The re-HEAD lets no relevant pack through: neither defense can be down for it. */
  lemma HeadSparesSafe(c: Config, s: State, R: Runner, k: Key, p: Pack)
    requires c.Valid() && Active(R) && SafeFrom(c, s, R, k, p) && StageEnabled(s, R, HeadPack(p))
    requires RunnerOk(c, s, R) && LakeLedger.RunnerOk(c, s, R)
    ensures RunnerMoves(s, R, HeadPack(p)).doomed == None
  {
    LakeLedger.DeletableTwiceAged(c, s, R, p);
  }

  // --- steps that only add ------------------------------------------------------------

  /** Packs come or get younger, payloads and markers accumulate, collectors stay where they are. */
  ghost predicate Onward(s: State, s': State) {
    && s.clock <= s'.clock && s'.runners == s.runners
    && (forall p :: p in s.packs ==> p in s'.packs && s.packs[p] <= s'.packs[p])
    && (forall p :: p in s.firstPut ==> p in s'.firstPut && s'.firstPut[p] == s.firstPut[p])
    && (forall k :: k in s.sent ==> k in s'.sent && s'.sent[k] == s.sent[k])
    && (forall k :: IsCommitted(s, k) ==> IsCommitted(s', k))
  }

  lemma OnwardKeepsSafeFrom(c: Config, s: State, s': State, R: Runner, k: Key, p: Pack)
    requires Onward(s, s') && SafeFrom(c, s, R, k, p)
    ensures SafeFrom(c, s', R, k, p)
  {
    if Active(R) && WillMark(s, R, k, p) {
      var j :| j in R.pending && p in PacksOf(s, j) && (j == k || IsCommitted(s, j));
      assert p in PacksOf(s', j);
    }
  }

  lemma OnwardKeepsSafe(c: Config, s: State, s': State, k: Key, p: Pack)
    requires Onward(s, s') && Safe(c, s, k, p)
    ensures Safe(c, s', k, p)
  {
    forall r | r in s'.runners ensures SafeFrom(c, s', s'.runners[r], k, p) {
      OnwardKeepsSafeFrom(c, s, s', s.runners[r], k, p);
    }
  }

  /** Nothing becomes relevant, so everything relevant stays safe. */
  lemma OnwardKeepsAllSafe(c: Config, s: State, s': State)
    requires Onward(s, s') && AllSafe(c, s)
    requires forall k :: Relevant(c, s', k) ==> Relevant(c, s, k) && k in s.sent
    ensures AllSafe(c, s')
  {
    forall k, p | Relevant(c, s', k) && p in PacksOf(s', k) ensures Safe(c, s', k, p) {
      assert p in PacksOf(s, k);
      OnwardKeepsSafe(c, s, s', k, p);
    }
  }

  lemma OnwardKeepsFresh(c: Config, s: State, s': State, a: Attempt)
    requires Onward(s, s') && AttemptFresh(c, s, a)
    ensures AttemptFresh(c, s', a)
  {
    forall p ensures RefreshHolds(c, s', a, p) {
      assert RefreshHolds(c, s, a, p);
      assert Doomed(s', p) ==> Doomed(s, p);
    }
  }

  // --- a manifest lands -----------------------------------------------------------------

  /** Inherited packs are already safe on the base's account, and the base is the head. */
  lemma InheritedIsSafe(c: Config, s: State, k: Key, p: Pack)
    requires c.Valid() && AllSafe(c, s) && LakeCommit.Retained(c, s) && LakeCommit.MarkersProposed(s)
    requires s.proposed <= s.landed && s.proposed !! s.dropped
    requires k.gen == Top(s) && k.gen > 0 && k.gen - 1 in s.markers && p in PacksOf(s, KeyOf(s, k.gen - 1))
    ensures Safe(c, s, k, p)
  {
    var b := KeyOf(s, k.gen - 1);
    assert IsCommitted(s, b) && b in s.proposed;
    assert Relevant(c, s, b);
    assert Safe(c, s, b, p);
    forall r | r in s.runners ensures SafeFrom(c, s, s.runners[r], k, p) {
      var R := s.runners[r];
      assert SafeFrom(c, s, R, b, p);
      if Active(R) && WillMark(s, R, b, p) {
        var j :| j in R.pending && p in PacksOf(s, j) && (j == b || IsCommitted(s, j));
        assert IsCommitted(s, j);
      }
    }
  }

  /** Defense 1 at the landing. */
  lemma RefreshedIsSafe(c: Config, s: State, k: Key, a: Attempt, p: Pack)
    requires RefreshHolds(c, s, a, p) && FreshlyRefreshed(c, s, a, p) && LakeLedger.PackTimes(s) && Runners(c, s)
    ensures Safe(c, s, k, p)
  {
    forall r | r in s.runners ensures SafeFrom(c, s, s.runners[r], k, p) {
      assert RunnerOk(c, s, s.runners[r]);
      assert !Doomed(s, p);
    }
  }

  /** Defense 2 at the landing. */
  lemma NewbornIsSafe(c: Config, s: State, k: Key, p: Pack)
    requires NewlyBorn(c, s, p) && LakeLedger.GoneLate(c, s) && LakeLedger.Runners(c, s) && Runners(c, s)
    ensures Safe(c, s, k, p)
  {
    forall r | r in s.runners ensures SafeFrom(c, s, s.runners[r], k, p) {
      var R := s.runners[r];
      assert RunnerOk(c, s, R) && LakeLedger.RunnerOk(c, s, R);
      if R.stage == Rechecked && R.doomed == Some(p) {
        LakeLedger.DeletableTwiceAged(c, s, R, p);
      }
    }
  }

  lemma LandingIsSafe(c: Config, s: State, k: Key, p: Pack)
    requires c.Valid() && AllSafe(c, s) && LakeCommit.Retained(c, s) && LakeCommit.MarkersProposed(s)
    requires s.proposed <= s.landed && s.proposed !! s.dropped && LakeCommit.Dense(s)
    requires LakeLedger.PackTimes(s) && LakeLedger.GoneLate(c, s) && LakeLedger.Runners(c, s) && Runners(c, s)
    requires k in s.sent && k !in s.dropped && k !in s.landed && k.gen == Top(s) && AttemptFresh(c, s, s.sent[k])
    requires LakeCommit.DerivedOk(c, s, k) && (k.gen == 0 ==> s.sent[k].body.Whole?)
    requires TimelyDelivery(c, s, k) && p in PacksOf(s, k)
    ensures Safe(c, s, k, p)
  {
    if k.gen > 0 && p in PacksOf(s, KeyOf(s, k.gen - 1)) {
      InheritedIsSafe(c, s, k, p);
    } else {
      assert p in s.sent[k].novel;
      assert RefreshHolds(c, s, s.sent[k], p);
      if FreshlyRefreshed(c, s, s.sent[k], p) { RefreshedIsSafe(c, s, k, s.sent[k], p); }
      else { NewbornIsSafe(c, s, k, p); }
    }
  }

  lemma CommittedHasLanded(s: State, k: Key)
    requires LakeCommit.MarkersProposed(s) && s.proposed <= s.landed
    ensures IsCommitted(s, k) ==> k in s.landed
  {
    if IsCommitted(s, k) { assert KeyOf(s, k.gen) == k; }
  }

  /** A delivery makes at most its own payload relevant, and then only on its first landing as the next generation. */
  lemma DeliverRelevance(c: Config, s: State, k: Key, j: Key)
    requires c.Valid() && StoreEnabled(s, Deliver(k)) && Relevant(c, DoStore(s, Deliver(k)), j)
    requires LakeCommit.Retained(c, s) && LakeCommit.MarkersProposed(s) && s.proposed <= s.landed
    ensures if j == k then k !in s.landed && k.gen == Top(s) && k !in s.dropped else Relevant(c, s, j)
  {
    CommittedHasLanded(s, k);
  }

  /** What a landing needs from all three invariants. */
  ghost predicate LandingReady(c: Config, s: State) {
    && AllSafe(c, s) && Runners(c, s) && LakeCommit.Dense(s)
    && LakeCommit.Retained(c, s) && LakeCommit.MarkersProposed(s) && s.proposed <= s.landed && s.proposed !! s.dropped
    && LakeLedger.PackTimes(s) && LakeLedger.GoneLate(c, s) && LakeLedger.Runners(c, s)
  }

  lemma DeliverKeepsSafe(c: Config, s: State, k: Key, j: Key, p: Pack)
    requires c.Valid() && StoreEnabled(s, Deliver(k)) && TimelyDelivery(c, s, k) && LandingReady(c, s)
    requires AttemptFresh(c, s, s.sent[k]) && LakeCommit.DerivedOk(c, s, k) && (k.gen == 0 ==> s.sent[k].body.Whole?)
    requires Relevant(c, DoStore(s, Deliver(k)), j) && p in PacksOf(s, j)
    ensures Safe(c, s, j, p)
  {
    DeliverRelevance(c, s, k, j);
    if j == k { LandingIsSafe(c, s, k, p); }
  }

  lemma DeliverKeepsAllSafe(c: Config, s: State, k: Key)
    requires c.Valid() && StoreEnabled(s, Deliver(k)) && TimelyDelivery(c, s, k) && LandingReady(c, s)
    requires AttemptFresh(c, s, s.sent[k]) && LakeCommit.DerivedOk(c, s, k) && (k.gen == 0 ==> s.sent[k].body.Whole?)
    requires Onward(s, DoStore(s, Deliver(k)))
    ensures AllSafe(c, DoStore(s, Deliver(k)))
  {
    var s' := DoStore(s, Deliver(k));
    forall j, p | Relevant(c, s', j) && p in PacksOf(s', j) ensures Safe(c, s', j, p) {
      DeliverKeepsSafe(c, s, k, j, p);
      OnwardKeepsSafe(c, s, s', j, p);
    }
  }

  /** A marker landing makes nothing relevant that was not: the winner was the head's candidate already. */
  lemma LandRelevance(c: Config, s: State, k: Key, j: Key)
    requires StoreEnabled(s, Land(k)) && k.gen == Top(s) && k !in s.dropped && j.gen <= Top(s)
    requires Top(DoStore(s, Land(k))) == Top(s) + 1 && Relevant(c, DoStore(s, Land(k)), j)
    ensures Relevant(c, s, j)
  {
    if j.gen == k.gen { assert j == k; }
  }

  lemma LandKeepsAllSafe(c: Config, s: State, k: Key)
    requires StoreEnabled(s, Land(k)) && AllSafe(c, s) && Onward(s, DoStore(s, Land(k)))
    requires LakeCommit.Dense(s) && LakeCommit.Retained(c, s) && LakeCommit.Wire(s)
    ensures AllSafe(c, DoStore(s, Land(k)))
  {
    var s' := DoStore(s, Land(k));
    assert LakeCommit.SentOk(s, k);
    LakeCommit.LandExtendsHead(c, s, k);
    forall j | Relevant(c, s', j) ensures Relevant(c, s, j) && j in s.sent {
      assert LakeCommit.SentOk(s, j);
      LandRelevance(c, s, k, j);
    }
    OnwardKeepsAllSafe(c, s, s');
  }

  lemma StoreIsOnward(s: State, x: StoreEvent)
    requires StoreEnabled(s, x) && LakeLedger.PackTimes(s)
    ensures Onward(s, DoStore(s, x))
    ensures DoStore(s, x).sent == s.sent && DoStore(s, x).writers == s.writers
    ensures !x.Deliver? && !x.Land? ==> DoStore(s, x).live == s.live && DoStore(s, x).markers == s.markers
    ensures DoStore(s, x).dropped == s.dropped
  {
  }

  lemma StoreKeepsRest(c: Config, s: State, s': State)
    requires Onward(s, s') && s'.sent == s.sent && s'.writers == s.writers && Refreshes(c, s) && Runners(c, s)
    ensures Refreshes(c, s') && Runners(c, s')
  {
    forall k | k in s'.sent ensures AttemptFresh(c, s', s'.sent[k]) { OnwardKeepsFresh(c, s, s', s.sent[k]); }
    forall w | w in s'.writers && s'.writers[w].phase.Publishing? ensures AttemptFresh(c, s', s'.writers[w].phase.a) {
      OnwardKeepsFresh(c, s, s', s.writers[w].phase.a);
    }
    forall r | r in s'.runners ensures RunnerOk(c, s', s'.runners[r]) { assert RunnerOk(c, s, s.runners[r]); }
  }

  lemma StoreKeepsAllSafe(c: Config, s: State, x: StoreEvent)
    requires c.Valid() && StoreEnabled(s, x) && (x.Deliver? ==> TimelyDelivery(c, s, x.k)) && LandingReady(c, s)
    requires Refreshes(c, s) && LakeCommit.Derived(c, s) && LakeCommit.Dense(s) && LakeCommit.Wire(s)
    ensures AllSafe(c, DoStore(s, x))
  {
    StoreIsOnward(s, x);
    if x.Deliver? { assert LakeCommit.DerivedOk(c, s, x.k); DeliverKeepsAllSafe(c, s, x.k); }
    else if x.Land? { LandKeepsAllSafe(c, s, x.k); }
    else { OnwardKeepsAllSafe(c, s, DoStore(s, x)); }
  }

  lemma StoreKeepsInv(c: Config, s: State, x: StoreEvent)
    requires c.Valid() && StoreEnabled(s, x) && Timely(c, s, Store(x))
    requires LakeCommit.Inv(c, s) && LakeLedger.Inv(c, s) && Inv(c, s)
    ensures Inv(c, DoStore(s, x))
  {
    StoreIsOnward(s, x);
    StoreKeepsAllSafe(c, s, x);
    StoreKeepsRest(c, s, DoStore(s, x));
  }

  // --- writers ----------------------------------------------------------------------------

  lemma WriterIsOnward(c: Config, s: State, w: nat, u: WriterEvent)
    requires WriterEnabled(s, w, u) && LakeLedger.PackTimes(s) && LakeCommit.Wire(s)
    requires w in s.writers ==> LakeCommit.WriterOk(c, s, w)
    ensures Onward(s, DoWriter(c, s, w, u))
  {
    LakeCommit.WriterHasDelta(c, s, w, u);
    LakeLedger.WriterGrows(c, s, w, u);
  }

  lemma WriterKeepsAllSafe(c: Config, s: State, w: nat, u: WriterEvent)
    requires WriterEnabled(s, w, u) && LakeLedger.PackTimes(s) && LakeCommit.Wire(s) && AllSafe(c, s)
    requires w in s.writers ==> LakeCommit.WriterOk(c, s, w)
    ensures AllSafe(c, DoWriter(c, s, w, u))
  {
    var s' := DoWriter(c, s, w, u);
    WriterIsOnward(c, s, w, u);
    LakeCommit.WriterHasDelta(c, s, w, u);
    OnwardKeepsAllSafe(c, s, s');
  }

  /** A refresh is recorded clean only when no collector has already passed its re-HEAD of that pack. */
  lemma RefreshStartsClean(c: Config, s: State, w: nat, u: WriterEvent)
    requires u.Refresh? && WriterEnabled(s, w, u) && AttemptFresh(c, s, s.writers[w].phase.a) && LakeLedger.PackTimes(s)
    ensures AttemptFresh(c, DoWriter(c, s, w, u), WriterAfter(c, s, w, u).phase.a)
  {
    var s' := DoWriter(c, s, w, u);
    var a, a' := s.writers[w].phase.a, WriterAfter(c, s, w, u).phase.a;
    forall p ensures RefreshHolds(c, s', a', p) {
      assert RefreshHolds(c, s, a, p);
      assert Doomed(s', p) ==> Doomed(s, p);
    }
  }

  lemma ActingAttemptFresh(c: Config, s: State, w: nat, u: WriterEvent)
    requires WriterEnabled(s, w, u) && LakeLedger.PackTimes(s) && Onward(s, DoWriter(c, s, w, u))
    requires w in s.writers && s.writers[w].phase.Publishing? ==> AttemptFresh(c, s, s.writers[w].phase.a)
    requires WriterAfter(c, s, w, u).phase.Publishing?
    ensures AttemptFresh(c, DoWriter(c, s, w, u), WriterAfter(c, s, w, u).phase.a)
  {
    var s' := DoWriter(c, s, w, u);
    var a' := WriterAfter(c, s, w, u).phase.a;
    if u.Refresh? {
      RefreshStartsClean(c, s, w, u);
    } else if u.Plan? {
      assert a'.clean == {};
    } else {
      var a := s.writers[w].phase.a;
      assert a'.clean == a.clean && a'.refreshed == a.refreshed;
      OnwardKeepsFresh(c, s, s', a);
      forall p ensures RefreshHolds(c, s', a', p) { assert RefreshHolds(c, s', a, p); }
    }
  }

  lemma WriterKeepsRefreshes(c: Config, s: State, w: nat, u: WriterEvent, s': State)
    requires WriterEnabled(s, w, u) && s' == DoWriter(c, s, w, u) && LakeLedger.PackTimes(s) && Onward(s, s')
    requires LakeCommit.WriterDelta(c, s, w, u, s') && Refreshes(c, s)
    ensures Refreshes(c, s')
  {
    forall k | k in s'.sent ensures AttemptFresh(c, s', s'.sent[k]) {
      OnwardKeepsFresh(c, s, s', if k in s.sent then s.sent[k] else s.writers[w].phase.a);
    }
    forall v | v in s'.writers && s'.writers[v].phase.Publishing? ensures AttemptFresh(c, s', s'.writers[v].phase.a) {
      if v == w { LakeCommit.OnlyOwnRecord(c, s, w, u); ActingAttemptFresh(c, s, w, u); }
      else { OnwardKeepsFresh(c, s, s', s.writers[v].phase.a); }
    }
  }

  lemma WriterKeepsInv(c: Config, s: State, w: nat, u: WriterEvent)
    requires WriterEnabled(s, w, u) && LakeCommit.Inv(c, s) && LakeLedger.Inv(c, s) && Inv(c, s)
    ensures Inv(c, DoWriter(c, s, w, u))
  {
    var s' := DoWriter(c, s, w, u);
    if w in s.writers { assert LakeCommit.WriterOk(c, s, w); }
    WriterIsOnward(c, s, w, u);
    LakeCommit.WriterHasDelta(c, s, w, u);
    WriterKeepsAllSafe(c, s, w, u);
    WriterKeepsRefreshes(c, s, w, u, s');
    forall r | r in s'.runners ensures RunnerOk(c, s', s'.runners[r]) { assert RunnerOk(c, s, s.runners[r]); }
  }

  // --- collectors --------------------------------------------------------------------------

  /** A step of a collector that touches no pack and removes no payload but expired ones. */
  ghost predicate OnlyRunner(c: Config, s: State, r: nat, R': Runner, s': State) {
    && s'.clock == s.clock && s'.markers == s.markers && s'.sent == s.sent && s'.landed == s.landed && s'.live <= s.live
    && s'.dropped == s.dropped && s'.packs == s.packs && s'.firstPut == s.firstPut && s'.writers == s.writers
    && s'.runners == s.runners[r := R']
  }

  lemma GcOnlyRunner(c: Config, s: State, r: nat, v: GcEvent)
    requires GcEnabled(c, s, r, v) && !v.Delete?
    ensures OnlyRunner(c, s, r, RunnerAfter(c, s, r, v), DoRunner(c, s, r, v))
  {
    WritesNoPack(c, s, r, v);
    var t, s' := RunnerWrites(c, s, r, v), DoRunner(c, s, r, v);
    assert s' == t.(runners := s.runners[r := RunnerAfter(c, s, r, v)]);
  }

  lemma WritesNoPack(c: Config, s: State, r: nat, v: GcEvent)
    requires GcEnabled(c, s, r, v) && !v.Delete?
    ensures var t := RunnerWrites(c, s, r, v);
            && t.clock == s.clock && t.markers == s.markers && t.sent == s.sent && t.landed == s.landed
                && t.live <= s.live
            && t.dropped == s.dropped && t.packs == s.packs && t.firstPut == s.firstPut && t.writers == s.writers
  {
  }

  lemma SameWorldSafeFrom(c: Config, s: State, r: nat, R': Runner, s': State, R: Runner, k: Key, p: Pack)
    requires OnlyRunner(c, s, r, R', s') && SafeFrom(c, s, R, k, p)
    ensures SafeFrom(c, s', R, k, p)
  {
    if Active(R) && WillMark(s, R, k, p) {
      var j :| j in R.pending && p in PacksOf(s, j) && (j == k || IsCommitted(s, j));
      assert p in PacksOf(s', j);
    }
  }

  /** If the moved collector is harmless to everything relevant, all stays safe. */
  lemma MoveKeepsAllSafe(c: Config, s: State, r: nat, R': Runner, s': State)
    requires OnlyRunner(c, s, r, R', s') && AllSafe(c, s)
    requires forall k, p :: Relevant(c, s, k) && p in PacksOf(s, k) ==> SafeFrom(c, s, R', k, p)
    ensures AllSafe(c, s')
  {
    forall k, p | Relevant(c, s', k) && p in PacksOf(s', k) ensures Safe(c, s', k, p) {
      assert Relevant(c, s, k) && p in PacksOf(s, k);
      assert Safe(c, s, k, p);
      forall q | q in s'.runners ensures SafeFrom(c, s', s'.runners[q], k, p) {
        SameWorldSafeFrom(c, s, r, R', s', s'.runners[q], k, p);
      }
    }
  }

  /** A collector condemns a pack only after seeing it older than the grace. */
  ghost predicate StaleDoom(c: Config, s: State, R': Runner) {
    R'.doomed.Some? && R'.stage != Halted ==>
      Doomed(s, R'.doomed.value) || (R'.doomed.value in s.packs && s.packs[R'.doomed.value] + c.grace < s.clock)
  }

  lemma MoveKeepsFresh(c: Config, s: State, r: nat, R': Runner, s': State, a: Attempt)
    requires c.Valid() && OnlyRunner(c, s, r, R', s') && AttemptFresh(c, s, a) && StaleDoom(c, s, R')
    ensures AttemptFresh(c, s', a)
  {
    forall p ensures RefreshHolds(c, s', a, p) {
      assert RefreshHolds(c, s, a, p);
      if Doomed(s', p) && !Doomed(s, p) {
        assert R'.doomed == Some(p);
      }
    }
  }

  lemma MoveKeepsRefreshes(c: Config, s: State, r: nat, R': Runner, s': State)
    requires c.Valid() && OnlyRunner(c, s, r, R', s') && Refreshes(c, s) && StaleDoom(c, s, R')
    ensures Refreshes(c, s')
  {
    forall k | k in s'.sent ensures AttemptFresh(c, s', s'.sent[k]) { MoveKeepsFresh(c, s, r, R', s', s.sent[k]); }
    forall w | w in s'.writers && s'.writers[w].phase.Publishing? ensures AttemptFresh(c, s', s'.writers[w].phase.a) {
      MoveKeepsFresh(c, s, r, R', s', s.writers[w].phase.a);
    }
  }

  /** A fresh listing keeps every relevant payload, so its packs will be marked. */
  lemma ListShields(c: Config, s: State, R: Runner, k: Key, p: Pack)
    requires StageEnabled(s, R, List) && R.retain >= c.retain && LakeCommit.Dense(s)
    requires Relevant(c, s, k) && p in PacksOf(s, k) && Present(s, p) && R.doomed.None?
    ensures SafeFrom(c, s, RunnerMoves(s, R, List), k, p)
  {
    assert k in RunnerMoves(s, R, List).pending;
  }

  /** Resolving one payload marks its packs or proves nobody relevant needs them from it. */
  lemma ResolveShields(c: Config, s: State, R: Runner, v: GcEvent, k: Key, p: Pack)
    requires v.Resolve? && StageEnabled(s, R, v) && !SkipsCommitted(s, R) && LakeCommit.MarkersProposed(s)
    requires Relevant(c, s, k) && SafeFrom(c, s, R, k, p)
    ensures SafeFrom(c, s, RunnerMoves(s, R, v), k, p)
  {
    var R' := RunnerMoves(s, R, v);
    var (j0, saw) := R.peek.value;
    if Active(R') && WillMark(s, R, k, p) {
      var j :| j in R.pending && p in PacksOf(s, j) && (j == k || IsCommitted(s, j));
      if j != j0 {
        assert j in R'.pending;
      } else if IsCommitted(s, j0) {
        assert KeyOf(s, j0.gen) == j0;
      }
    }
  }

  /** Moves that neither forget marks or pending payloads nor condemn a pack. */
  ghost predicate GentleMove(R: Runner, R': Runner) {
    && R'.listedAt == R.listedAt && R.marked <= R'.marked && R.pending <= R'.pending
    && (Active(R') ==> Active(R)) && (R'.doomed == R.doomed || R'.doomed.None?)
  }

  lemma GentleShields(c: Config, s: State, R: Runner, R': Runner, k: Key, p: Pack)
    requires GentleMove(R, R') && SafeFrom(c, s, R, k, p)
    ensures SafeFrom(c, s, R', k, p)
  {
    if Active(R') && WillMark(s, R, k, p) {
      var j :| j in R.pending && p in PacksOf(s, j) && (j == k || IsCommitted(s, j));
      assert j in R'.pending;
    }
  }

  lemma MostMovesGentle(s: State, R: Runner, v: GcEvent)
    requires StageEnabled(s, R, v) && !v.List? && !v.Resolve? && !v.HeadPack?
    ensures GentleMove(R, RunnerMoves(s, R, v))
  {
  }

  lemma HeadShields(c: Config, s: State, R: Runner, v: GcEvent, k: Key, p: Pack)
    requires c.Valid() && v.HeadPack? && StageEnabled(s, R, v) && SafeFrom(c, s, R, k, p)
    requires RunnerOk(c, s, R) && LakeLedger.RunnerOk(c, s, R)
    ensures SafeFrom(c, s, RunnerMoves(s, R, v), k, p)
  {
    if v.p == p { HeadSparesSafe(c, s, R, k, p); }
    GentleShields(c, s, R, R.(todo := R.todo - {v.p}), k, p);
  }

  lemma MoveShields(c: Config, s: State, R: Runner, v: GcEvent, k: Key, p: Pack)
    requires c.Valid() && StageEnabled(s, R, v) && (v.Resolve? ==> !SkipsCommitted(s, R))
    requires LakeCommit.Dense(s) && LakeCommit.MarkersProposed(s) && R.retain >= c.retain
    requires RunnerOk(c, s, R) && LakeLedger.RunnerOk(c, s, R)
    requires Relevant(c, s, k) && p in PacksOf(s, k) && Present(s, p) && SafeFrom(c, s, R, k, p)
    ensures SafeFrom(c, s, RunnerMoves(s, R, v), k, p)
  {
    if v.List? { ListShields(c, s, R, k, p); }
    else if v.Resolve? { ResolveShields(c, s, R, v, k, p); }
    else if v.HeadPack? { HeadShields(c, s, R, v, k, p); }
    else { MostMovesGentle(s, R, v); GentleShields(c, s, R, RunnerMoves(s, R, v), k, p); }
  }

  lemma MoveKeepsRunnerOk(c: Config, s: State, R: Runner, v: GcEvent)
    requires StageEnabled(s, R, v) && RunnerOk(c, s, R) && (v.Recheck? ==> s.clock <= R.listedAt + c.cycle)
    ensures RunnerOk(c, s, RunnerMoves(s, R, v))
  {
  }

  lemma MoveIsStaleDoom(c: Config, s: State, r: nat, v: GcEvent)
    requires GcEnabled(c, s, r, v)
    requires r in s.runners ==>
              s.runners[r].grace >= c.grace && s.runners[r].recheck <= s.clock && RunnerOk(c, s, s.runners[r])
    ensures StaleDoom(c, s, RunnerAfter(c, s, r, v))
  {
    if r in s.runners && RunnerAfter(c, s, r, v).doomed.Some? && !v.HeadPack? && s.runners[r].stage != Halted {
      assert s.runners[r].doomed == RunnerAfter(c, s, r, v).doomed;
    }
  }

  lemma MovesKeepAllSafe(c: Config, s: State, r: nat, v: GcEvent)
    requires c.Valid() && GcEnabled(c, s, r, v) && !v.Delete?
    requires v.Resolve? ==> !SkipsCommitted(s, s.runners[r])
    requires LakeCommit.Dense(s) && LakeCommit.MarkersProposed(s) && LakeCommit.Floors(c, s)
    requires AllSafe(c, s) && Runners(c, s) && LakeLedger.Runners(c, s)
    ensures AllSafe(c, DoRunner(c, s, r, v))
  {
    GcOnlyRunner(c, s, r, v);
    var R' := RunnerAfter(c, s, r, v);
    forall k, p | Relevant(c, s, k) && p in PacksOf(s, k) ensures SafeFrom(c, s, R', k, p) {
      if !v.GcBegin? {
        assert Safe(c, s, k, p);
        assert SafeFrom(c, s, s.runners[r], k, p);
        assert RunnerOk(c, s, s.runners[r]) && LakeLedger.RunnerOk(c, s, s.runners[r]);
        assert LakeCommit.RunnerFloor(c, s, s.runners[r]);
        MoveShields(c, s, s.runners[r], v, k, p);
      }
    }
    MoveKeepsAllSafe(c, s, r, R', DoRunner(c, s, r, v));
  }

  lemma MovesKeepRunners(c: Config, s: State, r: nat, v: GcEvent)
    requires GcEnabled(c, s, r, v) && Runners(c, s) && Timely(c, s, Collecting(r, v))
    ensures Runners(c, DoRunner(c, s, r, v))
  {
    var s' := DoRunner(c, s, r, v);
    assert s'.clock == s.clock;
    if !v.GcBegin? { assert RunnerOk(c, s, s.runners[r]); MoveKeepsRunnerOk(c, s, s.runners[r], v); }
    forall q | q in s'.runners ensures RunnerOk(c, s', s'.runners[q]) {
      if q != r { assert RunnerOk(c, s, s.runners[q]); }
    }
  }

  /** The delete itself: the condemned pack is needed by no relevant payload and by no recent refresh. */
  lemma DeleteKeepsSafe(c: Config, s: State, r: nat, k: Key, p: Pack)
    requires GcEnabled(c, s, r, Delete) && Safe(c, s, k, p)
    ensures Safe(c, DoRunner(c, s, r, Delete), k, p)
  {
    var s' := DoRunner(c, s, r, Delete);
    assert SafeFrom(c, s, s.runners[r], k, p);
    forall q | q in s'.runners ensures SafeFrom(c, s', s'.runners[q], k, p) {
      var Q := s.runners[q];
      assert SafeFrom(c, s, Q, k, p);
      if Active(Q) && WillMark(s, Q, k, p) {
        var j :| j in Q.pending && p in PacksOf(s, j) && (j == k || IsCommitted(s, j));
        assert p in PacksOf(s', j);
      }
    }
  }

  lemma DeleteKeepsFresh(c: Config, s: State, r: nat, a: Attempt)
    requires GcEnabled(c, s, r, Delete) && AttemptFresh(c, s, a)
    ensures AttemptFresh(c, DoRunner(c, s, r, Delete), a)
  {
    var s' := DoRunner(c, s, r, Delete);
    forall p ensures RefreshHolds(c, s', a, p) {
      assert RefreshHolds(c, s, a, p);
      assert s.runners[r].doomed == Some(p) ==> Doomed(s, p);
      assert Doomed(s', p) ==> Doomed(s, p);
    }
  }

  lemma DeleteKeepsRelevance(c: Config, s: State, r: nat, k: Key)
    requires GcEnabled(c, s, r, Delete)
    ensures Relevant(c, DoRunner(c, s, r, Delete), k) <==> Relevant(c, s, k)
    ensures PacksOf(DoRunner(c, s, r, Delete), k) == PacksOf(s, k)
  {
    DeleteKeepsRest(c, s, r);
  }

  lemma DeleteKeepsRest(c: Config, s: State, r: nat)
    requires GcEnabled(c, s, r, Delete)
    ensures var t := DoRunner(c, s, r, Delete);
            t == s.(packs := t.packs, runners := t.runners)
  {
  }

  lemma DeleteKeepsAllSafe(c: Config, s: State, r: nat)
    requires GcEnabled(c, s, r, Delete) && AllSafe(c, s)
    ensures AllSafe(c, DoRunner(c, s, r, Delete))
  {
    var s' := DoRunner(c, s, r, Delete);
    forall k, p | Relevant(c, s', k) && p in PacksOf(s', k) ensures Safe(c, s', k, p) {
      DeleteKeepsRelevance(c, s, r, k);
      DeleteKeepsSafe(c, s, r, k, p);
    }
  }

  lemma DeleteKeepsRefreshes(c: Config, s: State, r: nat)
    requires GcEnabled(c, s, r, Delete) && Refreshes(c, s)
    ensures Refreshes(c, DoRunner(c, s, r, Delete))
  {
    var s' := DoRunner(c, s, r, Delete);
    forall k | k in s'.sent ensures AttemptFresh(c, s', s'.sent[k]) { DeleteKeepsFresh(c, s, r, s.sent[k]); }
    forall w | w in s'.writers && s'.writers[w].phase.Publishing? ensures AttemptFresh(c, s', s'.writers[w].phase.a) {
      DeleteKeepsFresh(c, s, r, s.writers[w].phase.a);
    }
  }

  lemma DeleteKeepsInv(c: Config, s: State, r: nat)
    requires GcEnabled(c, s, r, Delete) && Inv(c, s)
    ensures Inv(c, DoRunner(c, s, r, Delete))
  {
    DeleteKeepsAllSafe(c, s, r);
    DeleteKeepsRefreshes(c, s, r);
    MovesKeepRunners(c, s, r, Delete);
  }

  lemma GcKeepsInv(c: Config, s: State, r: nat, v: GcEvent)
    requires c.Valid() && GcEnabled(c, s, r, v) && Timely(c, s, Collecting(r, v))
    requires LakeCommit.Inv(c, s) && LakeLedger.Inv(c, s) && Inv(c, s)
    ensures Inv(c, DoRunner(c, s, r, v))
  {
    if v.Delete? {
      DeleteKeepsInv(c, s, r);
    } else {
      MovesKeepAllSafe(c, s, r, v);
      MovesKeepRunners(c, s, r, v);
      GcOnlyRunner(c, s, r, v);
      if r in s.runners {
        assert RunnerOk(c, s, s.runners[r]) && LakeLedger.RunnerOk(c, s, s.runners[r]);
      }
      MoveIsStaleDoom(c, s, r, v);
      MoveKeepsRefreshes(c, s, r, RunnerAfter(c, s, r, v), DoRunner(c, s, r, v));
    }
  }

  lemma StepKeepsInv(c: Config, s: State, e: Event)
    requires c.Valid() && Enabled(c, s, e) && Timely(c, s, e)
    requires LakeCommit.Inv(c, s) && LakeLedger.Inv(c, s) && Inv(c, s)
    ensures Inv(c, Do(c, s, e))
  {
    match e {
      case Store(x) => StoreKeepsInv(c, s, x);
      case Writing(w, u) => WriterKeepsInv(c, s, w, u);
      case Collecting(r, v) => GcKeepsInv(c, s, r, v);
    }
  }
}

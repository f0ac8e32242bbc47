/** The commit side of the lake: what every step keeps, whatever collectors, crashes and late deliveries do. */
module LakeCommit {
  import opened Wrappers
  import opened Lake
  import Rebase

  // --- the invariant -----------------------------------------------------------

  /** Markers have no gap: the generations present are exactly 0 .. Top - 1. */
  ghost predicate Dense(s: State) {
    forall g: nat :: g in s.markers <==> g < Top(s)
  }

  ghost predicate SentOk(s: State, k: Key) {
    && k in s.sent && s.sent[k].key == k
    && k.id in s.used && s.used[k.id] == s.sent[k].owner && s.sent[k].owner in s.writers
    && k.gen <= Top(s) && WellFormedPayload(s.sent[k].body) && s.sent[k].refreshed.Keys == s.sent[k].novel
  }

  ghost predicate Wire(s: State) {
    && (forall k :: k in s.sent ==> SentOk(s, k))
    && (forall k, j :: k in s.sent && j in s.sent && k.id == j.id ==> k == j)
    && s.live <= s.landed <= s.sent.Keys
    && s.proposed <= s.landed && s.proposed !! s.dropped && s.dropped <= s.sent.Keys
  }

  /** A marker is only ever the landing of a proposal, and records the transport the publish used. */
  ghost predicate MarkersProposed(s: State) {
    forall g :: g in s.markers ==>
      KeyOf(s, g) in s.proposed && KeyOf(s, g) in s.sent && s.markers[g].chunked == s.sent[KeyOf(s, g)].body.Chunked?
  }

  /** A payload that landed is still there unless the head has moved at least `retain` generations past it. */
  ghost predicate Retained(c: Config, s: State) {
    forall k :: k in s.landed ==> k in s.live || k.gen + c.retain < Top(s)
  }

  /** What a payload is made of: its predecessor's bytes through its writer's changes, its packs novel or inherited. */
  ghost predicate DerivedOk(c: Config, s: State, k: Key) {
    k in s.sent && k.gen > 0 ==>
      && k.gen - 1 in s.markers && s.sent[k].owner in s.writers
      && s.sent[k].body.Data() == c.Run(s.writers[s.sent[k].owner].changes, DataAt(s, k.gen - 1))
      && PacksOf(s, k) <= s.sent[k].novel + PacksOf(s, KeyOf(s, k.gen - 1))
  }

  ghost predicate Derived(c: Config, s: State) {
    && (forall k :: k in s.sent ==> DerivedOk(c, s, k))
    && (forall k :: k in s.sent && k.gen == 0 ==> s.sent[k].body.Whole?)
  }

  ghost predicate AttemptOk(c: Config, s: State, w: nat, a: Attempt) {
    && w in s.writers && a.owner == w && a.key.id in s.used && s.used[a.key.id] == w
    && a.key.gen <= Top(s) && WellFormedPayload(a.body)
    && (a.key.gen == 0 ==> a.body.Whole?)
    && (a.key.gen > 0 ==>
          && a.key.gen - 1 in s.markers
          && a.body.Data() == c.Run(s.writers[w].changes, DataAt(s, a.key.gen - 1))
          && a.body.Packs() <= a.novel + PacksOf(s, KeyOf(s, a.key.gen - 1)))
  }

  ghost predicate WriterOk(c: Config, s: State, w: nat)
    requires w in s.writers
  {
    match s.writers[w].phase
    case Based(t, work) =>
      t <= Top(s) && (t > 0 ==> t - 1 in s.markers && work == c.Run(s.writers[w].changes, DataAt(s, t - 1)))
    case Publishing(a) => AttemptOk(c, s, w, a) && forall k :: k in s.sent ==> k.id != a.key.id
    case Sent(a) => a.owner == w && a.key in s.sent && s.sent[a.key] == a && a.key !in s.proposed && a.key !in s.dropped
    case Landed(a) =>
      && a.owner == w && a.key in s.sent && s.sent[a.key] == a && a.key in s.landed
      && a.key !in s.proposed && a.key !in s.dropped
    case Creating(a, _) => a.owner == w && a.key in s.sent && s.sent[a.key] == a && a.key in s.proposed
    case Won(k) => k in s.proposed && IsCommitted(s, k) && k in s.sent && s.sent[k].owner == w
    case Unknown(k) => k in s.proposed && k in s.sent && s.sent[k].owner == w
    case Stopped(last) => last.Some? ==>
        last.value in s.proposed && last.value in s.sent && s.sent[last.value].owner == w
    case _ => true
  }

  ghost predicate Writers(c: Config, s: State) {
    forall w :: w in s.writers ==> WriterOk(c, s, w)
  }

  /** Every proposal of a run is either dead for good or the one its writer is currently waiting on. */
  ghost predicate OneLive(s: State) {
    forall k :: k in s.proposed ==>
      IsLost(s, k) || (k in s.sent && s.sent[k].owner in s.writers
                       && CurrentKey(s.writers[s.sent[k].owner].phase) == Some(k))
  }

  ghost predicate Policies(s: State) {
    forall w :: w in s.writers && s.writers[w].replayed ==>
      s.writers[w].policy == Rebase.ReplayAll || Rebase.BlindAppendsOnly(s.writers[w].changes)
  }

  ghost predicate RunnerFloor(c: Config, s: State, R: Runner) {
    && R.retain >= c.retain && R.grace >= c.grace && R.head in s.markers
    && (forall k :: k in R.expired ==> k.gen + R.retain <= R.head)
  }

  ghost predicate Floors(c: Config, s: State) {
    forall r :: r in s.runners ==> RunnerFloor(c, s, s.runners[r])
  }

  ghost predicate Inv(c: Config, s: State) {
    && Dense(s) && Wire(s) && MarkersProposed(s) && Retained(c, s) && Derived(c, s)
    && Writers(c, s) && OneLive(s) && Policies(s) && Floors(c, s)
  }

  // --- landings --------------------------------------------------------------------

  /** A marker create can only land as the next generation, and its payload is there when it does. */
  lemma LandExtendsHead(c: Config, s: State, k: Key)
    requires Dense(s) && Retained(c, s) && k in s.landed && k.gen <= Top(s) && StoreEnabled(s, Land(k))
    ensures k.gen == Top(s) && Top(DoStore(s, Land(k))) == Top(s) + 1
    ensures Dense(DoStore(s, Land(k)))
    ensures k in s.live && IsCommitted(DoStore(s, Land(k)), k)
  {
    var s' := DoStore(s, Land(k));
    assert s'.markers == s.markers[k.gen := s'.markers[k.gen]];
  }

  lemma LandKeepsDataAt(s: State, k: Key, g: nat)
    requires StoreEnabled(s, Land(k)) && g in s.markers
    ensures KeyOf(DoStore(s, Land(k)), g) == KeyOf(s, g)
    ensures DataAt(DoStore(s, Land(k)), g) == DataAt(s, g)
  {
  }

  lemma LandKeepsAttempt(c: Config, s: State, k: Key, w: nat, a: Attempt)
    requires AttemptOk(c, s, w, a) && StoreEnabled(s, Land(k)) && Top(s) <= Top(DoStore(s, Land(k)))
    ensures AttemptOk(c, DoStore(s, Land(k)), w, a)
  {
    if a.key.gen > 0 { LandKeepsDataAt(s, k, a.key.gen - 1); }
  }

  lemma LandKeepsWriter(c: Config, s: State, k: Key, w: nat)
    requires w in s.writers && WriterOk(c, s, w) && StoreEnabled(s, Land(k)) && Top(s) <= Top(DoStore(s, Land(k)))
    ensures WriterOk(c, DoStore(s, Land(k)), w)
  {
    match s.writers[w].phase {
      case Based(t, _) => if t > 0 { LandKeepsDataAt(s, k, t - 1); }
      case Publishing(a) => LandKeepsAttempt(c, s, k, w, a);
      case _ =>
    }
  }

  lemma LandKeepsDerived(c: Config, s: State, k: Key)
    requires Derived(c, s) && StoreEnabled(s, Land(k))
    ensures Derived(c, DoStore(s, Land(k)))
  {
    var s' := DoStore(s, Land(k));
    forall j | j in s'.sent ensures DerivedOk(c, s', j) {
      assert DerivedOk(c, s, j);
      if j.gen > 0 { LandKeepsDataAt(s, k, j.gen - 1); }
    }
  }

  lemma LandKeepsWire(s: State, k: Key)
    requires Wire(s) && StoreEnabled(s, Land(k)) && Top(s) <= Top(DoStore(s, Land(k)))
    ensures Wire(DoStore(s, Land(k)))
  {
    var s' := DoStore(s, Land(k));
    forall j | j in s'.sent ensures SentOk(s', j) { assert SentOk(s, j); }
  }

  lemma LandKeepsMarkers(s: State, k: Key)
    requires MarkersProposed(s) && StoreEnabled(s, Land(k)) && k in s.sent
    ensures MarkersProposed(DoStore(s, Land(k)))
  {
    var s' := DoStore(s, Land(k));
    forall g | g in s'.markers
      ensures KeyOf(s', g) in s'.proposed && KeyOf(s', g) in s'.sent
      ensures s'.markers[g].chunked == s'.sent[KeyOf(s', g)].body.Chunked?
    {
      if g != k.gen { LandKeepsDataAt(s, k, g); } else { assert KeyOf(s', g) == k; }
    }
  }

  lemma LandKeepsOneLive(s: State, k: Key)
    requires OneLive(s) && StoreEnabled(s, Land(k))
    ensures OneLive(DoStore(s, Land(k)))
  {
    forall j | j in s.proposed && IsLost(s, j) ensures IsLost(DoStore(s, Land(k)), j) {}
  }

  lemma LandKeepsInv(c: Config, s: State, k: Key)
    requires Inv(c, s) && StoreEnabled(s, Land(k))
    ensures Inv(c, DoStore(s, Land(k)))
  {
    var s' := DoStore(s, Land(k));
    assert SentOk(s, k);
    LandExtendsHead(c, s, k);
    LandKeepsWire(s, k);
    LandKeepsMarkers(s, k);
    LandKeepsDerived(c, s, k);
    LandKeepsOneLive(s, k);
    forall w | w in s'.writers ensures WriterOk(c, s', w) { LandKeepsWriter(c, s, k, w); }
    forall r | r in s'.runners ensures RunnerFloor(c, s', s'.runners[r]) { assert RunnerFloor(c, s, s.runners[r]); }
  }

  // --- steps that move no marker, proposal or writer --------------------------------------

  ghost predicate SameHistory(s: State, s': State) {
    && s'.markers == s.markers && s'.sent == s.sent && s'.dropped == s.dropped && s'.proposed == s.proposed
    && s'.used == s.used && s'.writers == s.writers && s.landed <= s'.landed
  }

  lemma FrameDerived(c: Config, s: State, s': State)
    requires SameHistory(s, s') && Derived(c, s)
    ensures Derived(c, s')
  {
    forall k | k in s'.sent ensures DerivedOk(c, s', k) { assert DerivedOk(c, s, k); }
  }

  lemma FrameWriter(c: Config, s: State, s': State, w: nat)
    requires SameHistory(s, s') && w in s.writers && WriterOk(c, s, w)
    ensures WriterOk(c, s', w)
  {
  }

  lemma FrameWire(s: State, s': State)
    requires SameHistory(s, s') && Wire(s) && s'.live <= s'.landed <= s'.sent.Keys
    ensures Wire(s')
  {
    forall k | k in s'.sent ensures SentOk(s', k) { assert SentOk(s, k); }
  }

  lemma FrameOneLive(s: State, s': State)
    requires SameHistory(s, s') && OneLive(s)
    ensures OneLive(s')
  {
  }

  /** A step that only adds landings, or removes payloads below the window, keeps everything. */
  lemma FrameKeepsInv(c: Config, s: State, s': State)
    requires Inv(c, s) && SameHistory(s, s') && Floors(c, s') && Retained(c, s') && s'.live <= s'.landed <= s'.sent.Keys
    ensures Inv(c, s')
  {
    FrameWire(s, s');
    FrameDerived(c, s, s');
    FrameOneLive(s, s');
    forall w | w in s'.writers ensures WriterOk(c, s', w) { FrameWriter(c, s, s', w); }
  }

  lemma StoreKeepsFloors(c: Config, s: State, x: StoreEvent)
    requires Floors(c, s) && StoreEnabled(s, x)
    ensures Floors(c, DoStore(s, x))
  {
    var s' := DoStore(s, x);
    forall r | r in s'.runners ensures RunnerFloor(c, s', s'.runners[r]) { assert RunnerFloor(c, s, s.runners[r]); }
  }

  lemma StoreFrame(c: Config, s: State, x: StoreEvent)
    requires Retained(c, s) && StoreEnabled(s, x) && !x.Land? && s.live <= s.landed <= s.sent.Keys
    ensures var s' := DoStore(s, x);
            SameHistory(s, s') && Retained(c, s') && s'.live <= s'.landed <= s'.sent.Keys
  {
  }

  lemma StoreKeepsInv(c: Config, s: State, x: StoreEvent)
    requires Inv(c, s) && StoreEnabled(s, x)
    ensures Inv(c, DoStore(s, x))
  {
    if x.Land? {
      LandKeepsInv(c, s, x.k);
    } else {
      StoreKeepsFloors(c, s, x);
      StoreFrame(c, s, x);
      FrameKeepsInv(c, s, DoStore(s, x));
    }
  }

  // --- collectors --------------------------------------------------------------------

  lemma RunnerKeepsFloor(c: Config, s: State, r: nat, v: GcEvent)
    requires GcEnabled(c, s, r, v) && (r in s.runners ==> RunnerFloor(c, s, s.runners[r]))
    ensures RunnerFloor(c, s, RunnerAfter(c, s, r, v))
  {
  }

  lemma GcKeepsFloors(c: Config, s: State, r: nat, v: GcEvent)
    requires Floors(c, s) && GcEnabled(c, s, r, v)
    ensures Floors(c, DoRunner(c, s, r, v))
  {
    var s' := DoRunner(c, s, r, v);
    RunnerKeepsFloor(c, s, r, v);
    assert s'.markers == s.markers;
    forall q | q in s'.runners ensures RunnerFloor(c, s', s'.runners[q]) {
      if q != r { assert RunnerFloor(c, s, s.runners[q]); }
    }
  }

  /** Sweeping payloads below a floor that some committed head allows never reaches the window. */
  lemma GcKeepsRetained(c: Config, s: State, r: nat, v: GcEvent)
    requires Retained(c, s) && Floors(c, s) && Dense(s) && GcEnabled(c, s, r, v)
    ensures Retained(c, DoRunner(c, s, r, v))
  {
    if v.Sweep? {
      assert RunnerFloor(c, s, s.runners[r]);
    }
  }

  lemma GcFrame(c: Config, s: State, r: nat, v: GcEvent)
    requires GcEnabled(c, s, r, v)
    ensures var s' := DoRunner(c, s, r, v); SameHistory(s, s') && s'.landed == s.landed && s'.live <= s.live
  {
    RunnerWritesFrame(c, s, r, v);
    var t, s' := RunnerWrites(c, s, r, v), DoRunner(c, s, r, v);
    assert s' == t.(runners := s'.runners);
  }

  lemma RunnerWritesFrame(c: Config, s: State, r: nat, v: GcEvent)
    requires GcEnabled(c, s, r, v)
    ensures var t := RunnerWrites(c, s, r, v); SameHistory(s, t) && t.landed == s.landed && t.live <= s.live
  {
    if v.CommitLedger? { LedgerFrame(s, s.runners[r]); }
  }

  lemma LedgerFrame(s: State, R: Runner)
    requires PlanOf(R).SweepActions?
    ensures SameHistory(s, WithLedger(s, R)) && WithLedger(s, R).landed == s.landed && WithLedger(s, R).live == s.live
  {
  }

  lemma GcKeepsInv(c: Config, s: State, r: nat, v: GcEvent)
    requires Inv(c, s) && GcEnabled(c, s, r, v)
    ensures Inv(c, DoRunner(c, s, r, v))
  {
    GcFrame(c, s, r, v);
    GcKeepsFloors(c, s, r, v);
    GcKeepsRetained(c, s, r, v);
    FrameKeepsInv(c, s, DoRunner(c, s, r, v));
  }

  // --- writers -------------------------------------------------------------------------

  /** A writer's own step leaves markers, landed payloads, collectors and the ledger alone. */
  lemma WriterFrame(c: Config, s: State, w: nat, u: WriterEvent)
    requires WriterEnabled(s, w, u)
    ensures var s' := DoWriter(c, s, w, u);
            s'.markers == s.markers && s'.landed == s.landed && s'.live == s.live && s'.runners == s.runners
  {
    var t := WriterWrites(s, w, u);
    assert DoWriter(c, s, w, u) == t.(writers := s.writers[w := WriterAfter(c, s, w, u)]);
    WritesFrame(s, w, u);
  }

  lemma WritesFrame(s: State, w: nat, u: WriterEvent)
    requires WriterEnabled(s, w, u)
    ensures var t := WriterWrites(s, w, u);
            t.markers == s.markers && t.landed == s.landed && t.live == s.live && t.runners == s.runners
  {
  }

  lemma OnlyOwnRecord(c: Config, s: State, w: nat, u: WriterEvent)
    requires WriterEnabled(s, w, u)
    ensures DoWriter(c, s, w, u).writers == s.writers[w := WriterAfter(c, s, w, u)]
  {
  }

  lemma WriterSends(c: Config, s: State, w: nat, u: WriterEvent)
    requires WriterEnabled(s, w, u)
    ensures var s' := DoWriter(c, s, w, u);
            if u.Send? then s'.sent == s.sent[s.writers[w].phase.a.key := s.writers[w].phase.a] else s'.sent == s.sent
    ensures DoWriter(c, s, w, u).used == if u.Plan? then s.used[u.id := w] else s.used
  {
  }

  lemma WriterDrops(c: Config, s: State, w: nat, u: WriterEvent)
    requires WriterEnabled(s, w, u)
    ensures DoWriter(c, s, w, u).proposed == if u.Propose? then s.proposed + {s.writers[w].phase.a.key} else s.proposed
    ensures DoWriter(c, s, w, u).dropped ==
            if u.Drop? || (u.Quit? && s.writers[w].phase.Sent?)
            then s.dropped + {s.writers[w].phase.a.key}
            else s.dropped
  {
  }

  lemma WriterKeepsChanges(c: Config, s: State, w: nat, u: WriterEvent)
    requires WriterEnabled(s, w, u)
    ensures w in s.writers ==> WriterAfter(c, s, w, u).changes == s.writers[w].changes
  {
  }

  /** The effect of a writer's step on everything the commit invariant reads. */
  ghost predicate WriterDelta(c: Config, s: State, w: nat, u: WriterEvent, s': State)
    requires WriterEnabled(s, w, u)
  {
    && s'.markers == s.markers && s'.landed == s.landed && s'.live == s.live && s'.runners == s.runners
    && w in s'.writers && s'.writers == s.writers[w := s'.writers[w]]
    && (w in s.writers ==> s'.writers[w].changes == s.writers[w].changes)
    && (forall k :: k in s.sent ==> k in s'.sent && s'.sent[k] == s.sent[k])
    && s.proposed <= s'.proposed && s.dropped <= s'.dropped
    && (forall i :: i in s.used ==> i in s'.used && s'.used[i] == s.used[i])
    && (forall k :: k in s'.sent && k !in s.sent ==>
        u.Send? && k == s.writers[w].phase.a.key && s'.sent[k] == s.writers[w].phase.a)
    && (forall k :: k in s'.proposed && k !in s.proposed ==> u.Propose? && k == s.writers[w].phase.a.key)
    && (forall k :: k in s'.dropped && k !in s.dropped ==>
          (u.Drop? || u.Quit?) && s.writers[w].phase.Sent? && k == s.writers[w].phase.a.key)
  }

  lemma WriterHasDelta(c: Config, s: State, w: nat, u: WriterEvent)
    requires WriterEnabled(s, w, u) && (w in s.writers ==> WriterOk(c, s, w)) && Wire(s)
    ensures WriterDelta(c, s, w, u, DoWriter(c, s, w, u))
  {
    WriterFrame(c, s, w, u);
    OnlyOwnRecord(c, s, w, u);
    WriterSends(c, s, w, u);
    WriterDrops(c, s, w, u);
    WriterKeepsChanges(c, s, w, u);
  }

  lemma WriterKeepsSent(c: Config, s: State, w: nat, u: WriterEvent, s': State)
    requires WriterEnabled(s, w, u) && (w in s.writers ==> WriterOk(c, s, w)) && WriterDelta(c, s, w, u, s') && Wire(s)
    ensures forall k :: k in s'.sent ==> SentOk(s', k)
    ensures forall k, j :: k in s'.sent && j in s'.sent && k.id == j.id ==> k == j
  {
    forall k | k in s'.sent ensures SentOk(s', k) { if k in s.sent { assert SentOk(s, k); } }
  }

  lemma WriterKeepsWire(c: Config, s: State, w: nat, u: WriterEvent, s': State)
    requires WriterEnabled(s, w, u) && (w in s.writers ==> WriterOk(c, s, w)) && WriterDelta(c, s, w, u, s') && Wire(s)
    ensures Wire(s')
  {
    WriterKeepsSent(c, s, w, u, s');
  }

  lemma DeltaKeepsDataAt(c: Config, s: State, w: nat, u: WriterEvent, s': State, g: nat)
    requires WriterEnabled(s, w, u) && WriterDelta(c, s, w, u, s') && g in s.markers && KeyOf(s, g) in s.sent
    ensures DataAt(s', g) == DataAt(s, g) && PacksOf(s', KeyOf(s', g)) == PacksOf(s, KeyOf(s, g))
  {
  }

  lemma DeltaKeepsDerivedOk(c: Config, s: State, w: nat, u: WriterEvent, s': State, k: Key)
    requires WriterEnabled(s, w, u) && WriterDelta(c, s, w, u, s') && MarkersProposed(s)
    requires k in s.sent && DerivedOk(c, s, k)
    ensures DerivedOk(c, s', k)
  {
    if k.gen > 0 { DeltaKeepsDataAt(c, s, w, u, s', k.gen - 1); }
  }

  lemma SendIsDerived(c: Config, s: State, w: nat, s': State, a: Attempt)
    requires WriterEnabled(s, w, Send) && WriterDelta(c, s, w, Send, s') && MarkersProposed(s)
    requires AttemptOk(c, s, w, a) && a.key in s'.sent && s'.sent[a.key] == a
    ensures DerivedOk(c, s', a.key)
  {
    if a.key.gen > 0 { DeltaKeepsDataAt(c, s, w, Send, s', a.key.gen - 1); }
  }

  lemma WriterKeepsDerived(c: Config, s: State, w: nat, u: WriterEvent, s': State)
    requires WriterEnabled(s, w, u) && (w in s.writers ==> WriterOk(c, s, w)) && WriterDelta(c, s, w, u, s')
    requires Derived(c, s) && MarkersProposed(s)
    ensures Derived(c, s')
  {
    forall k | k in s'.sent ensures DerivedOk(c, s', k) && (k.gen == 0 ==> s'.sent[k].body.Whole?) {
      if k in s.sent {
        DeltaKeepsDerivedOk(c, s, w, u, s', k);
      } else {
        SendIsDerived(c, s, w, s', s.writers[w].phase.a);
      }
    }
  }

  lemma DeltaKeepsAttempt(c: Config, s: State, w: nat, u: WriterEvent, s': State, v: nat, a: Attempt)
    requires WriterEnabled(s, w, u) && WriterDelta(c, s, w, u, s') && MarkersProposed(s)
    requires v in s.writers && AttemptOk(c, s, v, a)
    ensures AttemptOk(c, s', v, a)
  {
    if a.key.gen > 0 { DeltaKeepsDataAt(c, s, w, u, s', a.key.gen - 1); }
  }

  lemma DeltaKeepsHeldKey(c: Config, s: State, w: nat, u: WriterEvent, s': State, v: nat, k: Key)
    requires WriterEnabled(s, w, u) && (w in s.writers ==> WriterOk(c, s, w)) && WriterDelta(c, s, w, u, s')
    requires v != w && k in s.sent && s.sent[k].owner == v
    ensures k in s'.sent && s'.sent[k] == s.sent[k]
    ensures k in s'.proposed <==> k in s.proposed
    ensures k in s'.dropped <==> k in s.dropped
  {
  }

  lemma OtherWriterOk(c: Config, s: State, w: nat, u: WriterEvent, s': State, v: nat)
    requires WriterEnabled(s, w, u) && (w in s.writers ==> WriterOk(c, s, w)) && WriterDelta(c, s, w, u, s')
    requires MarkersProposed(s) && v in s.writers && v != w && WriterOk(c, s, v)
    ensures WriterOk(c, s', v)
  {
    match s.writers[v].phase {
      case Based(t, _) => if t > 0 { DeltaKeepsDataAt(c, s, w, u, s', t - 1); }
      case Publishing(a) => DeltaKeepsAttempt(c, s, w, u, s', v, a);
      case Sent(a) => DeltaKeepsHeldKey(c, s, w, u, s', v, a.key);
      case Landed(a) => DeltaKeepsHeldKey(c, s, w, u, s', v, a.key);
      case _ =>
    }
  }

  lemma PlanStartsAttempt(c: Config, s: State, w: nat, u: WriterEvent)
    requires u.Plan? && WriterEnabled(s, w, u) && WriterOk(c, s, w) && MarkersProposed(s)
    requires forall k :: k in s.sent ==> SentOk(s, k)
    ensures WriterOk(c, DoWriter(c, s, w, u), w)
  {
    var t := s.writers[w].phase.target;
    assert forall k :: k in s.sent ==> k.id in s.used;
  }

  /** Pack traffic changes bookkeeping inside the attempt only. */
  lemma PackTrafficKeepsAttempt(c: Config, s: State, w: nat, u: WriterEvent, s': State)
    requires (u.PutPack? || u.Refresh? || u.Check?) && WriterEnabled(s, w, u) && WriterOk(c, s, w)
    requires s' == DoWriter(c, s, w, u) && WriterDelta(c, s, w, u, s') && MarkersProposed(s)
    ensures WriterOk(c, s', w)
  {
    var a := s.writers[w].phase.a;
    var a' := s'.writers[w].phase.a;
    assert a'.owner == a.owner && a'.key == a.key && a'.body == a.body && a'.novel == a.novel;
    DeltaKeepsAttempt(c, s, w, u, s', w, a);
  }

  lemma ResolvingStepsOk(c: Config, s: State, w: nat, u: WriterEvent, s': State)
    requires (u.Send? || u.Ack? || u.Propose? || u.Win? || u.Absent?) && WriterEnabled(s, w, u) && WriterOk(c, s, w)
    requires s' == DoWriter(c, s, w, u) && WriterDelta(c, s, w, u, s') && Wire(s)
    ensures WriterOk(c, s', w)
  {
    WriterSends(c, s, w, u);
    WriterDrops(c, s, w, u);
  }

  lemma DropOk(c: Config, s: State, w: nat, s': State, a: Attempt)
    requires w in s.writers && s.writers[w].phase == Sent(a) && a.owner == w && SentOk(s, a.key) && s.sent[a.key] == a
    requires DerivedOk(c, s, a.key) && MarkersProposed(s)
    requires WriterEnabled(s, w, Drop) && s' == DoWriter(c, s, w, Drop) && WriterDelta(c, s, w, Drop, s')
    ensures WriterOk(c, s', w)
  {
    if a.key.gen > 0 { DeltaKeepsDataAt(c, s, w, Drop, s', a.key.gen - 1); }
    assert s'.writers[w] == WriterAfter(c, s, w, Drop);
  }

  lemma FetchOk(c: Config, s: State, w: nat, u: WriterEvent, s': State)
    requires u.Fetch? && WriterEnabled(s, w, u) && s' == DoWriter(c, s, w, u) && WriterDelta(c, s, w, u, s')
    requires Dense(s) && MarkersProposed(s)
    ensures WriterOk(c, s', w)
  {
    DeltaKeepsDataAt(c, s, w, u, s', u.g);
  }

  lemma SimpleStepsOk(c: Config, s: State, w: nat, u: WriterEvent, s': State)
    requires (u.Begin? || u.Bootstrap? || u.Lose? || u.Quit?) && WriterEnabled(s, w, u)
    requires (w in s.writers ==> WriterOk(c, s, w))
    requires s' == DoWriter(c, s, w, u) && WriterDelta(c, s, w, u, s')
    ensures WriterOk(c, s', w)
  {
  }

  lemma ActingWriterOk(c: Config, s: State, w: nat, u: WriterEvent, s': State)
    requires WriterEnabled(s, w, u) && (w in s.writers ==> WriterOk(c, s, w))
    requires s' == DoWriter(c, s, w, u) && WriterDelta(c, s, w, u, s')
    requires Dense(s) && Wire(s) && Derived(c, s) && MarkersProposed(s)
    ensures WriterOk(c, s', w)
  {
    if u.Fetch? { FetchOk(c, s, w, u, s'); }
    else if u.Plan? { PlanStartsAttempt(c, s, w, u); }
    else if u.PutPack? || u.Refresh? || u.Check? { PackTrafficKeepsAttempt(c, s, w, u, s'); }
    else if u.Drop? { DropOk(c, s, w, s', s.writers[w].phase.a); }
    else if u.Begin? || u.Bootstrap? || u.Lose? || u.Quit? { SimpleStepsOk(c, s, w, u, s'); }
    else { ResolvingStepsOk(c, s, w, u, s'); }
  }

  lemma WriterKeepsOneLive(c: Config, s: State, w: nat, u: WriterEvent, s': State)
    requires WriterEnabled(s, w, u) && (w in s.writers ==> WriterOk(c, s, w))
    requires s' == DoWriter(c, s, w, u) && WriterDelta(c, s, w, u, s') && OneLive(s)
    ensures OneLive(s')
  {
    forall k | k in s'.proposed && !IsLost(s', k)
      ensures k in s'.sent && s'.sent[k].owner in s'.writers
                && CurrentKey(s'.writers[s'.sent[k].owner].phase) == Some(k)
    {
      if k in s.proposed { assert !IsLost(s, k); }
    }
  }

  lemma WriterKeepsPolicies(c: Config, s: State, w: nat, u: WriterEvent)
    requires Policies(s) && WriterEnabled(s, w, u)
    ensures Policies(DoWriter(c, s, w, u))
  {
    if u.Lose? {
      var W := s.writers[w];
      Rebase.ReplayCondition(W.changes, W.policy, W.attempt + 1, W.maxAttempts);
    }
  }

  lemma WriterKeepsWriters(c: Config, s: State, w: nat, u: WriterEvent, s': State)
    requires WriterEnabled(s, w, u) && Writers(c, s)
    requires s' == DoWriter(c, s, w, u) && WriterDelta(c, s, w, u, s')
    requires Dense(s) && Wire(s) && Derived(c, s) && MarkersProposed(s)
    ensures Writers(c, s')
  {
    if w in s.writers { assert WriterOk(c, s, w); }
    forall v | v in s'.writers ensures WriterOk(c, s', v) {
      if v == w { ActingWriterOk(c, s, w, u, s'); } else { OtherWriterOk(c, s, w, u, s', v); }
    }
  }

  lemma DeltaKeepsRest(c: Config, s: State, w: nat, u: WriterEvent, s': State)
    requires WriterEnabled(s, w, u) && WriterDelta(c, s, w, u, s')
    requires Dense(s) && MarkersProposed(s) && Retained(c, s) && Floors(c, s)
    ensures Dense(s') && MarkersProposed(s') && Retained(c, s') && Floors(c, s')
  {
    forall r | r in s'.runners ensures RunnerFloor(c, s', s'.runners[r]) { assert RunnerFloor(c, s, s.runners[r]); }
  }

  lemma WriterKeepsInv(c: Config, s: State, w: nat, u: WriterEvent)
    requires Inv(c, s) && WriterEnabled(s, w, u)
    ensures Inv(c, DoWriter(c, s, w, u))
  {
    var s' := DoWriter(c, s, w, u);
    if w in s.writers { assert WriterOk(c, s, w); }
    WriterHasDelta(c, s, w, u);
    WriterKeepsWire(c, s, w, u, s');
    WriterKeepsDerived(c, s, w, u, s');
    WriterKeepsOneLive(c, s, w, u, s');
    WriterKeepsPolicies(c, s, w, u);
    WriterKeepsWriters(c, s, w, u, s');
    DeltaKeepsRest(c, s, w, u, s');
  }

  /** Every step of every participant keeps the commit invariant. */
  lemma StepKeepsInv(c: Config, s: State, e: Event)
    requires Inv(c, s) && Enabled(c, s, e)
    ensures Inv(c, Do(c, s, e))
  {
    match e {
      case Store(x) => StoreKeepsInv(c, s, x);
      case Writing(w, u) => WriterKeepsInv(c, s, w, u);
      case Collecting(r, v) => GcKeepsInv(c, s, r, v);
    }
  }
}

/** The promises of the lake, over every finite run of every number of writers and collectors. */
module LakeTheorems {
  import opened Wrappers
  import opened Lake
  import LakeCommit
  import LakeLedger
  import LakePacks
  import Rebase
  import Chunk

  // --- invariants over runs --------------------------------------------------------

  /** The states in which the commit and ledger invariants hold. */
  ghost function Sound(c: Config): iset<State> {
    iset s | LakeCommit.Inv(c, s) && LakeLedger.Inv(c, s)
  }

  lemma StepIsSound(c: Config, s: State, e: Event)
    requires s in Sound(c) && Enabled(c, s, e)
    ensures Do(c, s, e) in Sound(c)
  {
    LakeCommit.StepKeepsInv(c, s, e);
    LakeLedger.StepKeepsInv(c, s, e);
  }

  lemma EmptyIsSound(c: Config)
    ensures Empty in Sound(c)
  {
  }

  lemma {:induction false} RunIsSound(c: Config, ss: seq<State>, es: seq<Event>, i: nat)
    requires IsRun(c, ss, es) && i < |ss|
    ensures ss[i] in Sound(c)
  {
    if i == 0 {
      EmptyIsSound(c);
    } else {
      RunIsSound(c, ss, es, i - 1);
      assert StepAt(c, ss, es, i - 1);
      StepIsSound(c, ss[i - 1], es[i - 1]);
    }
  }

  lemma RunKeepsInv(c: Config, ss: seq<State>, es: seq<Event>, i: nat)
    requires IsRun(c, ss, es) && i < |ss|
    ensures LakeCommit.Inv(c, ss[i]) && LakeLedger.Inv(c, ss[i])
  {
    RunIsSound(c, ss, es, i);
  }

  /** The states in which the pack invariant holds as well. */
  ghost function Safe(c: Config): iset<State> {
    iset s | s in Sound(c) && LakePacks.Inv(c, s)
  }

  lemma StepIsSafe(c: Config, s: State, e: Event)
    requires c.Valid() && s in Safe(c) && Enabled(c, s, e) && Timely(c, s, e)
    ensures Do(c, s, e) in Safe(c)
  {
    StepIsSound(c, s, e);
    LakePacks.StepKeepsInv(c, s, e);
  }

  lemma EmptyIsSafe(c: Config)
    ensures Empty in Safe(c)
  {
    EmptyIsSound(c);
  }

  lemma NextIsSafe(c: Config, ss: seq<State>, es: seq<Event>, i: nat)
    requires c.Valid() && IsTimelyRun(c, ss, es) && i < |es| && ss[i] in Safe(c)
    ensures ss[i + 1] in Safe(c)
  {
    assert StepAt(c, ss, es, i) && TimelyAt(c, ss, es, i);
    StepIsSafe(c, ss[i], es[i]);
  }

  lemma TimelyRunIsSafe(c: Config, ss: seq<State>, es: seq<Event>, i: nat)
    requires c.Valid() && IsTimelyRun(c, ss, es) && i < |ss|
    ensures ss[i] in Safe(c)
  {
    EmptyIsSafe(c);
    for j := 0 to i
      invariant ss[j] in Safe(c)
    {
      NextIsSafe(c, ss, es, j);
    }
  }

  // --- markers ------------------------------------------------------------------------

  lemma StoreKeepsMarkers(s: State, x: StoreEvent)
    requires StoreEnabled(s, x)
    ensures forall g :: g in s.markers ==> g in DoStore(s, x).markers && DoStore(s, x).markers[g] == s.markers[g]
  {
  }

  lemma StepKeepsMarkers(c: Config, s: State, e: Event)
    requires Enabled(c, s, e)
    ensures forall g :: g in s.markers ==> g in Do(c, s, e).markers && Do(c, s, e).markers[g] == s.markers[g]
  {
    match e {
      case Store(x) => StoreKeepsMarkers(s, x);
      case Writing(w, u) => LakeCommit.WriterFrame(c, s, w, u);
      case Collecting(r, v) => LakeCommit.GcFrame(c, s, r, v);
    }
  }

  /** Markers have no gaps, and once a generation is decided it is decided forever. */
  lemma MarkersDenseAndForever(c: Config, ss: seq<State>, es: seq<Event>, i: nat, j: nat)
    requires IsRun(c, ss, es) && i <= j < |ss|
    ensures forall g: nat :: g in ss[j].markers <==> g < Top(ss[j])
    ensures forall g :: g in ss[i].markers ==> g in ss[j].markers && ss[j].markers[g] == ss[i].markers[g]
  {
    RunKeepsInv(c, ss, es, j);
    MarkersStay(c, ss, es, i, j);
  }

  ghost predicate Extends(s: State, s': State) {
    forall g :: g in s.markers ==> g in s'.markers && s'.markers[g] == s.markers[g]
  }

  lemma {:induction false} MarkersStay(c: Config, ss: seq<State>, es: seq<Event>, i: nat, j: nat)
    requires IsRun(c, ss, es) && i <= j < |ss|
    ensures Extends(ss[i], ss[j])
  {
    if i < j {
      MarkersStay(c, ss, es, i, j - 1);
      assert StepAt(c, ss, es, j - 1);
      StepKeepsMarkers(c, ss[j - 1], es[j - 1]);
    }
  }

  lemma TopGrows(c: Config, ss: seq<State>, es: seq<Event>, i: nat, j: nat)
    requires IsRun(c, ss, es) && i <= j < |ss|
    ensures Top(ss[i]) <= Top(ss[j])
  {
    MarkersDenseAndForever(c, ss, es, i, j);
    MarkersDenseAndForever(c, ss, es, i, i);
    if Top(ss[i]) > 0 { assert Top(ss[i]) - 1 in ss[j].markers; }
  }

  lemma TopStep(c: Config, s: State, e: Event)
    requires Enabled(c, s, e)
    ensures Top(Do(c, s, e)) <= Top(s) + 1
  {
    match e {
      case Store(x) => StoreTopStep(s, x);
      case Writing(w, u) => LakeCommit.WriterFrame(c, s, w, u);
      case Collecting(r, v) => LakeCommit.GcFrame(c, s, r, v);
    }
  }

  lemma StoreTopStep(s: State, x: StoreEvent)
    requires StoreEnabled(s, x)
    ensures Top(DoStore(s, x)) <= Top(s) + 1
  {
    if x.Land? { assert DoStore(s, x).markers.Keys == s.markers.Keys + {x.k.gen}; }
  }

  lemma OnlyLandingsAdd(c: Config, s: State, e: Event)
    requires Enabled(c, s, e) && !(e.Store? && e.x.Land?)
    ensures Top(Do(c, s, e)) == Top(s)
  {
    match e {
      case Store(x) =>
      case Writing(w, u) => LakeCommit.WriterFrame(c, s, w, u);
      case Collecting(r, v) => LakeCommit.GcFrame(c, s, r, v);
    }
  }

  /** A create can only land as the next generation. */
  lemma MarkerIsNext(c: Config, ss: seq<State>, es: seq<Event>, k: Key)
    requires IsRun(c, ss, es) && StoreEnabled(ss[|es|], Land(k))
    ensures k.gen == Top(ss[|es|])
  {
    RunKeepsInv(c, ss, es, |es|);
    assert LakeCommit.SentOk(ss[|es|], k);
    LakeCommit.LandExtendsHead(c, ss[|es|], k);
  }

  /** Generations are added one at a time, so each was the head at some moment. */
  lemma {:induction false} EachWasHead(c: Config, ss: seq<State>, es: seq<Event>, i: nat, j: nat, n: nat)
    returns (k: nat)
    requires IsRun(c, ss, es) && i <= j < |ss| && Top(ss[i]) <= n <= Top(ss[j])
    ensures i <= k <= j && Top(ss[k]) == n
  {
    if n == Top(ss[j]) { return j; }
    assert StepAt(c, ss, es, j - 1);
    TopStep(c, ss[j - 1], es[j - 1]);
    k := EachWasHead(c, ss, es, i, j - 1, n);
  }

  /** A payload identifier is the marker of one generation at most. */
  lemma OneGenerationPerId(c: Config, ss: seq<State>, es: seq<Event>, i: nat, g: nat, h: nat)
    requires IsRun(c, ss, es) && i < |ss| && g in ss[i].markers && h in ss[i].markers
    ensures ss[i].markers[g].id == ss[i].markers[h].id ==> g == h
  {
    RunKeepsInv(c, ss, es, i);
    assert KeyOf(ss[i], g) in ss[i].sent && KeyOf(ss[i], h) in ss[i].sent;
  }

  /**
   * A marker, however late its create lands, names a payload that is present at that moment and extends the head by
   * one.
   */
  lemma MarkerLandsOnPayload(c: Config, ss: seq<State>, es: seq<Event>, i: nat, k: Key)
    requires IsRun(c, ss, es) && i < |es| && es[i] == Store(Land(k))
    ensures k in ss[i].live && k.gen == Top(ss[i]) && Top(ss[i + 1]) == Top(ss[i]) + 1
  {
    RunKeepsInv(c, ss, es, i);
    assert StepAt(c, ss, es, i);
    assert LakeCommit.SentOk(ss[i], k);
    LakeCommit.LandExtendsHead(c, ss[i], k);
  }

  /** No interleaving of collectors sweeps a payload of the last `retain` generations. */
  lemma WindowIsRetained(c: Config, ss: seq<State>, es: seq<Event>, i: nat, g: nat)
    requires IsRun(c, ss, es) && i < |ss| && g < Top(ss[i]) && g + c.retain >= Top(ss[i])
    ensures g in ss[i].markers && KeyOf(ss[i], g) in ss[i].live
  {
    RunKeepsInv(c, ss, es, i);
    assert g in ss[i].markers;
    assert KeyOf(ss[i], g) in ss[i].proposed;
  }

  // --- exactly once -------------------------------------------------------------------

  /** The run of the commit loop whose payload became generation g. */
  ghost function WinnerOf(s: State, g: nat): nat
    requires g in s.markers && KeyOf(s, g) in s.sent
  {
    s.sent[KeyOf(s, g)].owner
  }

  predicate Terminal(ph: Phase) {
    ph.Won? || ph.Aborted? || ph.Unknown? || ph.Stopped?
  }

  lemma TerminalStays(c: Config, s: State, e: Event, w: nat)
    requires Enabled(c, s, e) && w in s.writers
    requires Terminal(s.writers[w].phase)
    ensures w in Do(c, s, e).writers && Do(c, s, e).writers[w] == s.writers[w]
  {
    match e {
      case Store(x) => StoreKeepsWriters(s, x);
      case Writing(v, u) => LakeCommit.OnlyOwnRecord(c, s, v, u);
      case Collecting(r, v) => LakeCommit.GcFrame(c, s, r, v);
    }
  }

  lemma StoreKeepsWriters(s: State, x: StoreEvent)
    requires StoreEnabled(s, x)
    ensures DoStore(s, x).writers == s.writers
  {
  }

  lemma {:induction false} TerminalForever(c: Config, ss: seq<State>, es: seq<Event>, i: nat, j: nat, w: nat)
    requires IsRun(c, ss, es) && i <= j < |ss| && w in ss[i].writers
    requires Terminal(ss[i].writers[w].phase)
    ensures w in ss[j].writers && ss[j].writers[w] == ss[i].writers[w]
  {
    if i < j {
      TerminalForever(c, ss, es, i, j - 1, w);
      assert StepAt(c, ss, es, j - 1);
      TerminalStays(c, ss[j - 1], es[j - 1], w);
    }
  }

  lemma CommittedIsCurrent(c: Config, s: State, g: nat)
    requires LakeCommit.MarkersProposed(s) && LakeCommit.OneLive(s) && g in s.markers
    ensures KeyOf(s, g) in s.sent && WinnerOf(s, g) in s.writers
    ensures CurrentKey(s.writers[WinnerOf(s, g)].phase) == Some(KeyOf(s, g))
  {
    assert !IsLost(s, KeyOf(s, g));
  }

  /** One run of the commit loop owns at most one generation, however ambiguous its PUTs were. */
  lemma ExactlyOnce(c: Config, ss: seq<State>, es: seq<Event>, i: nat, g: nat, h: nat)
    requires IsRun(c, ss, es) && i < |ss| && g in ss[i].markers && h in ss[i].markers
    ensures KeyOf(ss[i], g) in ss[i].sent && KeyOf(ss[i], h) in ss[i].sent
    ensures WinnerOf(ss[i], g) == WinnerOf(ss[i], h) ==> g == h
  {
    RunKeepsInv(c, ss, es, i);
    CommittedIsCurrent(c, ss[i], g);
    CommittedIsCurrent(c, ss[i], h);
  }

  /** A returned result is permanent: that generation holds that payload in every later state. */
  lemma AcknowledgedForever(c: Config, ss: seq<State>, es: seq<Event>, i: nat, j: nat, w: nat)
    requires IsRun(c, ss, es) && i <= j < |ss| && w in ss[i].writers && ss[i].writers[w].phase.Won?
    ensures var k := ss[i].writers[w].phase.key;
            IsCommitted(ss[j], k) && k in ss[j].sent && WinnerOf(ss[j], k.gen) == w
  {
    TerminalForever(c, ss, es, i, j, w);
    RunKeepsInv(c, ss, es, j);
    assert LakeCommit.WriterOk(c, ss[j], w);
  }

  /** After a conflict abort none of the run's payloads is, or ever becomes, a generation. */
  lemma AbortedNever(c: Config, ss: seq<State>, es: seq<Event>, i: nat, j: nat, w: nat, g: nat)
    requires IsRun(c, ss, es) && i <= j < |ss| && w in ss[i].writers && ss[i].writers[w].phase.Aborted?
    requires g in ss[j].markers
    ensures KeyOf(ss[j], g) in ss[j].sent && WinnerOf(ss[j], g) != w
  {
    TerminalForever(c, ss, es, i, j, w);
    RunKeepsInv(c, ss, es, j);
    CommittedIsCurrent(c, ss[j], g);
  }

  // --- serial history --------------------------------------------------------------------

  /** The winners of generations 0 .. n - 1, in order. */
  ghost function Lineage(s: State, n: nat): seq<nat>
    requires forall g :: 0 <= g < n ==> g in s.markers && KeyOf(s, g) in s.sent
  {
    seq(n, g requires 0 <= g < n => WinnerOf(s, g))
  }

  /** The changesets of the winners of 1 .. g, applied one after another to the first payload. */
  ghost function Folded(c: Config, s: State, g: nat): Bytes {
    if g == 0 then DataAt(s, 0)
    else if g in s.markers && KeyOf(s, g) in s.sent && WinnerOf(s, g) in s.writers
    then c.Run(s.writers[WinnerOf(s, g)].changes, Folded(c, s, g - 1))
    else []
  }

  /** Generation g is its winner's changeset run on generation g - 1. */
  ghost predicate OneStep(c: Config, s: State, g: nat) {
    && g in s.markers && KeyOf(s, g) in s.sent && WinnerOf(s, g) in s.writers
    && (g > 0 ==> DataAt(s, g) == c.Run(s.writers[WinnerOf(s, g)].changes, DataAt(s, g - 1)))
  }

  lemma DerivedIsOneStep(c: Config, s: State, g: nat)
    requires g in s.markers && KeyOf(s, g) in s.sent && WinnerOf(s, g) in s.writers
    requires LakeCommit.DerivedOk(c, s, KeyOf(s, g))
    ensures OneStep(c, s, g)
  {
  }

  lemma InvIsOneStep(c: Config, s: State, g: nat)
    requires LakeCommit.Inv(c, s) && g < Top(s)
    ensures OneStep(c, s, g)
  {
    CommittedIsCurrent(c, s, g);
    assert LakeCommit.DerivedOk(c, s, KeyOf(s, g));
    DerivedIsOneStep(c, s, g);
  }

  lemma {:induction false} DataIsFold(c: Config, s: State, g: nat)
    requires forall h: nat :: h <= g ==> OneStep(c, s, h)
    ensures DataAt(s, g) == Folded(c, s, g)
  {
    assert OneStep(c, s, g);
    if g > 0 {
      DataIsFold(c, s, g - 1);
    }
  }

  lemma GenerationIsFold(c: Config, s: State, g: nat)
    requires LakeCommit.Inv(c, s) && g < Top(s)
    ensures g in s.markers && KeyOf(s, g) in s.sent && DataAt(s, g) == Folded(c, s, g)
  {
    forall h: nat | h <= g ensures OneStep(c, s, h) { InvIsOneStep(c, s, h); }
    DataIsFold(c, s, g);
    assert OneStep(c, s, g);
  }

  /**
   * The lake is a serial execution: every generation is its winner's changeset run on the previous one, so the head is
   * the fold of the winners' changesets; nobody appears twice, acknowledged runs appear, aborted ones do not.
   */
  lemma SerialHistory(c: Config, ss: seq<State>, es: seq<Event>, i: nat)
    requires IsRun(c, ss, es) && i < |ss|
    ensures forall g :: 0 <= g < Top(ss[i]) ==>
              g in ss[i].markers && KeyOf(ss[i], g) in ss[i].sent && DataAt(ss[i], g) == Folded(c, ss[i], g)
    ensures var l := Lineage(ss[i], Top(ss[i]));
            && (forall g, h :: 0 <= g < h < |l| ==> l[g] != l[h])
            && (forall w :: w in ss[i].writers && ss[i].writers[w].phase.Won? ==> w in l)
            && (forall w :: w in ss[i].writers && ss[i].writers[w].phase.Aborted? ==> w !in l)
  {
    var s := ss[i];
    forall g | 0 <= g < Top(s) ensures g in s.markers && KeyOf(s, g) in s.sent && DataAt(s, g) == Folded(c, s, g) {
      RunKeepsInv(c, ss, es, i);
      GenerationIsFold(c, s, g);
    }
    var l := Lineage(s, Top(s));
    forall g, h | 0 <= g < h < |l| ensures l[g] != l[h] { ExactlyOnce(c, ss, es, i, g, h); }
    forall w | w in s.writers && s.writers[w].phase.Won? ensures w in l {
      AcknowledgedForever(c, ss, es, i, i, w);
      MarkersDenseAndForever(c, ss, es, i, i);
      assert l[s.writers[w].phase.key.gen] == w;
    }
    forall w | w in s.writers && s.writers[w].phase.Aborted? ensures w !in l {
      forall g | 0 <= g < |l| ensures l[g] != w { AbortedNever(c, ss, es, i, i, w, g); }
    }
  }

  /** A run that was rebased onto a later head carries only blind appends, unless its caller opted into replay-all. */
  lemma OnlyBlindAppendsReplay(c: Config, ss: seq<State>, es: seq<Event>, i: nat, w: nat)
    requires IsRun(c, ss, es) && i < |ss| && w in ss[i].writers && ss[i].writers[w].replayed
    ensures ss[i].writers[w].policy == Rebase.ReplayAll || Rebase.BlindAppendsOnly(ss[i].writers[w].changes)
  {
    RunKeepsInv(c, ss, es, i);
  }

  // --- the ledger --------------------------------------------------------------------------

  /** The fence: committed cycles form one chain, and no two of them passed on the same ledger version. */
  lemma LedgerIsOneChain(c: Config, ss: seq<State>, es: seq<Event>, i: nat, m: nat, n: nat)
    requires IsRun(c, ss, es) && i < |ss| && m < n < |ss[i].cycles|
    ensures var ys := ss[i].cycles;
            && ys[m].etag < ys[n].etag
            && (ys[n].ref.RefAt? ==> ys[n].ref.etag == ys[n - 1].etag && ys[n].loaded == ys[n - 1].written)
            && !ys[n].ref.RefAbsent?
            && (ys[m].ref.RefAt? && ys[n].ref.RefAt? ==> ys[m].ref.etag < ys[n].ref.etag)
  {
    RunKeepsInv(c, ss, es, i);
    assert LakeLedger.LinkOk(ss[i].cycles, ss[i].etags, m);
    assert LakeLedger.LinkOk(ss[i].cycles, ss[i].etags, n);
  }

  lemma CondemnedRunner(c: Config, ss: seq<State>, es: seq<Event>, i: nat, r: nat)
    requires IsRun(c, ss, es) && i < |ss| && r in ss[i].runners && ss[i].runners[r].stage == Rechecked
    ensures var R := ss[i].runners[r];
            LakeLedger.CycleOf(ss[i], R) && LakeLedger.LinkOk(ss[i].cycles, ss[i].etags, R.cycle)
            && R.grace >= c.grace && LakeLedger.RowsAged(c, ss[i], R.cold)
  {
    RunKeepsInv(c, ss, es, i);
    assert LakeLedger.RunnerOk(c, ss[i], ss[i].runners[r]);
  }

  lemma CondemnedByFencedCycle(c: Config, s: State, R: Runner, p: Pack)
    requires LakeLedger.CycleOf(s, R) && R.doomed == Some(p) && LakeLedger.LinkOk(s.cycles, s.etags, R.cycle)
    ensures var ys := s.cycles;
            && ys[R.cycle].ref.RefAt? && R.cycle > 0
            && p in ys[R.cycle - 1].written && ys[R.cycle].now > ys[R.cycle - 1].written[p] + ys[R.cycle].grace
            && p !in ys[R.cycle].written
  {
    assert LakeLedger.RowOk(s.cycles[R.cycle], p);
  }

  /** What the delete of p rests on: a fenced cycle that read p's row from the version before it and dropped it. */
  lemma DeletesAreFenced(c: Config, ss: seq<State>, es: seq<Event>, i: nat, r: nat)
    requires IsRun(c, ss, es) && i < |es| && es[i] == Collecting(r, Delete)
    ensures r in ss[i].runners && ss[i].runners[r].doomed.Some? && ss[i].runners[r].cycle < |ss[i].cycles|
    ensures var R := ss[i].runners[r];
            var p := R.doomed.value;
            var ys := ss[i].cycles;
            && ys[R.cycle].ref.RefAt? && R.cycle > 0
            && p in ys[R.cycle - 1].written && ys[R.cycle].now > ys[R.cycle - 1].written[p] + ys[R.cycle].grace
            && p !in ys[R.cycle].written
            && LakeLedger.TwoGraces(c, ss[i], p, ys[R.cycle].now)
  {
    var s := ss[i];
    assert StepAt(c, ss, es, i);
    CondemnedRunner(c, ss, es, i, r);
    CondemnedByFencedCycle(c, s, s.runners[r], s.runners[r].doomed.value);
    LakeLedger.DeletableTwiceAged(c, s, s.runners[r], s.runners[r].doomed.value);
  }

  /** A tombstone in the store goes back to the cycle that stamped it, and every commit since saw the pack cold. */
  lemma TombstoneMeaning(c: Config, ss: seq<State>, es: seq<Event>, i: nat, p: Pack) returns (m: nat)
    requires IsRun(c, ss, es) && i < |ss| && p in LedgerRows(ss[i].ledger)
    ensures m < |ss[i].cycles| && LakeLedger.ColdSince(ss[i].cycles, m, |ss[i].cycles| - 1, p)
    ensures LedgerRows(ss[i].ledger)[p] == ss[i].cycles[m].now
    ensures p in ss[i].firstPut && ss[i].firstPut[p] + c.grace < ss[i].cycles[m].now
  {
    RunKeepsInv(c, ss, es, i);
    m := LakeLedger.RowMeansColdSince(ss[i].cycles, ss[i].etags, |ss[i].cycles| - 1, p);
  }

  /** No pack disappears before two graces have passed since it first existed, timely run or not. */
  lemma TwoGracesBeforeDeletion(c: Config, ss: seq<State>, es: seq<Event>, i: nat, p: Pack)
    requires IsRun(c, ss, es) && i < |ss| && p in ss[i].firstPut && p !in ss[i].packs
    ensures ss[i].clock > ss[i].firstPut[p] + 2 * c.grace
  {
    RunKeepsInv(c, ss, es, i);
  }

  // --- where packs come from -----------------------------------------------------------------------

  /** Generation g's packs are its predecessor's or were re-PUT by its own winner. */
  ghost predicate Inherits(s: State, g: nat) {
    && g in s.markers && KeyOf(s, g) in s.sent
    && (g > 0 ==>
          && g - 1 in s.markers
          && PacksOf(s, KeyOf(s, g)) <= s.sent[KeyOf(s, g)].refreshed.Keys + PacksOf(s, KeyOf(s, g - 1)))
  }

  lemma InvInherits(c: Config, s: State, g: nat)
    requires LakeCommit.Inv(c, s) && g < Top(s)
    ensures Inherits(s, g)
  {
    CommittedIsCurrent(c, s, g);
    assert LakeCommit.DerivedOk(c, s, KeyOf(s, g));
    assert LakeCommit.SentOk(s, KeyOf(s, g));
  }

  lemma {:induction false} PackIsInheritedOrNovel(s: State, a: nat, g: nat, p: Pack) returns (h: nat)
    requires a <= g && forall n: nat :: n <= g ==> Inherits(s, n)
    requires g in s.markers && a in s.markers
    requires p in PacksOf(s, KeyOf(s, g)) && p !in PacksOf(s, KeyOf(s, a))
    ensures a < h <= g && Inherits(s, h) && p in s.sent[KeyOf(s, h)].refreshed
  {
    assert Inherits(s, g);
    if p in s.sent[KeyOf(s, g)].refreshed {
      h := g;
    } else {
      h := PackIsInheritedOrNovel(s, a, g - 1, p);
    }
  }

  /**
   * The mark-set induction: a pack of generation g that an earlier generation a does not reference was re-PUT by the
   * winner of some generation in (a, g]. Marking a and sparing young packs therefore covers everything above a.
   */
  lemma MarkSetInduction(c: Config, ss: seq<State>, es: seq<Event>, i: nat, a: nat, g: nat, p: Pack) returns (h: nat)
    requires IsRun(c, ss, es) && i < |ss| && a <= g < Top(ss[i])
    requires a in ss[i].markers && g in ss[i].markers
    requires p in PacksOf(ss[i], KeyOf(ss[i], g)) && p !in PacksOf(ss[i], KeyOf(ss[i], a))
    ensures a < h <= g && h in ss[i].markers && KeyOf(ss[i], h) in ss[i].sent
    ensures p in ss[i].sent[KeyOf(ss[i], h)].refreshed
  {
    RunKeepsInv(c, ss, es, i);
    forall n: nat | n <= g ensures Inherits(ss[i], n) { InvInherits(c, ss[i], n); }
    assert Inherits(ss[i], a);
    h := PackIsInheritedOrNovel(ss[i], a, g, p);
  }

  // --- pack safety and the whole system ----------------------------------------------------------

  /** Every pack of every generation in the window is present, in every state of every timely run. */
  lemma PackSafety(c: Config, ss: seq<State>, es: seq<Event>, i: nat, g: nat, p: Pack)
    requires c.Valid() && IsTimelyRun(c, ss, es) && i < |ss|
    requires g in ss[i].markers && g + c.retain >= Top(ss[i]) && p in PacksOf(ss[i], KeyOf(ss[i], g))
    ensures p in ss[i].packs
  {
    RunKeepsInv(c, ss, es, i);
    TimelyRunIsSafe(c, ss, es, i);
    WindowIsRetained(c, ss, es, i, g);
    assert LakePacks.Relevant(c, ss[i], KeyOf(ss[i], g));
    assert LakePacks.Safe(c, ss[i], KeyOf(ss[i], g), p);
  }

  /** What a reader gets from the store as it is: None when some object it needs is missing. */
  ghost function ReadBack(s: State, k: Key): Option<Bytes> {
    if k !in s.live || k !in s.sent then None
    else match s.sent[k].body
      case Whole(b) => Some(b)
      case Chunked(m) =>
        if m.Packs() <= s.packs.Keys && Chunk.EntriesOk(m.entries)
        then Some(Chunk.Contents(m.entries, |m.entries|))
        else None
  }

  /** The whole system: each retained generation reads back as the fold of its winners' changesets. */
  lemma WindowReadsBackHistory(c: Config, ss: seq<State>, es: seq<Event>, i: nat, g: nat)
    requires c.Valid() && IsTimelyRun(c, ss, es) && i < |ss| && g < Top(ss[i]) && g + c.retain >= Top(ss[i])
    ensures g in ss[i].markers && ReadBack(ss[i], KeyOf(ss[i], g)) == Some(Folded(c, ss[i], g))
  {
    var s := ss[i];
    WindowIsRetained(c, ss, es, i, g);
    SerialHistory(c, ss, es, i);
    PayloadIsWellFormed(c, ss, es, i, g);
    forall p | p in PacksOf(s, KeyOf(s, g)) ensures p in s.packs { PackSafety(c, ss, es, i, g, p); }
  }

  lemma PayloadIsWellFormed(c: Config, ss: seq<State>, es: seq<Event>, i: nat, g: nat)
    requires IsRun(c, ss, es) && i < |ss| && g in ss[i].markers && KeyOf(ss[i], g) in ss[i].sent
    ensures WellFormedPayload(ss[i].sent[KeyOf(ss[i], g)].body)
  {
    RunKeepsInv(c, ss, es, i);
    assert LakeCommit.SentOk(ss[i], KeyOf(ss[i], g));
  }
}

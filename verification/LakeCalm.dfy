/** An operator's view of the third assumption of pack safety: a collector never falls a whole window behind. */
module LakeCalm {
  import opened Wrappers
  import opened Lake
  import LakeTheorems
  import opened LakeActors

  // --- from reading a marker to reading its payload ----------------------------------------------

  /** Event j reads the marker of k's generation, and collector r does nothing else before event i. */
  ghost predicate ReadsMarker(es: seq<Event>, j: nat, i: nat, r: nat, k: Key) {
    j < i <= |es| && es[j] == Collecting(r, Peek(k)) && forall m :: j < m < i ==> !IsBy(es[m], ACollector(r))
  }

  /** Between a runner's states at j + 1 and i nothing of it changed, and what it saw is what was there at j. */
  ghost predicate Remembers(ss: seq<State>, j: nat, i: nat, r: nat, k: Key)
    requires j < i < |ss|
  {
    && r in ss[i].runners && ss[i].runners[r].stage == PacksListed
    && ss[i].runners[r].peek == Some((k, k.gen in ss[j].markers))
  }

  lemma PeekRemembers(c: Config, s: State, r: nat, k: Key)
    requires Enabled(c, s, Collecting(r, Peek(k)))
    ensures var t := Do(c, s, Collecting(r, Peek(k)));
            r in t.runners && t.runners[r].stage == PacksListed && t.runners[r].peek == Some((k, k.gen in s.markers))
  {
    OnlyOwnRunner(c, s, r, Peek(k));
  }

  /** Only a Peek leaves something peeked at. */
  lemma OnlyPeekPeeks(c: Config, s: State, r: nat, v: GcEvent)
    requires GcEnabled(c, s, r, v) && !v.Peek?
    requires r in s.runners && s.runners[r].peek.Some? ==>
              s.runners[r].stage == PacksListed || s.runners[r].stage == Halted
    ensures var R' := RunnerAfter(c, s, r, v); R'.peek.None? || R'.stage == Halted
  {
  }

  /** Every collector about to read a payload read that payload's marker at its previous move. */
  lemma {:induction false} LastPeek(c: Config, ss: seq<State>, es: seq<Event>, i: nat, r: nat) returns (j: nat)
    requires IsRun(c, ss, es) && i < |ss|
    requires r in ss[i].runners && ss[i].runners[r].peek.Some? && ss[i].runners[r].stage != Halted
    ensures var k := ss[i].runners[r].peek.value.0;
            ReadsMarker(es, j, i, r, k) && Remembers(ss, j, i, r, k)
  {
    assert i > 0;
    assert StepAt(c, ss, es, i - 1);
    var s, e := ss[i - 1], es[i - 1];
    if !IsBy(e, ACollector(r)) {
      OthersLeave(c, s, e, ACollector(r));
      j := LastPeek(c, ss, es, i - 1, r);
    } else if e.v.Peek? {
      PeekRemembers(c, s, r, e.v.k);
      j := i - 1;
    } else {
      OnlyOwnRunner(c, s, r, e.v);
      if r in s.runners && s.runners[r].peek.Some? && s.runners[r].stage != Halted {
        j := LastPeek(c, ss, es, i - 1, r);
      }
      OnlyPeekPeeks(c, s, r, e.v);
      assert false;
    }
  }

  /**
   * A collector can skip a payload as a vanished orphan although it was committed only if more than `retain`
   * generations landed between its reading the marker and its reading the payload.
   */
  lemma SkippingTakesAWindow(c: Config, ss: seq<State>, es: seq<Event>, j: nat, i: nat, r: nat, k: Key)
    requires IsRun(c, ss, es) && ReadsMarker(es, j, i, r, k) && i < |ss| && Remembers(ss, j, i, r, k)
    requires SkipsCommitted(ss[i], ss[i].runners[r])
    ensures Top(ss[i]) > Top(ss[j]) + c.retain
  {
    LakeTheorems.RunKeepsInv(c, ss, es, j);
    LakeTheorems.RunKeepsInv(c, ss, es, i);
    assert KeyOf(ss[i], k.gen) == k;
    assert k in ss[i].landed;
  }

  // --- calm runs ---------------------------------------------------------------------------------------

  /** While a collector goes from a marker to its payload, at most n generations land. */
  ghost predicate Calm(n: nat, ss: seq<State>, es: seq<Event>)
    requires |ss| == |es| + 1
  {
    forall j: nat, i: nat, r: nat, k :: ResolvesAfter(es, j, i, r, k) ==> Top(ss[i]) <= Top(ss[j]) + n
  }

  ghost predicate ResolvesAfter(es: seq<Event>, j: nat, i: nat, r: nat, k: Key) {
    ReadsMarker(es, j, i, r, k) && i < |es| && IsBy(es[i], ACollector(r)) && es[i].v.Resolve?
  }

  ghost predicate PunctualRun(c: Config, ss: seq<State>, es: seq<Event>) {
    IsRun(c, ss, es) && forall i :: 0 <= i < |es| ==> PunctualAt(c, ss, es, i)
  }

  ghost predicate PunctualAt(c: Config, ss: seq<State>, es: seq<Event>, i: nat)
    requires i < |es| && i < |ss|
  {
    Punctual(c, ss[i], es[i])
  }

  lemma CalmStepIsTimely(c: Config, ss: seq<State>, es: seq<Event>, i: nat)
    requires PunctualRun(c, ss, es) && Calm(c.retain, ss, es) && i < |es|
    ensures TimelyAt(c, ss, es, i)
  {
    assert PunctualAt(c, ss, es, i) && StepAt(c, ss, es, i);
    if es[i].Collecting? && es[i].v.Resolve? && SkipsCommitted(ss[i], ss[i].runners[es[i].r]) {
      var r := es[i].r;
      var k := ss[i].runners[r].peek.value.0;
      var j := LastPeek(c, ss, es, i, r);
      assert ResolvesAfter(es, j, i, r, k);
      SkippingTakesAWindow(c, ss, es, j, i, r, k);
      assert false;
    }
  }

  /** Deliveries and cycles in time, and no collector a window behind: then every pack of the window is there. */
  lemma CalmRunIsSafe(c: Config, ss: seq<State>, es: seq<Event>, i: nat, g: nat, p: Pack)
    requires c.Valid() && PunctualRun(c, ss, es) && Calm(c.retain, ss, es) && i < |ss|
    requires g in ss[i].markers && g + c.retain >= Top(ss[i]) && p in PacksOf(ss[i], KeyOf(ss[i], g))
    ensures p in ss[i].packs
  {
    forall m | 0 <= m < |es| ensures TimelyAt(c, ss, es, m) { CalmStepIsTimely(c, ss, es, m); }
    LakeTheorems.PackSafety(c, ss, es, i, g, p);
  }
}

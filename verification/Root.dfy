/** Discovering the head over markers that other writers keep appending while the search runs. */
module Root {
  import opened Wrappers
  import opened Lake
  import opened LakeBucket
  import LakeTheorems

  datatype RootDoc = RootDoc(generation: nat, payload: nat)

  datatype Outcome = Won | Lost | Absent

  const PROBE_CAP := 4096
  const GALLOP_CAP := 1024

  // --- reading markers -------------------------------------------------------------------------------------

  function DocAt(s: State, g: nat): Option<RootDoc> {
    if g in s.markers then Some(RootDoc(g, s.markers[g].id)) else None
  }

  /** Markers are 0 .. Top - 1, and their number only grows. */
  lemma DenseNow(c: Config, ss: seq<State>, es: seq<Event>, i: nat, g: nat)
    requires IsRun(c, ss, es) && i < |ss|
    ensures g in ss[|es|].markers <==> g < Top(ss[|es|])
    ensures Top(ss[i]) <= Top(ss[|es|])
  {
    LakeTheorems.MarkersDenseAndForever(c, ss, es, i, |es|);
    LakeTheorems.TopGrows(c, ss, es, i, |es|);
  }

  /** A marker beyond the last generation that can be named is never asked for. */
  method ReadMarker(b: Bucket, g: nat) returns (doc: Option<RootDoc>)
    requires b.Valid() && g <= MAX_GENERATION
    modifies b
    ensures b.Browsed() && b.lookups == old(b.lookups) + 1 && b.hints == old(b.hints)
    ensures LakeTheorems.Extends(old(b.s), b.s)
    ensures doc == DocAt(b.s, g) && (doc.Some? <==> g < Top(b.s))
  {
    b.Wait();
    DenseNow(b.c, b.states, b.events, |b.events|, g);
    b.lookups := b.lookups + 1;
    doc := if g in b.s.markers then Some(RootDoc(g, b.s.markers[g].id)) else None;
  }

  /** One GET decides what became of a marker create. */
  method ResolveMarker(b: Bucket, g: nat, ours: nat) returns (o: Outcome)
    requires b.Valid() && g <= MAX_GENERATION
    modifies b
    ensures b.Browsed() && b.lookups == old(b.lookups) + 1 && b.hints == old(b.hints)
    ensures o == OutcomeOf(b.s, g, ours)
  {
    var doc := ReadMarker(b, g);
    if doc.None? { return Outcome.Absent; }
    return if doc.value.payload == ours then Outcome.Won else Outcome.Lost;
  }

  function OutcomeOf(s: State, g: nat, ours: nat): Outcome {
    if g !in s.markers then Outcome.Absent else if s.markers[g].id == ours then Outcome.Won else Outcome.Lost
  }

  /** WON and LOST are final, and WON at one generation means LOST or ABSENT at all others, now and later. */
  lemma OutcomeIsFinal(c: Config, ss: seq<State>, es: seq<Event>, i: nat, j: nat, g: nat, h: nat, ours: nat)
    requires IsRun(c, ss, es) && i <= j < |ss|
    ensures !OutcomeOf(ss[i], g, ours).Absent? ==> OutcomeOf(ss[j], g, ours) == OutcomeOf(ss[i], g, ours)
    ensures OutcomeOf(ss[i], g, ours).Won? && h != g ==> !OutcomeOf(ss[j], h, ours).Won?
  {
    LakeTheorems.MarkersStay(c, ss, es, i, j);
    if g in ss[j].markers && h in ss[j].markers { LakeTheorems.OneGenerationPerId(c, ss, es, j, g, h); }
  }

  // --- powers of two ----------------------------------------------------------------------------

  function Pow2(k: nat): (p: nat)
    ensures p > 0
  {
    if k == 0 then 1 else 2 * Pow2(k - 1)
  }

  /** floor(log2(n)) for n >= 1. */
  function Log2(n: nat): (k: nat)
    requires n >= 1
    ensures Pow2(k) <= n < Pow2(k + 1)
  {
    if n == 1 then 0 else
      var k := Log2(n / 2);
      assert Pow2(k + 1) == 2 * Pow2(k) && Pow2(k + 2) == 2 * Pow2(k + 1);
      k + 1
  }

  lemma {:induction false} Pow2Monotone(i: nat, j: nat)
    requires i <= j
    ensures Pow2(i) <= Pow2(j)
  {
    if i < j { Pow2Monotone(i, j - 1); }
  }

  lemma {:induction false} Log2AtLeast(n: nat, k: nat)
    requires Pow2(k) <= n
    ensures k <= Log2(n)
  {
    if k > 0 { Log2AtLeast(n / 2, k - 1); }
  }

  // --- galloping ------------------------------------------------------------------------------------

  /**
   * Exponential bracket, then binary search. The answer lies between the head at the start and the head at the end,
   * so it was the head at some moment in between; on a quiet bucket it is the head, after at most 2 floor(log2(head
   * + 1)) + 3 reads.
   */
  method GallopDiscover(b: Bucket) returns (doc: Option<RootDoc>)
    requires b.Valid()
    modifies b
    ensures b.Browsed() && b.hints == old(b.hints)
    ensures doc.None? ==> Top(b.s) == 0
    ensures doc.Some? ==>
              Top(old(b.s)) <= doc.value.generation + 1 <= Top(b.s) && doc == DocAt(b.s, doc.value.generation)
    ensures b.quiet && doc.Some? ==> b.lookups - old(b.lookups) <= 2 * Log2(Top(b.s)) + 3
  {
    var lowDoc := ReadMarker(b, 0);
    if lowDoc.None? { return None; }
    ghost var i, x := |b.states| - 1, b.Now();
    var last, k := FindLast(b);
    BrowsedTwice(b.me, b.quiet, old(b.Now()), x, b.Now());
    Log2AtLeast(Top(b.s), k);
    LakeTheorems.MarkersStay(b.c, b.states, b.events, i, |b.events|);
    if last == 0 { return lowDoc; }
    x := b.Now();
    doc := ReadMarker(b, last);
    BrowsedTwice(b.me, b.quiet, old(b.Now()), x, b.Now());
  }

  /** The bracket, and the search in it. */
  method FindLast(b: Bucket) returns (last: nat, ghost k: nat)
    requires b.Valid() && 0 < Top(b.s)
    modifies b
    ensures b.Browsed() && b.hints == old(b.hints)
    ensures Top(old(b.s)) <= last + 1 <= Top(b.s) && Pow2(k) <= Top(b.s)
    ensures b.lookups - old(b.lookups) <= 2 * k + 1
  {
    var lo, hi;
    lo, hi, k := Bracket(b);
    ghost var x := b.Now();
    last := Frontier(b, lo, hi, k, Top(old(b.s)));
    BrowsedTwice(b.me, b.quiet, old(b.Now()), x, b.Now());
  }

  /**
   * Doubling from 0 to the first gap: lo = 2^k - 1 is present, hi = lo + 2^k was absent when read, or is out of
   * range.
   */
  method Bracket(b: Bucket) returns (lo: nat, hi: nat, ghost k: nat)
    requires b.Valid() && 0 < Top(b.s)
    modifies b
    ensures b.Browsed() && b.hints == old(b.hints)
    ensures lo == Pow2(k) - 1 < Top(b.s) && lo < hi <= lo + Pow2(k) && hi <= MAX_GENERATION + 1
    ensures Top(old(b.s)) <= hi
    ensures b.lookups - old(b.lookups) <= k + 1
  {
    lo, k := 0, 0;
    var step := 1;
    while true
      invariant b.Browsed() && b.hints == old(b.hints) && b.lookups - old(b.lookups) == k
      invariant step == Pow2(k) && lo == step - 1 && lo < Top(b.s)
      decreases MAX_GENERATION - lo
    {
      var probe := lo + step;
      if probe > MAX_GENERATION { return lo, MAX_GENERATION + 1, k; }
      ghost var x := b.Now();
      var doc := ReadMarker(b, probe);
      BrowsedTwice(b.me, b.quiet, old(b.Now()), x, b.Now());
      if doc.None? { return lo, probe, k; }
      lo, step, k := probe, step * 2, k + 1;
    }
  }

  /** Binary search for the last present generation in [lo, hi); `floor` markers existed before the search. */
  method Frontier(b: Bucket, lo: nat, hi: nat, ghost k: nat, ghost floor: nat) returns (last: nat)
    requires b.Valid() && lo < Top(b.s) && lo < hi <= lo + Pow2(k) && hi <= MAX_GENERATION + 1
    requires floor <= Top(b.s) && floor <= hi
    modifies b
    ensures b.Browsed() && b.hints == old(b.hints)
    ensures lo <= last < Top(b.s) && last < hi && floor <= last + 1
    ensures b.lookups - old(b.lookups) <= k
  {
    last := lo;
    var left, right := lo + 1, hi - 1;
    ghost var j: nat := k;
    while left <= right
      invariant b.Browsed() && b.hints == old(b.hints)
      invariant left == last + 1 && lo <= last < Top(b.s) && last <= right < hi && floor <= right + 1
      invariant right + 1 - left < Pow2(j) && j <= k && b.lookups - old(b.lookups) <= k - j
      decreases right - left
    {
      var mid := (left + right) / 2;
      assert j > 0 by { assert Pow2(0) == 1; }
      ghost var x := b.Now();
      var doc := ReadMarker(b, mid);
      BrowsedTwice(b.me, b.quiet, old(b.Now()), x, b.Now());
      if doc.None? { right := mid - 1; } else { last := mid; left := mid + 1; }
      j := j - 1;
    }
  }

  // --- forward probing --------------------------------------------------------------------------------

  function Capped(step: nat): nat {
    if 2 * step <= GALLOP_CAP then 2 * step else GALLOP_CAP
  }

  /** Probes the forward search needs from `r` generations before the frontier, at the given step. */
  function Probes(r: nat, step: nat): (n: nat)
    requires 1 <= step
    decreases r, step
  {
    if step <= r then 1 + Probes(r - step, Capped(step))
    else if step == 1 then 1
    else 1 + Probes(r, 1)
  }

  /** k + (k - 1) + ... + 1 + 2. */
  function Triangle(k: nat): nat {
    if k == 0 then 2 else Triangle(k - 1) + k
  }

  lemma {:induction false} TriangleMonotone(i: nat, j: nat)
    requires i <= j
    ensures Triangle(i) <= Triangle(j)
  {
    if i < j { TriangleMonotone(i, j - 1); }
  }

  /** Within a bracket of 2^k, each overshoot at least halves what is left. */
  lemma {:induction false} ProbesInBracket(r: nat, i: nat, k: nat)
    requires i <= k <= 10 && r + Pow2(i) <= Pow2(k)
    ensures Probes(r, Pow2(i)) + i <= Triangle(k)
    decreases k, k - i
  {
    assert Pow2(0) == 1 && Triangle(0) == 2;
    Pow2Monotone(i, k);
    TriangleMonotone(0, k);
    if Pow2(i) <= r {
      assert i < k;
      PowersUpToCap(i + 1);
      assert Pow2(i + 1) == 2 * Pow2(i);
      ProbesInBracket(r - Pow2(i), i + 1, k);
    } else if i > 0 {
      if i < k {
        ProbesInBracket(r, 0, i);
        TriangleMonotone(i, k - 1);
      } else {
        TriangleMonotone(1, k);
      }
    }
  }

  lemma PowersUpToCap(k: nat)
    requires k <= 10
    ensures Pow2(k) <= GALLOP_CAP && Pow2(10) == GALLOP_CAP
  {
    assert Pow2(5) == 32;
    assert Pow2(10) == 1024;
    Pow2Monotone(k, 10);
  }

  /** At full stride, 1024 generations a probe. */
  lemma {:induction false} ProbesAtCap(r: nat)
    ensures Probes(r, GALLOP_CAP) <= r / 1024 + 58
    decreases r
  {
    PowersUpToCap(10);
    if r >= GALLOP_CAP {
      ProbesAtCap(r - GALLOP_CAP);
    } else {
      assert Triangle(10) == 57;
      ProbesInBracket(r, 0, 10);
    }
  }

  lemma {:induction false} ProbesAccelerate(r: nat, i: nat)
    requires i <= 10
    ensures Probes(r, Pow2(i)) + i <= r / 1024 + 68
    decreases 10 - i
  {
    PowersUpToCap(i);
    if i == 10 {
      ProbesAtCap(r);
    } else if Pow2(i) <= r {
      PowersUpToCap(i + 1);
      assert Pow2(i + 1) == 2 * Pow2(i);
      ProbesAccelerate(r - Pow2(i), i + 1);
    } else {
      assert Triangle(10) == 57;
      ProbesInBracket(r, 0, 10);
    }
  }

  /** Catching up over distance d takes at most d / 1024 + 68 probes. */
  lemma ProbesBound(d: nat)
    ensures Probes(d, 1) <= d / 1024 + 68
  {
    ProbesAccelerate(d, 0);
    assert Pow2(0) == 1;
  }

  /** Probes until the search stands on the frontier, whether or not it has noticed. */
  function ProbesToHead(r: nat, step: nat): (n: nat)
    requires 1 <= step
    decreases r, step
  {
    if r == 0 then 0
    else if step <= r then 1 + ProbesToHead(r - step, Capped(step))
    else 1 + ProbesToHead(r, 1)
  }

  /** Noticing the frontier takes one or two probes more. */
  lemma {:induction false} NoticingTakesTwo(r: nat, step: nat)
    requires 1 <= step
    ensures ProbesToHead(r, step) + 1 <= Probes(r, step) <= ProbesToHead(r, step) + 2
    decreases r, step
  {
    if r > 0 {
      if step <= r { NoticingTakesTwo(r - step, Capped(step)); } else { NoticingTakesTwo(r, 1); }
    }
  }

  // --- resolving the head -------------------------------------------------------------------------------

  /** g was the head in some state from `from` on. */
  ghost predicate WasHead(states: seq<State>, from: int, g: nat) {
    exists i: nat :: from <= i < |states| && Top(states[i]) == g + 1
  }

  /** A hint led to g that was more than two thousand generations behind it. */
  ghost predicate FarFromHint(hints: set<nat>, g: nat) {
    exists h :: h in hints && h + PROBE_CAP / 2 <= g
  }

  /** What head resolution may return. */
  ghost predicate HeadSince(states: seq<State>, hints: set<nat>, from: int, g: nat) {
    WasHead(states, from, g) || FarFromHint(hints, g)
  }

  lemma NowWasHead(c: Config, ss: seq<State>, es: seq<Event>, from: nat, g: nat)
    requires IsRun(c, ss, es) && from < |ss| && Top(ss[from]) <= g + 1 <= Top(ss[|es|])
    ensures WasHead(ss, from, g)
  {
    var k := LakeTheorems.EachWasHead(c, ss, es, from, |es|, g + 1);
  }

  lemma HeadStays(states: seq<State>, later: seq<State>, hints: set<nat>, more: set<nat>, from: int, earlier: int,
                  g: nat)
    requires HeadSince(states, hints, from, g) && states <= later && hints <= more && earlier <= from
    ensures HeadSince(later, more, earlier, g)
  {
    if WasHead(states, from, g) {
      var i: nat :| from <= i < |states| && Top(states[i]) == g + 1;
      assert Top(later[i]) == g + 1;
    }
  }

  /** How far a usable hint is behind the head of n markers; a missing or absurd hint is not used. */
  function Lag(n: nat, hint: Option<nat>): nat {
    if hint.Some? && hint.value < n then n - 1 - hint.value else 0
  }

  /** Where forward probing starts: the hinted marker if it exists, else a rediscovered head. */
  method StartingPoint(b: Bucket) returns (doc: Option<RootDoc>)
    requires b.Valid()
    modifies b
    ensures b.Browsed() && old(b.hints) <= b.hints
    ensures doc.None? ==> Top(b.s) == 0
    ensures doc.Some? ==> doc.value.generation < Top(b.s) && doc == DocAt(b.s, doc.value.generation)
    ensures doc.Some? ==> doc.value.generation in b.hints || doc.value.generation + 1 >= Top(old(b.s))
    ensures b.quiet && doc.Some? ==> doc.value.generation + Lag(Top(b.s), old(b.hint)) + 1 == Top(b.s)
    ensures b.quiet && doc.Some? ==> b.lookups - old(b.lookups) <= 2 * Log2(Top(b.s)) + 4
  {
    var hint := b.ReadHint();
    ghost var x := b.Now();
    if hint.Some? {
      doc := ReadMarker(b, hint.value);
      BrowsedTwice(b.me, b.quiet, old(b.Now()), x, b.Now());
      if doc.Some? { return; }
      x := b.Now();
    }
    doc := GallopDiscover(b);
    BrowsedTwice(b.me, b.quiet, old(b.Now()), x, b.Now());
  }

  /**
   * From any hint, missing, stale or absurd: the result is a committed marker, and it was the head at some moment of
   * the call, unless the hint was usable but more than two thousand generations behind; `exact` says the loop ended
   * at a gap, and then it was the head at the last read. On a quiet bucket the lag of the hint alone decides both
   * whether the loop ends at a gap and whether the result is the head: a hint that is missing or absurd is always good
   * enough. Reading past the last generation never happens, by ReadMarker's precondition.
   */
  method ResolveHead(b: Bucket) returns (r: Option<RootDoc>, ghost exact: bool)
    requires b.Valid()
    modifies b
    ensures b.Browsed() && old(b.hints) <= b.hints
    ensures r.None? ==> Top(b.s) == 0
    ensures r.Some? ==> r.value.generation < Top(b.s) && r == DocAt(b.s, r.value.generation)
    ensures r.Some? ==> HeadSince(b.states, b.hints, |old(b.states)| - 1, r.value.generation)
    ensures r.Some? && exact ==> r.value.generation == Top(b.s) - 1
    ensures b.quiet && r.Some? ==> var lag := Lag(Top(b.s), old(b.hint));
              && (exact <==> Probes(lag, 1) <= PROBE_CAP)
              && (r.value.generation == Top(b.s) - 1 <==> ProbesToHead(lag, 1) <= PROBE_CAP)
              && (lag <= (PROBE_CAP - 68) * 1024 ==> exact)
    ensures b.quiet && r.Some? ==>
              b.lookups - old(b.lookups) <= 2 * Log2(Top(b.s)) + 4 + Top(b.s) / 1024 + 68
  {
    ghost var from := |b.states| - 1;
    r := StartingPoint(b);
    exact := false;
    if r.None? { return; }
    if b.quiet { ProbesBound(Lag(Top(b.s), old(b.hint))); }
    ghost var start, x := r.value.generation, b.Now();
    r, exact := ProbeForward(b, r.value);
    BrowsedTwice(b.me, b.quiet, old(b.Now()), x, b.Now());
    if exact || start + 1 >= Top(old(b.s)) {
      DenseNow(b.c, b.states, b.events, from, r.value.generation);
      NowWasHead(b.c, b.states, b.events, from, r.value.generation);
    } else {
      assert start in b.hints && start + PROBE_CAP / 2 <= r.value.generation;
    }
  }

  /** Distances r and steps at which a search that began at distance d stands after so many probes. */
  ghost function Track(d: nat): iset<(nat, nat, nat)> {
    iset p: (nat, nat, nat) | OnTrack(d, p.0, p.1, p.2)
  }

  ghost predicate OnTrack(d: nat, r: nat, step: nat, probes: nat) {
    && 1 <= step && probes + Probes(r, step) == Probes(d, 1)
    && (if r == 0 then ProbesToHead(d, 1) <= probes else probes + ProbesToHead(r, step) == ProbesToHead(d, 1))
  }

  lemma OneProbe(d: nat, r: nat, step: nat, probes: nat)
    requires (r, step, probes) in Track(d)
    ensures step <= r ==> (r - step, Capped(step), probes + 1) in Track(d)
    ensures r < step && step > 1 ==> (r, 1, probes + 1) in Track(d)
    ensures r < step && step == 1 ==> r == 0 && Probes(d, 1) == probes + 1 && ProbesToHead(d, 1) <= probes
  {
    if step <= r {
      assert Probes(r, step) == 1 + Probes(r - step, Capped(step));
      assert ProbesToHead(r, step) == 1 + ProbesToHead(r - step, Capped(step));
    }
  }

  lemma OutOfProbes(d: nat, r: nat, step: nat, probes: nat)
    requires (r, step, probes) in Track(d)
    ensures probes < Probes(d, 1) && (r == 0 <==> ProbesToHead(d, 1) <= probes)
  {
  }

  /** Beyond the last generation nothing can exist; that is a gap without a read. */
  method ProbeAt(b: Bucket, target: nat) returns (doc: Option<RootDoc>)
    requires b.Valid()
    modifies b
    ensures b.Browsed() && b.lookups <= old(b.lookups) + 1 && b.hints == old(b.hints)
    ensures LakeTheorems.Extends(old(b.s), b.s)
    ensures doc == DocAt(b.s, target) && (doc.Some? <==> target < Top(b.s))
  {
    if target > MAX_GENERATION {
      DenseNow(b.c, b.states, b.events, |b.events|, target);
      return None;
    }
    doc := ReadMarker(b, target);
  }

  /** Without a gap the probes run out, and every second one at least made headway. */
  method ProbeForward(b: Bucket, start: RootDoc) returns (r: Option<RootDoc>, ghost exact: bool)
    requires b.Valid() && start.generation < Top(b.s) && DocAt(b.s, start.generation) == Some(start)
    modifies b
    ensures b.Browsed() && b.hints == old(b.hints)
    ensures r.Some? && start.generation <= r.value.generation < Top(b.s) && r == DocAt(b.s, r.value.generation)
    ensures if exact then r.value.generation == Top(b.s) - 1
            else r.value.generation >= start.generation + PROBE_CAP / 2
    ensures b.quiet ==> (exact <==> Probes(Top(b.s) - 1 - start.generation, 1) <= PROBE_CAP)
    ensures b.quiet ==>
              (r.value.generation == Top(b.s) - 1
               <==> ProbesToHead(Top(b.s) - 1 - start.generation, 1) <= PROBE_CAP)
    ensures b.lookups - old(b.lookups) <= PROBE_CAP
    ensures b.quiet ==> b.lookups - old(b.lookups) <= Probes(Top(b.s) - 1 - start.generation, 1)
  {
    var doc, generation, step, probes := start, start.generation, 1, 0;
    ghost var d := Top(b.s) - 1 - start.generation;
    while probes < PROBE_CAP
      invariant b.Browsed() && b.hints == old(b.hints)
      invariant start.generation <= generation < Top(b.s) && doc.generation == generation
      invariant DocAt(b.s, generation) == Some(doc)
      invariant 1 <= step && 0 <= probes <= PROBE_CAP && b.lookups - old(b.lookups) <= probes
      invariant probes <= 2 * (generation - start.generation) + if step == 1 then 1 else 0
      invariant b.quiet ==> (Top(b.s) - 1 - generation, step, probes) in Track(d)
    {
      if b.quiet { OneProbe(d, Top(b.s) - 1 - generation, step, probes); }
      probes := probes + 1;
      ghost var x := b.Now();
      var next := ProbeAt(b, generation + step);
      BrowsedTwice(b.me, b.quiet, old(b.Now()), x, b.Now());
      if next.None? {
        if step == 1 { return Some(doc), true; }
        step := 1;
        continue;
      }
      doc := next.value;
      generation := generation + step;
      step := Capped(step);
    }
    if b.quiet { OutOfProbes(d, Top(b.s) - 1 - generation, step, probes); }
    return Some(doc), false;
  }
}

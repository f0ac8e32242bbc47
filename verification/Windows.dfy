/**
 * What a windowed reconstruction must fetch and hold, read off the manifest alone: packs come in windows of first
 * use, and a pack referenced after its window is gone is fetched again through a memo of one slot.
 */
module Windows {
  import opened Wrappers
  import opened Chunk

  const RECONSTRUCT_WINDOW_PACKS := 32

  /** The packs of the first n entries in the order of their first use. */
  function FirstUses(es: seq<Entry>, n: nat): seq<Digest>
    requires n <= |es|
  {
    if n == 0 then []
    else
      var before := FirstUses(es, n - 1);
      if es[n - 1].pack in before then before else before + [es[n - 1].pack]
  }

  /** First use of the window during which entry i is written. */
  function WindowStart(es: seq<Entry>, i: nat): nat
    requires i < |es|
  {
    if FirstUses(es, i + 1) == [] then 0 else Aligned(|FirstUses(es, i + 1)| - 1)
  }

  function Aligned(n: nat): nat {
    n - n % RECONSTRUCT_WINDOW_PACKS
  }

  function WindowLength(es: seq<Entry>, i: nat): nat
    requires i < |es|
  {
    var all := |FirstUses(es, |es|)|;
    if WindowStart(es, i) + RECONSTRUCT_WINDOW_PACKS <= all then RECONSTRUCT_WINDOW_PACKS
    else if WindowStart(es, i) <= all then all - WindowStart(es, i)
    else 0
  }

  /** Position of p in a sequence that lists it, else its length. */
  function IndexOf(ps: seq<Digest>, p: Digest): nat {
    if ps == [] || ps[0] == p then 0 else 1 + IndexOf(ps[1..], p)
  }

  /** Entry i needs a pack whose window has been released. */
  predicate BackRef(es: seq<Entry>, i: nat)
    requires i < |es|
  {
    IndexOf(FirstUses(es, i + 1), es[i].pack) < WindowStart(es, i)
  }

  /** The pack in the memo slot before entry n: that of the last back-reference. */
  function Memo(es: seq<Entry>, n: nat): Option<Digest>
    requires n <= |es|
  {
    if n == 0 then None
    else if BackRef(es, n - 1) then Some(es[n - 1].pack)
    else Memo(es, n - 1)
  }

  /** Entry i makes its pack be fetched once more. */
  predicate Refetch(es: seq<Entry>, i: nat)
    requires i < |es|
  {
    BackRef(es, i) && Memo(es, i) != Some(es[i].pack)
  }

  function Refetches(es: seq<Entry>, n: nat): nat
    requires n <= |es|
  {
    if n == 0 then 0 else Refetches(es, n - 1) + (if Refetch(es, n - 1) then 1 else 0)
  }

  function Slots(memo: Option<Digest>): nat {
    if memo.Some? then 1 else 0
  }

  /** Pack bodies held while entry i is served: its window, the memo, and during a refetch the body on its way in. */
  function HeldAt(es: seq<Entry>, i: nat): nat
    requires i < |es|
  {
    WindowLength(es, i) + (if Refetch(es, i) then Slots(Memo(es, i)) + 1 else Slots(Memo(es, i + 1)))
  }

  function PeakHeld(es: seq<Entry>, n: nat): nat
    requires n <= |es|
  {
    if n == 0 then 0
    else if PeakHeld(es, n - 1) <= HeldAt(es, n - 1) then HeldAt(es, n - 1)
    else PeakHeld(es, n - 1)
  }

  // --- the bound, and when it is reached -----------------------------------------------------------------

  /** Serving entry i takes more than a window and one body. */
  predicate Overflows(es: seq<Entry>, i: nat)
    requires i < |es|
  {
    WindowLength(es, i) == RECONSTRUCT_WINDOW_PACKS && Refetch(es, i) && Memo(es, i).Some?
  }

  lemma HeldBound(es: seq<Entry>, i: nat)
    requires i < |es|
    ensures HeldAt(es, i) <= RECONSTRUCT_WINDOW_PACKS + 2
    ensures HeldAt(es, i) > RECONSTRUCT_WINDOW_PACKS + 1 <==> Overflows(es, i)
  {
  }

  /**
   * At most window + 2 bodies are held while entries are written, and more than window + 1 exactly when some entry
   * refers back, during a full window, to a pack other than the one in the memo.
   */
  lemma {:induction false} PeakBound(es: seq<Entry>, n: nat)
    requires n <= |es|
    ensures PeakHeld(es, n) <= RECONSTRUCT_WINDOW_PACKS + 2
    ensures PeakHeld(es, n) > RECONSTRUCT_WINDOW_PACKS + 1 <==> SomeOverflow(es, n)
  {
    if n > 0 {
      PeakBound(es, n - 1);
      HeldBound(es, n - 1);
      OverflowStep(es, n);
    }
  }

  predicate SomeOverflow(es: seq<Entry>, n: nat)
    requires n <= |es|
  {
    exists i :: 0 <= i < n && Overflows(es, i)
  }

  lemma OverflowStep(es: seq<Entry>, n: nat)
    requires 0 < n <= |es|
    ensures SomeOverflow(es, n) <==> SomeOverflow(es, n - 1) || Overflows(es, n - 1)
  {
    if SomeOverflow(es, n - 1) {
      var i :| 0 <= i < n - 1 && Overflows(es, i);
      assert 0 <= i < n && Overflows(es, i);
    }
  }

  // --- loading a window ------------------------------------------------------------------------------------

  /** Entry i brings in the first pack of a window, which has to be loaded before. */
  predicate Opens(es: seq<Entry>, i: nat)
    requires i < |es|
  {
    |FirstUses(es, i)| < |FirstUses(es, i + 1)| && |FirstUses(es, i)| % RECONSTRUCT_WINDOW_PACKS == 0
  }

  /** Pack bodies held when that window has arrived: the window before, the memo, and the new one. */
  function LoadedAt(es: seq<Entry>, i: nat): nat
    requires i < |es|
  {
    (if FirstUses(es, i) == [] then 0 else RECONSTRUCT_WINDOW_PACKS) + Slots(Memo(es, i)) + WindowLength(es, i)
  }

  function PeakLoading(es: seq<Entry>, n: nat): nat
    requires n <= |es|
  {
    if n == 0 then 0
    else if Opens(es, n - 1) && PeakLoading(es, n - 1) <= LoadedAt(es, n - 1) then LoadedAt(es, n - 1)
    else PeakLoading(es, n - 1)
  }

  /** A whole window is loaded over a whole window and a memo. */
  predicate Crowded(es: seq<Entry>, i: nat)
    requires i < |es|
  {
    Opens(es, i) && FirstUses(es, i) != [] && Memo(es, i).Some? && WindowLength(es, i) == RECONSTRUCT_WINDOW_PACKS
  }

  lemma LoadedBound(es: seq<Entry>, i: nat)
    requires i < |es| && Opens(es, i)
    ensures LoadedAt(es, i) <= 2 * RECONSTRUCT_WINDOW_PACKS + 1
    ensures LoadedAt(es, i) == 2 * RECONSTRUCT_WINDOW_PACKS + 1 <==> Crowded(es, i)
  {
  }

  /** At most two windows and one body are held while a window loads; that many exactly when some entry is crowded. */
  lemma {:induction false} LoadingBound(es: seq<Entry>, n: nat)
    requires n <= |es|
    ensures PeakLoading(es, n) <= 2 * RECONSTRUCT_WINDOW_PACKS + 1
    ensures PeakLoading(es, n) == 2 * RECONSTRUCT_WINDOW_PACKS + 1 <==> SomeCrowded(es, n)
  {
    if n > 0 {
      LoadingBound(es, n - 1);
      if Opens(es, n - 1) { LoadedBound(es, n - 1); }
      CrowdedStep(es, n);
    }
  }

  predicate SomeCrowded(es: seq<Entry>, n: nat)
    requires n <= |es|
  {
    exists i :: 0 <= i < n && Crowded(es, i)
  }

  lemma CrowdedStep(es: seq<Entry>, n: nat)
    requires 0 < n <= |es|
    ensures SomeCrowded(es, n) <==> SomeCrowded(es, n - 1) || Crowded(es, n - 1)
  {
    if SomeCrowded(es, n - 1) {
      var i :| 0 <= i < n - 1 && Crowded(es, i);
      assert 0 <= i < n && Crowded(es, i);
    }
  }

  // --- first uses -------------------------------------------------------------------------------------------

  lemma {:induction false} FirstUsesGrow(es: seq<Entry>, i: nat, j: nat)
    requires i <= j <= |es|
    ensures FirstUses(es, i) <= FirstUses(es, j)
  {
    if i < j { FirstUsesGrow(es, i, j - 1); }
  }

  ghost predicate NoRepeats(ps: seq<Digest>) {
    forall i, j :: 0 <= i < j < |ps| ==> ps[i] != ps[j]
  }

  lemma {:induction false} FirstUsesDiffer(es: seq<Entry>, n: nat)
    requires n <= |es|
    ensures NoRepeats(FirstUses(es, n))
  {
    if n > 0 { FirstUsesDiffer(es, n - 1); }
  }

  lemma {:induction false} FirstUsesCover(es: seq<Entry>, n: nat, i: nat)
    requires i < n <= |es|
    ensures es[i].pack in FirstUses(es, n)
  {
    FirstUsesGrow(es, i + 1, n);
    assert es[i].pack in FirstUses(es, i + 1);
  }

  lemma {:induction false} IndexOfListed(ps: seq<Digest>, i: nat)
    requires NoRepeats(ps) && i < |ps|
    ensures IndexOf(ps, ps[i]) == i
  {
    if i > 0 {
      assert ps[1..][i - 1] == ps[i];
      IndexOfListed(ps[1..], i - 1);
    }
  }

  /** An index in a prefix is the index in the whole. */
  lemma IndexOfPrefix(ps: seq<Digest>, qs: seq<Digest>, p: Digest)
    requires ps <= qs && NoRepeats(qs) && p in ps
    ensures IndexOf(ps, p) == IndexOf(qs, p) < |ps|
  {
    var i :| 0 <= i < |ps| && ps[i] == p;
    assert qs[i] == p;
    IndexOfListed(ps, i);
    IndexOfListed(qs, i);
  }

  /** Entry i's pack as seen from the whole manifest: listed no later than entry i, and last of all if it is new. */
  lemma PackIndex(es: seq<Entry>, i: nat)
    requires i < |es|
    ensures var all, p := FirstUses(es, |es|), es[i].pack;
            && IndexOf(all, p) == IndexOf(FirstUses(es, i + 1), p) < |FirstUses(es, i + 1)| <= |all|
            && (p !in FirstUses(es, i) ==> IndexOf(all, p) == |FirstUses(es, i)|)
  {
    FirstUsesGrow(es, i + 1, |es|);
    FirstUsesDiffer(es, |es|);
    FirstUsesDiffer(es, i + 1);
    IndexOfPrefix(FirstUses(es, i + 1), FirstUses(es, |es|), es[i].pack);
    if es[i].pack !in FirstUses(es, i) { IndexOfListed(FirstUses(es, i + 1), |FirstUses(es, i)|); }
  }

  // --- which window an entry is written in ---------------------------------------------------------------------

  /** The window [start, start + 32) is loaded and entries before i are done: what is true of the packs seen so far. */
  ghost predicate CursorOk(es: seq<Entry>, start: nat, i: nat) {
    && i <= |es| && start % RECONSTRUCT_WINDOW_PACKS == 0
    && |FirstUses(es, i)| <= start + RECONSTRUCT_WINDOW_PACKS
    && (i < |es| ==> |FirstUses(es, i + 1)| > start)
  }

  /** The entries that the window from `start` on may have to serve next. */
  ghost function InWindow(es: seq<Entry>, start: nat): iset<nat> {
    iset i: nat | CursorOk(es, start, i)
  }

  /** An entry that can be served in the window is written in it. */
  lemma ServedHere(es: seq<Entry>, start: nat, i: nat)
    requires i in InWindow(es, start) && i < |es|
    requires IndexOf(FirstUses(es, |es|), es[i].pack) < start + RECONSTRUCT_WINDOW_PACKS
    ensures WindowStart(es, i) == start && i + 1 in InWindow(es, start)
    ensures BackRef(es, i) <==> IndexOf(FirstUses(es, |es|), es[i].pack) < start
  {
    CursorFits(es, start, i);
    CursorServed(es, start, i);
    PackIndex(es, i);
  }

  /** An entry that can be served opens no later window. */
  lemma CursorFits(es: seq<Entry>, start: nat, i: nat)
    requires CursorOk(es, start, i) && i < |es|
    requires IndexOf(FirstUses(es, |es|), es[i].pack) < start + RECONSTRUCT_WINDOW_PACKS
    ensures start < |FirstUses(es, i + 1)| <= start + RECONSTRUCT_WINDOW_PACKS
  {
    PackIndex(es, i);
  }

  lemma CursorServed(es: seq<Entry>, start: nat, i: nat)
    requires i < |es| && start % RECONSTRUCT_WINDOW_PACKS == 0
    requires start < |FirstUses(es, i + 1)| <= start + RECONSTRUCT_WINDOW_PACKS
    ensures WindowStart(es, i) == start && CursorOk(es, start, i + 1)
  {
    AlignedIs(|FirstUses(es, i + 1)| - 1, start);
    if i + 1 < |es| { FirstUsesGrow(es, i + 1, i + 2); }
  }

  lemma AlignedIs(n: nat, start: nat)
    requires start % RECONSTRUCT_WINDOW_PACKS == 0 && start <= n < start + RECONSTRUCT_WINDOW_PACKS
    ensures Aligned(n) == start
  {
  }

  /** An entry that cannot be served opens the next window. */
  lemma OpensNext(es: seq<Entry>, start: nat, i: nat)
    requires i in InWindow(es, start)
    requires i < |es| ==> IndexOf(FirstUses(es, |es|), es[i].pack) >= start + RECONSTRUCT_WINDOW_PACKS
    ensures i in InWindow(es, start + RECONSTRUCT_WINDOW_PACKS)
  {
    if i < |es| { PackIndex(es, i); }
  }

  /** All entries before i are done, and entry i, if there is one, opens the window from `start` on. */
  ghost predicate AtOpening(es: seq<Entry>, start: nat, i: nat) {
    && i <= |es| && start % RECONSTRUCT_WINDOW_PACKS == 0 && |FirstUses(es, i)| <= start
    && (i < |es| ==> |FirstUses(es, i)| == start && Opens(es, i))
  }

  /** Where one window ends, the next one opens. */
  lemma EndsAtOpening(es: seq<Entry>, start: nat, i: nat)
    requires i in InWindow(es, start) && i in InWindow(es, start + RECONSTRUCT_WINDOW_PACKS)
    ensures AtOpening(es, start + RECONSTRUCT_WINDOW_PACKS, i)
  {
  }

  lemma OpeningWindow(es: seq<Entry>, start: nat, i: nat)
    requires i < |es| && AtOpening(es, start, i)
    ensures WindowStart(es, i) == start < |FirstUses(es, |es|)|
  {
    AlignedIs(start, start);
    FirstUsesGrow(es, i + 1, |es|);
  }

  /** Entries of one window load nothing but that window. */
  lemma {:induction false} LoadsOnce(es: seq<Entry>, start: nat, i: nat, j: nat)
    requires i < |es| && AtOpening(es, start, i) && i < j <= |es|
    requires |FirstUses(es, j)| <= start + RECONSTRUCT_WINDOW_PACKS
    ensures PeakLoading(es, j) == PeakLoading(es, i + 1)
  {
    if i + 1 < j {
      FirstUsesGrow(es, j - 1, j);
      LoadsOnce(es, start, i, j - 1);
      FirstUsesGrow(es, i + 1, j - 1);
      NotAligned(|FirstUses(es, j - 1)|, start);
    }
  }

  lemma NotAligned(n: nat, start: nat)
    requires start % RECONSTRUCT_WINDOW_PACKS == 0 && start < n
    ensures n < start + RECONSTRUCT_WINDOW_PACKS ==> n % RECONSTRUCT_WINDOW_PACKS != 0
  {
  }
}

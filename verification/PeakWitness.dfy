/**
 * Both maxima of a reconstruction are reached: one manifest whose payload repeats its first two chunks after 33 packs,
 * and then goes on for 63 packs more.
 */
module PeakWitness {
  import opened Wrappers
  import opened Chunk
  import opened Windows

  const N := 98

  /** The pack of entry i: 0 .. 32, then 0 and 1 again, then 33 .. 95. */
  function At(i: nat): nat {
    if i <= 32 then i else if i <= 34 then i - 33 else i - 2
  }

  /** A pack of one chunk of one byte. */
  function P(j: nat): Digest
    requires j < 256
  {
    Sha256([j as byte])
  }

  const Es: seq<Entry> := seq(N, i requires 0 <= i < N => Entry(P(At(i)), P(At(i)), 0, 1))
  const M := Manifest(1, |Contents(Es, N)|, Sha256(Contents(Es, N)), Es)

  /** How many packs the first n entries use. */
  function Uses(n: nat): nat {
    if n <= 33 then n else if n <= 35 then 33 else n - 2
  }

  function Firsts(k: nat): (ps: seq<Digest>)
    requires k <= 256
    ensures |ps| == k
  {
    seq(k, j requires 0 <= j < k => P(j))
  }

  lemma Listed(k: nat, j: nat)
    requires k <= 256 && j < 256
    ensures P(j) in Firsts(k) <==> j < k
  {
    if j < k { assert Firsts(k)[j] == P(j); }
    if P(j) in Firsts(k) {
      var i :| 0 <= i < k && Firsts(k)[i] == P(j);
      assert P(i).preimage[0] == P(j).preimage[0];
    }
  }

  lemma {:induction false} FirstUsesAre(n: nat)
    requires n <= N
    ensures FirstUses(Es, n) == Firsts(Uses(n))
  {
    if n > 0 {
      FirstUsesAre(n - 1);
      Listed(Uses(n - 1), At(n - 1));
      if At(n - 1) == Uses(n - 1) { assert Firsts(Uses(n)) == Firsts(Uses(n - 1)) + [P(At(n - 1))]; }
    }
  }

  /** Window and back-reference of entry i. */
  lemma EntryIs(i: nat)
    requires i < N
    ensures WindowStart(Es, i) == Aligned(Uses(i + 1) - 1)
    ensures BackRef(Es, i) <==> At(i) < Aligned(Uses(i + 1) - 1)
  {
    FirstUsesAre(i + 1);
    FirstUsesDiffer(Es, i + 1);
    assert Firsts(Uses(i + 1))[At(i)] == P(At(i));
    IndexOfListed(Firsts(Uses(i + 1)), At(i));
  }

  /** Only entries 33 and 34 refer back. */
  lemma {:induction false} MemoIs(n: nat)
    requires n <= N
    ensures Memo(Es, n) == if n <= 33 then None else if n == 34 then Some(P(0)) else Some(P(1))
  {
    if n > 0 {
      MemoIs(n - 1);
      EntryIs(n - 1);
    }
  }

  lemma WellFormedWitness()
    ensures WellFormed(M)
  {
    forall i | 0 <= i < N ensures EntryOk(Es[i]) { assert P(At(i)).preimage[0..1] == P(At(i)).preimage; }
  }

  /** Entry 34 is fetched again, while a window and entry 33's pack are held. */
  lemma OverflowWitness()
    ensures Overflows(Es, 34)
  {
    FirstUsesAre(N);
    EntryIs(34);
    MemoIs(34);
    assert P(0).preimage[0] != P(1).preimage[0];
  }

  /** Entry 66 opens the third window, while the second and entry 34's pack are held. */
  lemma CrowdedWitness()
    ensures Crowded(Es, 66)
  {
    FirstUsesAre(66);
    FirstUsesAre(67);
    FirstUsesAre(N);
    EntryIs(66);
    MemoIs(66);
  }

  /** Window + 2 bodies while writing and 2 windows + 1 body while loading are both needed. */
  lemma BothReached()
    ensures WellFormed(M) && (forall i :: 0 <= i < N ==> M.entries[i].length > 0) && |M.entries| == N
    ensures PeakHeld(M.entries, N) == RECONSTRUCT_WINDOW_PACKS + 2
    ensures PeakLoading(M.entries, N) == 2 * RECONSTRUCT_WINDOW_PACKS + 1
  {
    WellFormedWitness();
    OverflowWitness();
    CrowdedWitness();
    PeakBound(Es, N);
    LoadingBound(Es, N);
  }
}

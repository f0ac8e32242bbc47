/** Random access to a chunked payload: file ranges translated into pack ranges. */
module RangeReader {
  import opened Wrappers
  import opened Chunk
  import opened PackStores

  datatype ReadFault = NegativeOffset | Missing(pack: Digest) | ShortRange(pack: Digest) | BadChunk(index: nat)

  // --- runs of entries that one ranged read can serve -----------------------------------------

  /** Entries i .. j lie back to back in one pack. */
  ghost predicate Run(es: seq<Entry>, i: nat, j: nat) {
    i <= j < |es| && forall k :: i <= k <= j ==> InRun(es, i, k)
  }

  ghost predicate InRun(es: seq<Entry>, i: nat, k: nat)
    requires i <= k < |es|
  {
    es[k].pack == es[i].pack && es[k].offset == es[i].offset + (Start(es, k) - Start(es, i))
  }

  /** The stretch of es[i]'s pack and the stretch of the file from entry i up to entry j agree. */
  ghost predicate SameBytes(es: seq<Entry>, i: nat, j: nat)
    requires i <= j <= |es| && i < |es| && EntriesOk(es)
  {
    var len := Start(es, j) - Start(es, i);
    && 0 <= len && es[i].offset + len <= |es[i].pack.preimage|
    && Start(es, j) <= |Contents(es, |es|)|
    && es[i].pack.preimage[es[i].offset..es[i].offset + len] == Contents(es, |es|)[Start(es, i)..Start(es, j)]
  }

  lemma OneMoreEntry(es: seq<Entry>, i: nat, j: nat)
    requires EntriesOk(es) && i <= j < |es| && InRun(es, i, j) && SameBytes(es, i, j)
    ensures SameBytes(es, i, j + 1)
  {
    SliceAtStart(es, j, |es|);
    assert EntryOk(es[j]);
    var pack, file := es[i].pack.preimage, Contents(es, |es|);
    var mid, end := Start(es, j) - Start(es, i), Start(es, j + 1) - Start(es, i);
    assert end == mid + es[j].length;
    assert es[i].offset + mid == es[j].offset && es[i].pack == es[j].pack;
    assert pack[es[i].offset + mid..es[i].offset + end] == Slice(es[j]);
    Glue(pack, es[i].offset, file, Start(es, i), mid, end);
  }

  lemma Glue(p: Bytes, off: nat, f: Bytes, start: nat, mid: nat, end: nat)
    requires mid <= end && off + end <= |p| && start + end <= |f|
    requires p[off..off + mid] == f[start..start + mid] && p[off + mid..off + end] == f[start + mid..start + end]
    ensures p[off..off + end] == f[start..start + end]
  {
    SplitSlice(p, off, off + mid, off + end);
    SplitSlice(f, start, start + mid, start + end);
  }

  /** A run is one stretch of the file and of the pack at the same time. */
  lemma {:induction false} RunBytes(es: seq<Entry>, i: nat, j: nat)
    requires EntriesOk(es) && i <= j <= |es| && i < |es| && forall k :: i <= k < j ==> InRun(es, i, k)
    ensures SameBytes(es, i, j)
  {
    if i == j {
      assert EntryOk(es[i]);
      SliceAtStart(es, i, |es|);
    } else {
      RunBytes(es, i, j - 1);
      OneMoreEntry(es, i, j - 1);
    }
  }

  lemma SplitSlice(b: Bytes, i: nat, j: nat, k: nat)
    requires i <= j <= k <= |b|
    ensures b[i..k] == b[i..j] + b[j..k]
  {
  }

  lemma SubSlice(b: Bytes, i: nat, j: nat, lo: nat, hi: nat)
    requires i <= j <= |b| && lo <= hi <= j - i
    ensures b[i..j][lo..hi] == b[i + lo..i + hi]
  {
    forall k | 0 <= k < hi - lo ensures b[i..j][lo..hi][k] == b[i + lo..i + hi][k] {}
  }

  // --- what a read has checked ------------------------------------------------------------------

  /** The bytes read so far, from `start` on, contain every chunk they fully cover with its own digest. */
  ghost predicate Verified(es: seq<Entry>, start: nat, out: Bytes) {
    forall i :: 0 <= i < |es| ==> CoveredOk(es, start, out, i)
  }

  /** If the bytes cover chunk k, they hold it. */
  ghost predicate CoveredOk(es: seq<Entry>, from: nat, got: Bytes, k: nat)
    requires k < |es|
  {
    from <= Start(es, k) && Start(es, k) + es[k].length <= from + |got| ==> ChunkAtOk(es, from, got, k)
  }

  ghost predicate ChunkAtOk(es: seq<Entry>, start: nat, out: Bytes, i: nat)
    requires i < |es| && start <= Start(es, i) && Start(es, i) + es[i].length <= start + |out|
  {
    Sha256(out[Start(es, i) - start..Start(es, i) - start + es[i].length]) == es[i].chunk
  }

  /** The read of one run, positioned at `from`, checked the chunks of entries i .. j it covers. */
  ghost predicate RunVerified(es: seq<Entry>, i: nat, j: nat, from: nat, got: Bytes) {
    j < |es| && forall k :: i <= k <= j ==> CoveredOk(es, from, got, k)
  }

  lemma {:induction false} StartsIncrease(es: seq<Entry>, i: nat, j: nat)
    requires i < j <= |es|
    ensures Start(es, i) + es[i].length <= Start(es, j)
  {
    if i < j - 1 { StartsIncrease(es, i, j - 1); }
  }

  /** Checks carry over when the next run's bytes are appended. */
  lemma AppendVerified(es: seq<Entry>, start: nat, out: Bytes, i: nat, j: nat, pos: nat, got: Bytes)
    requires Verified(es, start, out) && i <= j < |es| && pos == start + |out| && RunVerified(es, i, j, pos, got)
    requires forall k :: 0 <= k < |es| ==> es[k].length > 0
    requires Start(es, i) == start + |out| || (|out| == 0 && Start(es, i) <= start)
    requires start + |out| + |got| <= Start(es, j + 1)
    ensures Verified(es, start, out + got)
  {
    forall k | 0 <= k < |es| ensures CoveredOk(es, start, out + got, k) {
      if start <= Start(es, k) && Start(es, k) + es[k].length <= pos + |got| {
        WhichSide(es, pos, pos + |got|, i, j, k);
        if k < i {
          assert CoveredOk(es, start, out, k);
          OldChunk(es, start, out, got, k);
        } else {
          assert CoveredOk(es, pos, got, k);
          NewChunk(es, start, out, got, k);
        }
      }
    }
  }

  /** A covered chunk lies wholly before the new run or wholly inside it. */
  lemma WhichSide(es: seq<Entry>, from: nat, end: nat, i: nat, j: nat, k: nat)
    requires i <= j < |es| && k < |es| && es[k].length > 0 && end <= Start(es, j + 1)
              && Start(es, k) + es[k].length <= end
    ensures k < i ==> Start(es, k) + es[k].length <= Start(es, i)
    ensures k >= i ==> Start(es, k) >= Start(es, i) && k <= j
  {
    if k < i { StartsIncrease(es, k, i); } else { StartMonotone(es, i, k); }
    if k > j { StartMonotone(es, j + 1, k); }
  }

  lemma OldChunk(es: seq<Entry>, start: nat, out: Bytes, got: Bytes, k: nat)
    requires k < |es| && start <= Start(es, k) && Start(es, k) + es[k].length <= start + |out|
              && ChunkAtOk(es, start, out, k)
    ensures ChunkAtOk(es, start, out + got, k)
  {
    var lo, hi := Start(es, k) - start, Start(es, k) - start + es[k].length;
    assert (out + got)[lo..hi] == out[lo..hi];
  }

  lemma NewChunk(es: seq<Entry>, start: nat, out: Bytes, got: Bytes, k: nat)
    requires k < |es| && start + |out| <= Start(es, k) && Start(es, k) + es[k].length <= start + |out| + |got|
    requires ChunkAtOk(es, start + |out|, got, k)
    ensures ChunkAtOk(es, start, out + got, k)
  {
    var lo, hi := Start(es, k) - start, Start(es, k) - start + es[k].length;
    assert (out + got)[lo..hi] == got[lo - |out|..hi - |out|];
  }

  // --- an unharmed bucket ----------------------------------------------------------------------------

  ghost predicate AllIntact(m: Manifest, objects: map<Digest, Bytes>) {
    EntriesOk(m.entries) && forall p :: p in m.Packs() ==> Intact(objects, p)
  }

  /** From an unharmed bucket a run's ranged read yields the file's own bytes... */
  lemma RangeIsFileRange(es: seq<Entry>, i: nat, j: nat, body: Bytes, from: nat, end: nat)
    requires EntriesOk(es) && i <= j < |es| && SameBytes(es, i, j + 1) && body == es[i].pack.preimage
    requires Start(es, i) <= from <= end <= Start(es, j + 1)
    ensures end <= |Contents(es, |es|)|
    ensures Truncated(body, es[i].offset + (from - Start(es, i)), end - from) == Contents(es, |es|)[from..end]
  {
    var off, len := es[i].offset, Start(es, j + 1) - Start(es, i);
    var lo, hi := from - Start(es, i), end - Start(es, i);
    SubSlice(body, off, off + len, lo, hi);
    SubSlice(Contents(es, |es|), Start(es, i), Start(es, j + 1), lo, hi);
    if lo < hi { assert off + lo < |body|; }
  }

  /** ... and passes every check. */
  lemma FileRangeVerifies(es: seq<Entry>, i: nat, j: nat, from: nat, end: nat)
    requires EntriesOk(es) && j < |es| && from <= end <= |Contents(es, |es|)|
    ensures RunVerified(es, i, j, from, Contents(es, |es|)[from..end])
  {
    var got := Contents(es, |es|)[from..end];
    forall k | i <= k <= j ensures CoveredOk(es, from, got, k) {
      if from <= Start(es, k) && Start(es, k) + es[k].length <= from + |got| {
        SliceAtStart(es, k, |es|);
        assert EntryOk(es[k]);
        SubSlice(Contents(es, |es|), from, end, Start(es, k) - from, Start(es, k) - from + es[k].length);
      }
    }
  }

  /** So an unharmed bucket serves every part of a run. */
  lemma RunReads(m: Manifest, objects: map<Digest, Bytes>, i: nat, j: nat, from: nat, end: nat)
    requires AllIntact(m, objects) && i <= j < |m.entries| && forall k :: i <= k < j + 1 ==> InRun(m.entries, i, k)
    requires Start(m.entries, i) <= from <= end <= Start(m.entries, j + 1)
    ensures end <= |Contents(m.entries, |m.entries|)| && m.entries[i].pack in objects
    ensures var entry, part := m.entries[i], Contents(m.entries, |m.entries|)[from..end];
            && Truncated(objects[entry.pack], entry.offset + (from - Start(m.entries, i)), end - from) == part
            && RunVerified(m.entries, i, j, from, part)
  {
    assert m.entries[i].pack in m.Packs();
    RunBytes(m.entries, i, j + 1);
    RangeIsFileRange(m.entries, i, j, objects[m.entries[i].pack], from, end);
    FileRangeVerifies(m.entries, i, j, from, end);
  }

  // --- positions -----------------------------------------------------------------------------------------

  /** The read position `pos`, `n` bytes after `start`, in terms of entries: `idx` is the entry that holds it. */
  ghost predicate Located(es: seq<Entry>, start: nat, pos: nat, end: nat, idx: nat, n: nat) {
    && start <= pos <= end <= Start(es, |es|) && n == pos - start
    && (pos < end ==> idx < |es| && Start(es, idx) <= pos < Start(es, idx + 1) && (Start(es, idx) == pos || n == 0))
  }

  lemma Advance(es: seq<Entry>, start: nat, pos: nat, end: nat, idx: nat, n: nat, last: nat, wantEnd: nat)
    requires Located(es, start, pos, end, idx, n) && pos < end && idx <= last < |es|
    requires forall k :: 0 <= k < |es| ==> es[k].length > 0
    requires wantEnd == (if end <= Start(es, last + 1) then end else Start(es, last + 1))
    ensures pos < wantEnd && Located(es, start, wantEnd, end, last + 1, n + (wantEnd - pos))
  {
    StartMonotone(es, idx + 1, last + 1);
  }

  lemma FirstEntry(es: seq<Entry>, start: nat, end: nat, first: nat)
    requires start < end <= Start(es, |es|) && first <= |es|
    requires first > 0 ==> Start(es, first - 1) <= start
    requires first < |es| ==> start < Start(es, first)
    ensures first > 0 && Located(es, start, start, end, first - 1, 0)
  {
  }

  // --- how many requests ---------------------------------------------------------------------------------

  /** Entry k goes on in its pack where the one before stopped. */
  predicate Joins(es: seq<Entry>, k: nat)
    requires 0 < k < |es|
  {
    es[k].pack == es[k - 1].pack && es[k].offset == es[k - 1].offset + es[k - 1].length
  }

  /** Entries after i and before n that do not go on in their pack where the one before stopped. */
  function Breaks(es: seq<Entry>, i: nat, n: nat): nat
    requires n <= |es|
  {
    if n <= i + 1 then 0 else Breaks(es, i, n - 1) + (if Joins(es, n - 1) then 0 else 1)
  }

  /** Entries i .. n - 1 hold the bytes [start, end). */
  ghost predicate Spans(es: seq<Entry>, start: nat, end: nat, i: nat, n: nat) {
    i < n <= |es| && Start(es, i) <= start < Start(es, i + 1) && Start(es, n - 1) < end <= Start(es, n)
  }

  /** Entries idx .. next - 1 are one stretch, as long as it can be, of those that start before `end`. */
  ghost predicate OneRun(es: seq<Entry>, idx: nat, next: nat, end: nat) {
    && idx < next <= |es| && (forall k :: idx < k < next ==> Joins(es, k))
    && (idx + 1 < next ==> Start(es, next - 1) < end)
    && (next < |es| && Start(es, next) < end ==> !Joins(es, next))
  }

  /** The fewest ranged reads that serve [start, end): one for each stretch that is contiguous in one pack. */
  ghost predicate FewestReads(es: seq<Entry>, start: nat, end: nat, count: int) {
    if start >= end then count == 0
    else exists i: nat, n: nat :: Spans(es, start, end, i, n) && count == 1 + Breaks(es, i, n)
  }

  lemma SpansOnce(es: seq<Entry>, start: nat, end: nat, i: nat, n: nat, j: nat, m: nat)
    requires Spans(es, start, end, i, n) && Spans(es, start, end, j, m)
    ensures i == j && n == m
  {
    if i < j { StartMonotone(es, i + 1, j); }
    if j < i { StartMonotone(es, j + 1, i); }
    if n < m { StartMonotone(es, n, m - 1); }
    if m < n { StartMonotone(es, m, n - 1); }
  }

  /** Going over joined entries adds no break. */
  lemma {:induction false} JoinedOn(es: seq<Entry>, i: nat, idx: nat, n: nat)
    requires i <= idx < n <= |es| && forall k :: idx < k < n ==> Joins(es, k)
    ensures Breaks(es, i, n) == Breaks(es, i, idx + 1)
  {
    if idx + 1 < n { JoinedOn(es, i, idx, n - 1); }
  }

  /** Where a read stands after some runs: the reads so far, and the next entry `idx`. */
  ghost predicate RunsOk(es: seq<Entry>, first: nat, idx: nat, pos: nat, end: nat, count: int) {
    && first <= idx <= |es| && count == (if idx == first then 0 else 1 + Breaks(es, first, idx))
    && (idx > first ==> Start(es, idx - 1) < end && pos <= Start(es, idx))
    && (idx > first && idx < |es| && Start(es, idx) < end ==> !Joins(es, idx))
  }

  lemma OneMoreRun(es: seq<Entry>, first: nat, idx: nat, pos: nat, end: nat, count: int, next: nat, pos': nat)
    requires RunsOk(es, first, idx, pos, end, count) && OneRun(es, idx, next, end) && pos' <= Start(es, next)
    requires Start(es, idx) <= pos < end
    ensures RunsOk(es, first, next, pos', end, count + 1)
  {
    JoinedOn(es, first, idx, next);
    JoinedOn(es, idx, idx, next);
  }

  lemma AllRuns(es: seq<Entry>, start: nat, first: nat, idx: nat, end: nat, count: int)
    requires RunsOk(es, first, idx, end, end, count) && start < end && first < |es|
    requires Start(es, first) <= start < Start(es, first + 1) && idx > first
    ensures FewestReads(es, start, end, count)
  {
    assert Spans(es, start, end, first, idx);
  }

  // --- the reader ---------------------------------------------------------------------------------------

  /** Number of leading elements that are <= x, for a sorted sequence. */
  method BisectRight(a: seq<nat>, x: nat) returns (k: nat)
    requires forall i, j :: 0 <= i < j < |a| ==> a[i] <= a[j]
    ensures k <= |a| && (forall i :: 0 <= i < k ==> a[i] <= x) && (forall i :: k <= i < |a| ==> x < a[i])
  {
    var lo, hi := 0, |a|;
    while lo < hi
      invariant 0 <= lo <= hi <= |a|
      invariant (forall i :: 0 <= i < lo ==> a[i] <= x) && (forall i :: hi <= i < |a| ==> x < a[i])
    {
      var mid := (lo + hi) / 2;
      if x < a[mid] { hi := mid; } else { lo := mid + 1; }
    }
    k := lo;
  }

  class ChunkedReader {
    const m: Manifest
    const starts: seq<nat>

    ghost predicate Valid() {
      && (forall i :: 0 <= i < |m.entries| ==> m.entries[i].length > 0)
      && |starts| == |m.entries| && (forall i :: 0 <= i < |starts| ==> starts[i] == Start(m.entries, i))
      && m.totalSize == Start(m.entries, |m.entries|)
    }

    constructor (m: Manifest, starts: seq<nat>)
      ensures this.m == m && this.starts == starts
    {
      this.m, this.starts := m, starts;
    }

    /** The index of file offsets; a manifest whose entries do not tile its size is refused. */
    static method Open(m: Manifest) returns (r: Option<ChunkedReader>)
      requires forall i :: 0 <= i < |m.entries| ==> m.entries[i].length > 0
      ensures r.Some? <==> Start(m.entries, |m.entries|) == m.totalSize
      ensures r.Some? ==> fresh(r.value) && r.value.Valid() && r.value.m == m
    {
      var starts: seq<nat>, off := [], 0;
      for i := 0 to |m.entries|
        invariant |starts| == i && off == Start(m.entries, i)
        invariant forall k :: 0 <= k < i ==> starts[k] == Start(m.entries, k)
      {
        starts := starts + [off];
        off := off + m.entries[i].length;
      }
      if off != m.totalSize { return None; }
      var reader := new ChunkedReader(m, starts);
      return Some(reader);
    }

    /** The maximal run from idx that starts before `end`. */
    method Coalesce(idx: nat, end: nat) returns (last: nat)
      requires Valid() && idx < |m.entries|
      ensures idx <= last < |m.entries| && forall k :: idx <= k < last + 1 ==> InRun(m.entries, idx, k)
      ensures idx < last ==> starts[last] < end
      ensures forall k :: idx < k <= last ==> Joins(m.entries, k)
      ensures last + 1 < |m.entries| && starts[last + 1] < end ==> !Joins(m.entries, last + 1)
      ensures last + 1 < |m.entries| && starts[last + 1] < end ==> !InRun(m.entries, idx, last + 1)
    {
      last := idx;
      var packOffEnd := m.entries[idx].offset + m.entries[idx].length;
      while last + 1 < |m.entries| && starts[last + 1] < end && m.entries[last + 1].pack == m.entries[idx].pack
            && m.entries[last + 1].offset == packOffEnd
        invariant idx <= last < |m.entries| && (forall k :: idx <= k < last + 1 ==> InRun(m.entries, idx, k))
        invariant packOffEnd == m.entries[idx].offset + (Start(m.entries, last + 1) - Start(m.entries, idx))
        invariant packOffEnd == m.entries[last].offset + m.entries[last].length
        invariant m.entries[last].pack == m.entries[idx].pack && forall k :: idx < k <= last ==> Joins(m.entries, k)
        invariant idx < last ==> starts[last] < end
        decreases |m.entries| - last
      {
        last := last + 1;
        packOffEnd := packOffEnd + m.entries[last].length;
      }
    }

    method VerifyCoveredChunks(first: nat, last: nat, from: nat, got: Bytes) returns (bad: Option<nat>)
      requires Valid() && first <= last < |m.entries|
      ensures bad.None? <==> RunVerified(m.entries, first, last, from, got)
    {
      for i := first to last + 1
        invariant forall k :: first <= k < i ==> CoveredOk(m.entries, from, got, k)
      {
        var lo, hi := starts[i], starts[i] + m.entries[i].length;
        if lo >= from && hi <= from + |got| {
          if Sha256(got[lo - from..hi - from]) != m.entries[i].chunk {
            assert !CoveredOk(m.entries, from, got, i);
            return Some(i);
          }
        }
        assert CoveredOk(m.entries, from, got, i);
      }
      return None;
    }

    /** `out` is the payload from `start` to `pos`. */
    ghost predicate SoFarExact(start: nat, pos: nat, out: Bytes) {
      && EntriesOk(m.entries) && start <= pos <= |Contents(m.entries, |m.entries|)|
      && out == Contents(m.entries, |m.entries|)[start..pos]
    }

    /** One ranged read: the part of a run that lies in [pos, end), checked. */
    method ReadRun(store: PackStore, idx: nat, last: nat, pos: nat, wantEnd: nat) returns (r: Result<Bytes, ReadFault>)
      requires Valid() && idx <= last < |m.entries|
                && Start(m.entries, idx) <= pos <= wantEnd <= Start(m.entries, last + 1)
      requires forall k :: idx <= k < last + 1 ==> InRun(m.entries, idx, k)
      modifies store
      ensures store.stable ==> store.objects == old(store.objects)
      ensures store.ranged == old(store.ranged) + (wantEnd - pos) && store.ranges == old(store.ranges) + 1
      ensures r.Err? ==> !r.error.NegativeOffset?
      ensures r.Ok? ==> |r.value| == wantEnd - pos && RunVerified(m.entries, idx, last, pos, r.value)
      ensures store.stable && AllIntact(m, store.objects) ==>
                r.Ok? && wantEnd <= |Contents(m.entries, |m.entries|)|
                    && r.value == Contents(m.entries, |m.entries|)[pos..wantEnd]
    {
      var entry := m.entries[idx];
      var got := store.GetRange(entry.pack, entry.offset + (pos - starts[idx]), wantEnd - pos);
      if store.stable && AllIntact(m, store.objects) { RunReads(m, store.objects, idx, last, pos, wantEnd); }
      if got.None? { return Err(Missing(entry.pack)); }
      if |got.value| != wantEnd - pos { return Err(ShortRange(entry.pack)); }
      var bad := VerifyCoveredChunks(idx, last, pos, got.value);
      if bad.Some? { return Err(BadChunk(bad.value)); }
      return Ok(got.value);
    }

    lemma StartsSorted()
      requires Valid()
      ensures forall i, j :: 0 <= i < j < |starts| ==> starts[i] <= starts[j]
    {
      forall i, j | 0 <= i < j < |starts| ensures starts[i] <= starts[j] { StartMonotone(m.entries, i, j); }
    }

    /** Read on by one coalesced run. */
    method ReadOn(store: PackStore, start: nat, pos: nat, end: nat, idx: nat, out: Bytes)
      returns (r: Result<Bytes, ReadFault>, pos': nat, idx': nat)
      requires Valid() && pos < end && Located(m.entries, start, pos, end, idx, |out|)
                && Verified(m.entries, start, out)
      modifies store
      ensures store.stable ==> store.objects == old(store.objects)
      ensures r.Err? ==> !r.error.NegativeOffset?
      ensures r.Ok? ==>
                && pos < pos' && Located(m.entries, start, pos', end, idx', |r.value|)
                && Verified(m.entries, start, r.value)
      ensures r.Ok? ==> store.ranged == old(store.ranged) + (|r.value| - |out|)
      ensures r.Ok? ==>
                && store.ranges == old(store.ranges) + 1 && OneRun(m.entries, idx, idx', end)
                && pos' <= Start(m.entries, idx')
      ensures store.stable && AllIntact(m, store.objects) && SoFarExact(start, pos, out) ==>
                r.Ok? && SoFarExact(start, pos', r.value)
    {
      var last := Coalesce(idx, end);
      var runEnd := starts[last] + m.entries[last].length;
      pos' := if end <= runEnd then end else runEnd;
      idx' := last + 1;
      StartMonotone(m.entries, idx + 1, last + 1);
      var got := ReadRun(store, idx, last, pos, pos');
      if got.Err? { return Err(got.error), pos', idx'; }
      Joined(start, pos, end, idx, out, last, pos', got.value);
      return Ok(out + got.value), pos', idx';
    }

    /** The bytes of one run joined to those before. */
    lemma Joined(start: nat, pos: nat, end: nat, idx: nat, out: Bytes, last: nat, pos': nat, got: Bytes)
      requires Valid() && pos < end && Located(m.entries, start, pos, end, idx, |out|)
      requires Verified(m.entries, start, out)
      requires idx <= last < |m.entries| && pos' == (if end <= Start(m.entries, last + 1) then end
                                                     else Start(m.entries, last + 1))
      requires |got| == pos' - pos && RunVerified(m.entries, idx, last, pos, got)
      ensures pos < pos' && Located(m.entries, start, pos', end, last + 1, |out + got|)
      ensures Verified(m.entries, start, out + got)
      ensures SoFarExact(start, pos, out) && IsSlice(pos, pos', got) ==> SoFarExact(start, pos', out + got)
    {
      StartMonotone(m.entries, idx + 1, last + 1);
      AppendVerified(m.entries, start, out, idx, last, pos, got);
      Advance(m.entries, start, pos, end, idx, |out|, last, pos');
      if SoFarExact(start, pos, out) && IsSlice(pos, pos', got) { AppendExact(start, pos, out, pos', got); }
    }

    ghost predicate IsSlice(from: nat, end: nat, got: Bytes) {
      && EntriesOk(m.entries) && from <= end <= |Contents(m.entries, |m.entries|)|
      && got == Contents(m.entries, |m.entries|)[from..end]
    }

    /** The loop of a non-empty read. */
    method ReadRuns(store: PackStore, start: nat, end: nat, first: nat)
      returns (r: Result<Bytes, ReadFault>, ghost last: nat)
      requires Valid() && start < end && Located(m.entries, start, start, end, first, 0)
      requires Verified(m.entries, start, [])
      modifies store
      ensures store.stable ==> store.objects == old(store.objects)
      ensures r.Err? ==> !r.error.NegativeOffset?
      ensures r.Ok? ==>
                && |r.value| == end - start && store.ranged == old(store.ranged) + |r.value|
                && Verified(m.entries, start, r.value)
                && first < last && RunsOk(m.entries, first, last, end, end, store.ranges - old(store.ranges))
      ensures store.stable && AllIntact(m, store.objects) ==> r.Ok? && SoFarExact(start, end, r.value)
    {
      var pos: nat, idx: nat := start, first;
      r, last := Ok([]), first;
      ContentsSize();
      while pos < end
        invariant r.Ok? && Located(m.entries, start, pos, end, idx, |r.value|)
        invariant Verified(m.entries, start, r.value)
        invariant store.stable ==> store.objects == old(store.objects)
        invariant store.ranged == old(store.ranged) + |r.value|
        invariant RunsOk(m.entries, first, idx, pos, end, store.ranges - old(store.ranges))
        invariant pos > start ==> idx > first
        invariant store.stable && AllIntact(m, store.objects) ==> SoFarExact(start, pos, r.value)
        decreases end - pos
      {
        ghost var pos0, idx0, count := pos, idx, store.ranges - old(store.ranges);
        r, pos, idx := ReadOn(store, start, pos, end, idx, r.value);
        if r.Err? { return; }
        OneMoreRun(m.entries, first, idx0, pos0, end, count, idx, pos);
      }
      last := idx;
    }

    lemma AppendExact(start: nat, pos: nat, out: Bytes, wantEnd: nat, got: Bytes)
      requires SoFarExact(start, pos, out) && pos <= wantEnd <= |Contents(m.entries, |m.entries|)|
      requires got == Contents(m.entries, |m.entries|)[pos..wantEnd]
      ensures SoFarExact(start, wantEnd, out + got)
    {
      SplitSlice(Contents(m.entries, |m.entries|), start, pos, wantEnd);
    }

    /**
     * Bytes [start, start + length) of the payload, cut off at its end. Exactly the bytes returned are asked for, by
     * one request for each stretch of entries that is contiguous in one pack; a success on any bucket has verified
     * every chunk it fully covers; on an unharmed bucket it is the slice of the payload.
     */
    method ReadRange(store: PackStore, start: int, length: int) returns (r: Result<Bytes, ReadFault>)
      requires Valid()
      modifies store
      ensures store.stable ==> store.objects == old(store.objects)
      ensures start < 0 <==> r == Err(NegativeOffset)
      ensures start < 0 ==> store.ranged == old(store.ranged)
      ensures start >= 0 && r.Ok? ==>
                && |r.value| == Clip(start, length, m.totalSize) - Floor(start, length, m.totalSize)
                && store.ranged == old(store.ranged) + |r.value| && Verified(m.entries, start, r.value)
                && FewestReads(m.entries, start, Clip(start, length, m.totalSize), store.ranges - old(store.ranges))
      ensures start >= 0 && store.stable && AllIntact(m, store.objects) ==>
                r.Ok? && SoFarExact(Floor(start, length, m.totalSize), Clip(start, length, m.totalSize), r.value)
    {
      if start < 0 { return Err(NegativeOffset); }
      var end: nat := if start + Max0(length) <= m.totalSize then start + Max0(length) else m.totalSize;
      if start >= end {
        ContentsSize();
        EmptyIsVerified(start);
        return Ok([]);
      }
      r := ReadSome(store, start, end);
    }

    /** A non-empty read inside the file. */
    method ReadSome(store: PackStore, start: nat, end: nat) returns (r: Result<Bytes, ReadFault>)
      requires Valid() && start < end <= m.totalSize
      modifies store
      ensures store.stable ==> store.objects == old(store.objects)
      ensures r.Err? ==> !r.error.NegativeOffset?
      ensures r.Ok? ==>
                && |r.value| == end - start && store.ranged == old(store.ranged) + |r.value|
                && Verified(m.entries, start, r.value)
                && FewestReads(m.entries, start, end, store.ranges - old(store.ranges))
      ensures store.stable && AllIntact(m, store.objects) ==> r.Ok? && SoFarExact(start, end, r.value)
    {
      StartsSorted();
      EmptyIsVerified(start);
      var first := BisectRight(starts, start);
      FirstEntry(m.entries, start, end, first);
      ghost var last;
      r, last := ReadRuns(store, start, end, first - 1);
      if r.Ok? { AllRuns(m.entries, start, first - 1, last, end, store.ranges - old(store.ranges)); }
    }

    lemma ContentsSize()
      requires Valid()
      ensures EntriesOk(m.entries) ==> |Contents(m.entries, |m.entries|)| == m.totalSize
    {
      if EntriesOk(m.entries) { ContentsLength(m.entries, |m.entries|); }
    }

    lemma EmptyIsVerified(start: nat)
      requires Valid()
      ensures Verified(m.entries, start, [])
    {
    }
  }

  /**
   * A verified read of a well-formed manifest agrees with the payload on every chunk it fully covers, whatever the
   * bucket did.
   */
  lemma VerifiedMeansPayload(m: Manifest, start: nat, out: Bytes, k: nat)
    requires WellFormed(m) && Verified(m.entries, start, out) && k < |m.entries|
    requires start <= Start(m.entries, k) && Start(m.entries, k) + m.entries[k].length <= start + |out|
    ensures EntryOk(m.entries[k])
    ensures out[Start(m.entries, k) - start..Start(m.entries, k) - start + m.entries[k].length] == Slice(m.entries[k])
    ensures Start(m.entries, k) + m.entries[k].length <= |Data(m)|
    ensures Data(m)[Start(m.entries, k)..Start(m.entries, k) + m.entries[k].length] == Slice(m.entries[k])
  {
    assert CoveredOk(m.entries, start, out, k);
    SliceOfData(m, k);
    DigestNamesSlice(m.entries, start, out, k);
  }

  lemma SliceOfData(m: Manifest, k: nat)
    requires WellFormed(m) && k < |m.entries|
    ensures EntryOk(m.entries[k])
    ensures Start(m.entries, k) + m.entries[k].length <= |Data(m)|
    ensures Data(m)[Start(m.entries, k)..Start(m.entries, k) + m.entries[k].length] == Slice(m.entries[k])
  {
    SliceAtStart(m.entries, k, |m.entries|);
  }

  lemma DigestNamesSlice(es: seq<Entry>, start: nat, out: Bytes, k: nat)
    requires k < |es| && EntryOk(es[k]) && CoveredOk(es, start, out, k)
    requires start <= Start(es, k) && Start(es, k) + es[k].length <= start + |out|
    ensures out[Start(es, k) - start..Start(es, k) - start + es[k].length] == Slice(es[k])
  {
  }

  function Max0(n: int): nat {
    if n < 0 then 0 else n
  }

  /** Where a read of [start, start + length) ends in a file of this size... */
  function Clip(start: nat, length: int, size: nat): nat {
    if start + Max0(length) <= size then start + Max0(length) else size
  }

  /** ... and where it begins, for a read that may be empty. */
  function Floor(start: nat, length: int, size: nat): nat {
    if start <= Clip(start, length, size) then start else Clip(start, length, size)
  }

  // --- slice bounds --------------------------------------------------------------------------------------

  /**
   * A slice bound as the language defines it: negative counts from the end, and everything is clamped to the
   * sequence.
   */
  function Bound(b: Option<int>, default: int, size: nat): nat {
    var i := match b case None => default case Some(n) => if n < 0 then size + n else n;
    if i < 0 then 0 else if i <= size then i else size
  }

  function SliceLength(size: nat, start: Option<int>, end: Option<int>): nat {
    if Bound(start, 0, size) < Bound(end, size, size) then Bound(end, size, size) - Bound(start, 0, size) else 0
  }

  function PythonSlice(data: Bytes, start: Option<int>, end: Option<int>): (r: Bytes)
    ensures |r| == SliceLength(|data|, start, end)
  {
    if Bound(start, 0, |data|) < Bound(end, |data|, |data|)
    then data[Bound(start, 0, |data|)..Bound(end, |data|, |data|)]
    else []
  }

  /** Clipping [s, e) the reader's way lands on the slice bounds. */
  lemma BoundsAgree(size: nat, start: Option<int>, end: Option<int>, s: nat, e: int)
    requires s == match start case None => 0 case Some(n) => if n >= 0 then n else if size + n >= 0 then size + n else 0
    requires e == match end case None => size case Some(n) => if n >= 0 then n else size + n
    ensures e <= s ==> SliceLength(size, start, end) == 0
    ensures e > s ==> Clip(s, e - s, size) - Floor(s, e - s, size) == SliceLength(size, start, end)
    ensures e > s && SliceLength(size, start, end) > 0 ==>
              Floor(s, e - s, size) == Bound(start, 0, size) && Clip(s, e - s, size) == Bound(end, size, size)
  {
  }

  /** The translation of optional, possibly negative bounds; `end` may stay negative and then nothing is read. */
  method CatFile(reader: ChunkedReader, store: PackStore, start: Option<int>, end: Option<int>)
    returns (r: Result<Bytes, ReadFault>)
    requires reader.Valid()
    modifies store
    ensures store.stable ==> store.objects == old(store.objects)
    ensures r != Err(NegativeOffset)
    ensures r.Ok? ==>
              && store.ranged == old(store.ranged) + |r.value|
              && |r.value| == SliceLength(reader.m.totalSize, start, end)
    ensures store.stable && AllIntact(reader.m, store.objects) ==>
              r == Ok(PythonSlice(Contents(reader.m.entries, |reader.m.entries|), start, end))
  {
    var size := reader.m.totalSize;
    var s: nat := match start
      case None => 0
      case Some(n) => if n >= 0 then n else if size + n >= 0 then size + n else 0;
    var e := match end case None => size case Some(n) => if n >= 0 then n else size + n;
    BoundsAgree(size, start, end, s, e);
    reader.ContentsSize();
    if e <= s { return Ok([]); }
    r := reader.ReadRange(store, s, e - s);
  }
}

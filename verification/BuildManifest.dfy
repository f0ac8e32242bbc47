/** Chunking a payload against its base: which bytes ship, and what the resulting manifest means. */
module BuildManifest {
  import opened Wrappers
  import opened Chunk

  const DEFAULT_CHUNK_SIZE := 65536
  const MAX_ENTRIES := 131072

  // --- choosing the chunk size ------------------------------------------------------

  /** size doubled n times. */
  function Doubled(size: nat, n: nat): nat {
    if n == 0 then size else 2 * Doubled(size, n - 1)
  }

  function StartSize(base: Option<Manifest>): nat {
    if base.Some? then base.value.chunkSize else DEFAULT_CHUNK_SIZE
  }

  /**
   * The least doubling of the starting size, the base's or the default, under which the payload fits in MAX_ENTRIES
   * chunks.
   */
  ghost predicate LeastDoubling(totalSize: nat, start: nat, size: nat) {
    exists n: nat :: ReachedAfter(totalSize, start, size, n)
  }

  ghost predicate ReachedAfter(totalSize: nat, start: nat, size: nat, n: nat) {
    && size == Doubled(start, n) && totalSize <= size * MAX_ENTRIES
    && forall k: nat :: k < n ==> totalSize > Doubled(start, k) * MAX_ENTRIES
  }

  /** A base that still fits pins the size. */
  lemma BasePinsSize(totalSize: nat, base: Manifest, size: nat)
    requires LeastDoubling(totalSize, StartSize(Some(base)), size) && totalSize <= base.chunkSize * MAX_ENTRIES
    ensures size == base.chunkSize
  {
    var n: nat :| ReachedAfter(totalSize, base.chunkSize, size, n);
    assert Doubled(base.chunkSize, 0) == base.chunkSize;
  }

  method ChooseChunkSize(totalSize: nat, base: Option<Manifest>) returns (size: nat)
    requires base.Some? ==> base.value.chunkSize > 0
    ensures size > 0 && LeastDoubling(totalSize, StartSize(base), size)
  {
    ghost var start := StartSize(base);
    if base.Some? && totalSize <= base.value.chunkSize * MAX_ENTRIES {
      assert ReachedAfter(totalSize, start, start, 0);
      return base.value.chunkSize;
    }
    size := if base.Some? then base.value.chunkSize else DEFAULT_CHUNK_SIZE;
    ghost var doublings: nat := 0;
    while totalSize > size * MAX_ENTRIES
      invariant size > 0 && size == Doubled(start, doublings)
      invariant forall n: nat :: n < doublings ==> totalSize > Doubled(start, n) * MAX_ENTRIES
      decreases totalSize - size
    {
      size := size * 2;
      doublings := doublings + 1;
    }
    assert ReachedAfter(totalSize, start, size, doublings);
  }

  // --- the base index -------------------------------------------------------------------

  /** chunk digest to entry; the last entry with a digest wins. */
  function Index(es: seq<Entry>, n: nat): map<Digest, Entry>
    requires n <= |es|
  {
    if n == 0 then map[] else Index(es, n - 1)[es[n - 1].chunk := es[n - 1]]
  }

  lemma {:induction false} IndexFromBase(es: seq<Entry>, n: nat, d: Digest)
    requires n <= |es|
    ensures d in Index(es, n) <==> exists i :: 0 <= i < n && es[i].chunk == d
    ensures d in Index(es, n) ==> Index(es, n)[d].chunk == d && Index(es, n)[d] in es
    ensures d in Index(es, n) ==> exists i: nat :: LastWith(es, n, d, i) && Index(es, n)[d] == es[i]
  {
    if n > 0 {
      IndexFromBase(es, n - 1, d);
      if es[n - 1].chunk == d {
        assert LastWith(es, n, d, n - 1);
      } else if d in Index(es, n - 1) {
        var i: nat :| LastWith(es, n - 1, d, i) && Index(es, n - 1)[d] == es[i];
        assert LastWith(es, n, d, i);
      }
    }
  }

  /** Entry i is the last of the first n with this digest. */
  predicate LastWith(es: seq<Entry>, n: nat, d: Digest, i: nat)
    requires n <= |es|
  {
    i < n && es[i].chunk == d && forall j :: i < j < n ==> es[j].chunk != d
  }

  // --- packs ------------------------------------------------------------------------------

  /** Bytes of the first n pending chunks, joined. */
  function Joined(pending: seq<Bytes>, n: nat): Bytes
    requires n <= |pending|
  {
    if n == 0 then [] else Joined(pending, n - 1) + pending[n - 1]
  }

  lemma {:induction false} JoinedSlice(pending: seq<Bytes>, i: nat, n: nat)
    requires i < n <= |pending|
    ensures |Joined(pending, i)| + |pending[i]| <= |Joined(pending, n)|
    ensures Joined(pending, n)[|Joined(pending, i)|..|Joined(pending, i)| + |pending[i]|] == pending[i]
  {
    if i < n - 1 {
      JoinedSlice(pending, i, n - 1);
      assert Joined(pending, n)[..|Joined(pending, n - 1)|] == Joined(pending, n - 1);
    }
  }

  function PackBytes(packs: seq<(Digest, Bytes)>): nat {
    if packs == [] then 0 else PackBytes(packs[..|packs| - 1]) + |packs[|packs| - 1].1|
  }

  // --- what a build must produce ------------------------------------------------------------

  /** What an entry says until its pack exists; no pack is empty, so no real entry says it. */
  const PLACEHOLDER := Digest([])

  /** Only a base chunked at the same offsets is a dedup source. */
  function BaseIndex(base: Option<Manifest>, size: nat): map<Digest, Entry> {
    if base.Some? && base.value.chunkSize == size then Index(base.value.entries, |base.value.entries|) else map[]
  }

  predicate Reusable(index: map<Digest, Entry>, chunk: Bytes) {
    Sha256(chunk) in index && index[Sha256(chunk)].length == |chunk|
  }

  /** Bytes these chunks add to the store. */
  function Shipped(chunks: seq<Bytes>, index: map<Digest, Entry>, n: nat): nat
    requires n <= |chunks|
  {
    if n == 0 then 0
    else Shipped(chunks, index, n - 1) + (if Reusable(index, chunks[n - 1]) then 0 else |chunks[n - 1]|)
  }

  /** Entry e stands for this chunk: the base's own entry, or a slice of a pack that ships now. */
  predicate Settled(e: Entry, chunk: Bytes, index: map<Digest, Entry>, packs: seq<(Digest, Bytes)>) {
    && e.chunk == Sha256(chunk) && e.length == |chunk|
    && if Reusable(index, chunk) then e == index[Sha256(chunk)]
       else (e.pack, e.pack.preimage) in packs && InBounds(e) && Slice(e) == chunk
  }

  /** The chunks among the first n that must ship, in file order. */
  function NovelChunks(chunks: seq<Bytes>, index: map<Digest, Entry>, n: nat): seq<Bytes>
    requires n <= |chunks|
  {
    if n == 0 then []
    else NovelChunks(chunks, index, n - 1) + (if Reusable(index, chunks[n - 1]) then [] else [chunks[n - 1]])
  }

  function Flat(groups: seq<seq<Bytes>>): seq<Bytes> {
    if groups == [] then [] else Flat(groups[..|groups| - 1]) + groups[|groups| - 1]
  }

  /**
   * Each pack is one group of consecutive chunks, joined. No pack is closed early: with the first chunk of the next one
   * it would exceed the target.
   */
  ghost predicate PackedAs(packs: seq<(Digest, Bytes)>, groups: seq<seq<Bytes>>, novel: seq<Bytes>, target: nat) {
    && Flat(groups) == novel && |packs| == |groups|
    && (forall i :: 0 <= i < |groups| ==> groups[i] != [] && packs[i].1 == Joined(groups[i], |groups[i]|))
    && (forall i :: 0 < i < |groups| ==> Tight(packs, groups, i, target))
  }

  ghost predicate Tight(packs: seq<(Digest, Bytes)>, groups: seq<seq<Bytes>>, i: nat, target: nat)
    requires 0 < i < |groups| && |packs| == |groups|
  {
    groups[i] != [] && |packs[i - 1].1| + |groups[i][0]| > target
  }

  ghost predicate FullyPacked(packs: seq<(Digest, Bytes)>, novel: seq<Bytes>, target: nat) {
    exists groups :: PackedAs(packs, groups, novel, target)
  }

  /** A pack is named by its bytes, is not empty, and exceeds the target only when it is one single chunk. */
  predicate PackOk(p: (Digest, Bytes), target: nat, chunks: seq<Bytes>) {
    p.0 == Sha256(p.1) && p.1 != [] && (|p.1| <= target || p.1 in chunks)
  }

  // --- flushing --------------------------------------------------------------------------------

  /** Pending chunk k waits for its pack at entry at[k], in file order. */
  ghost predicate Queued(entries: seq<Entry>, pending: seq<Bytes>, at: seq<nat>) {
    && |at| == |pending|
    && (forall k :: 0 <= k < |at| ==> at[k] < |entries|)
    && (forall k, l :: 0 <= k < l < |at| ==> at[k] < at[l])
  }

  /** The pending chunks become one pack, and every entry waiting for one of them now points into it. */
  method FlushPack(entries: seq<Entry>, packs: seq<(Digest, Bytes)>, pending: seq<Bytes>, at: seq<nat>)
    returns (flushed: seq<Entry>, packs': seq<(Digest, Bytes)>)
    requires Queued(entries, pending, at)
    ensures Rewritten(entries, pending, at, flushed) && packs' == WithPack(packs, pending)
  {
    flushed, packs' := entries, packs;
    if pending == [] { return; }
    var body := Join(pending);
    var sha := Sha256(body);
    var offset := 0;
    for i := 0 to |pending|
      invariant offset == |Joined(pending, i)| && RewrittenUpTo(entries, pending, at, flushed, i)
    {
      RewriteOne(entries, pending, at, flushed, i);
      flushed := flushed[at[i] := Entry(Sha256(pending[i]), sha, offset, |pending[i]|)];
      offset := offset + |pending[i]|;
    }
    packs' := packs + [(sha, body)];
  }

  ghost predicate RewrittenUpTo(entries: seq<Entry>, pending: seq<Bytes>, at: seq<nat>, flushed: seq<Entry>, i: nat) {
    && |flushed| == |entries| && Queued(entries, pending, at) && i <= |at|
    && (forall k :: 0 <= k < i ==> flushed[at[k]] == PackedEntry(pending, k))
    && (forall j :: 0 <= j < |entries| && j !in at ==> flushed[j] == entries[j])
  }

  lemma RewriteOne(entries: seq<Entry>, pending: seq<Bytes>, at: seq<nat>, flushed: seq<Entry>, i: nat)
    requires RewrittenUpTo(entries, pending, at, flushed, i) && i < |at|
    ensures RewrittenUpTo(entries, pending, at, flushed[at[i] := PackedEntry(pending, i)], i + 1)
  {
    var next := flushed[at[i] := PackedEntry(pending, i)];
    forall k | 0 <= k < i + 1 ensures next[at[k]] == PackedEntry(pending, k) {
      if k < i { assert at[k] < at[i]; }
    }
  }

  method Join(pending: seq<Bytes>) returns (body: Bytes)
    ensures body == Joined(pending, |pending|)
  {
    body := [];
    for i := 0 to |pending|
      invariant body == Joined(pending, i)
    {
      body := body + pending[i];
    }
  }

  // --- filling packs --------------------------------------------------------------------------------

  /** Packs and pending chunks after the first n chunks: groups so far, all but the last of them closed. */
  ghost function Filling(chunks: seq<Bytes>, index: map<Digest, Entry>, target: nat,
                         n: nat): iset<(seq<(Digest, Bytes)>, seq<Bytes>)>
  {
    iset p: (seq<(Digest, Bytes)>, seq<Bytes>) |
      n <= |chunks| && exists groups :: FillingAs(chunks, index, target, n, p.0, p.1, groups)
  }

  ghost predicate FillingAs(chunks: seq<Bytes>, index: map<Digest, Entry>, target: nat, n: nat,
                            packs: seq<(Digest, Bytes)>, pending: seq<Bytes>, groups: seq<seq<Bytes>>)
    requires n <= |chunks|
  {
    && PackedAs(packs, groups, Flat(groups), target) && Flat(groups) + pending == NovelChunks(chunks, index, n)
    && (groups != [] && pending != [] ==> |packs[|packs| - 1].1| + |pending[0]| > target)
    && (groups != [] ==> pending != [])
  }

  lemma FlatPlus(groups: seq<seq<Bytes>>, g: seq<Bytes>)
    ensures Flat(groups + [g]) == Flat(groups) + g
  {
    assert (groups + [g])[..|groups|] == groups;
  }

  lemma ReuseKeepsFilling(chunks: seq<Bytes>, index: map<Digest, Entry>, target: nat, n: nat,
                          packs: seq<(Digest, Bytes)>, pending: seq<Bytes>)
    requires (packs, pending) in Filling(chunks, index, target, n) && n < |chunks| && Reusable(index, chunks[n])
    ensures (packs, pending) in Filling(chunks, index, target, n + 1)
  {
    var groups :| FillingAs(chunks, index, target, n, packs, pending, groups);
    assert FillingAs(chunks, index, target, n + 1, packs, pending, groups);
  }

  lemma QueueKeepsFilling(chunks: seq<Bytes>, index: map<Digest, Entry>, target: nat, n: nat,
                          packs: seq<(Digest, Bytes)>, pending: seq<Bytes>)
    requires (packs, pending) in Filling(chunks, index, target, n) && n < |chunks| && !Reusable(index, chunks[n])
    ensures (packs, pending + [chunks[n]]) in Filling(chunks, index, target, n + 1)
  {
    var groups :| FillingAs(chunks, index, target, n, packs, pending, groups);
    assert Flat(groups) + (pending + [chunks[n]]) == (Flat(groups) + pending) + [chunks[n]];
    assert FillingAs(chunks, index, target, n + 1, packs, pending + [chunks[n]], groups);
  }

  /** The pending chunks become a pack exactly because the next chunk does not fit. */
  lemma FlushKeepsFilling(chunks: seq<Bytes>, index: map<Digest, Entry>, target: nat, n: nat,
                          packs: seq<(Digest, Bytes)>, pending: seq<Bytes>)
    requires (packs, pending) in Filling(chunks, index, target, n) && n < |chunks| && !Reusable(index, chunks[n])
    requires pending != [] && |Joined(pending, |pending|)| + |chunks[n]| > target
    ensures (WithPack(packs, pending), [chunks[n]]) in Filling(chunks, index, target, n + 1)
  {
    var groups :| FillingAs(chunks, index, target, n, packs, pending, groups);
    ClosedGroup(packs, groups, pending, target);
    FlatPlus(groups, pending);
    assert FillingAs(chunks, index, target, n + 1, WithPack(packs, pending), [chunks[n]], groups + [pending]);
  }

  /** One more group is closed; the one before it was full. */
  lemma ClosedGroup(packs: seq<(Digest, Bytes)>, groups: seq<seq<Bytes>>, group: seq<Bytes>, target: nat)
    requires PackedAs(packs, groups, Flat(groups), target) && group != []
    requires groups != [] ==> |packs[|packs| - 1].1| + |group[0]| > target
    ensures PackedAs(WithPack(packs, group), groups + [group], Flat(groups) + group, target)
  {
    var packs', groups' := WithPack(packs, group), groups + [group];
    FlatPlus(groups, group);
    forall i | 0 < i < |groups'| ensures Tight(packs', groups', i, target) {
      if i < |groups| { assert Tight(packs, groups, i, target); }
    }
  }

  lemma FilledIsPacked(chunks: seq<Bytes>, index: map<Digest, Entry>, target: nat, packs: seq<(Digest, Bytes)>,
                       pending: seq<Bytes>)
    requires (packs, pending) in Filling(chunks, index, target, |chunks|)
    ensures FullyPacked(WithPack(packs, pending), NovelChunks(chunks, index, |chunks|), target)
  {
    var groups :| FillingAs(chunks, index, target, |chunks|, packs, pending, groups);
    if pending == [] {
      assert PackedAs(packs, groups, NovelChunks(chunks, index, |chunks|), target);
    } else {
      ClosedGroup(packs, groups, pending, target);
      assert PackedAs(WithPack(packs, pending), groups + [pending], NovelChunks(chunks, index, |chunks|), target);
    }
  }

  /** The first of a group of chunks is no longer than the group. */
  lemma FirstFits(group: seq<Bytes>)
    requires group != []
    ensures |group[0]| <= |Joined(group, |group|)|
  {
    JoinedSlice(group, 0, |group|);
  }

  /** Neighbours exceed the target together. */
  ghost predicate Exceed(packs: seq<(Digest, Bytes)>, target: nat, i: nat)
    requires 0 < i < |packs|
  {
    |packs[i - 1].1| + |packs[i].1| > target
  }

  lemma NeighboursExceed(packs: seq<(Digest, Bytes)>, novel: seq<Bytes>, target: nat, i: nat)
    requires FullyPacked(packs, novel, target) && 0 < i < |packs|
    ensures Exceed(packs, target, i)
  {
    var groups :| PackedAs(packs, groups, novel, target);
    assert Tight(packs, groups, i, target);
    FirstFits(groups[i]);
  }

  lemma {:induction false} PairsAddUp(packs: seq<(Digest, Bytes)>, target: nat, n: nat)
    requires 0 < n <= |packs| && forall i :: 0 < i < |packs| ==> Exceed(packs, target, i)
    ensures 2 * PackBytes(packs[..n]) >= (n - 1) * target + |packs[n - 1].1|
  {
    assert packs[..n][..n - 1] == packs[..n - 1];
    if n > 1 {
      PairsAddUp(packs, target, n - 1);
      assert (n - 1) * target == (n - 2) * target + target;
      assert Exceed(packs, target, n - 1);
    }
  }

  /** So there are at most twice as many packs as the bytes shipped would fill, and one more. */
  lemma FewPacks(packs: seq<(Digest, Bytes)>, novel: seq<Bytes>, target: nat)
    requires FullyPacked(packs, novel, target) && packs != []
    ensures (|packs| - 1) * target <= 2 * PackBytes(packs)
  {
    forall i | 0 < i < |packs| ensures Exceed(packs, target, i) {
      NeighboursExceed(packs, novel, target, i);
    }
    PairsAddUp(packs, target, |packs|);
    assert packs[..|packs|] == packs;
  }

  // --- the build -----------------------------------------------------------------------------------

  /** Entries 0 .. n - 1 are settled or queued, and shipped bytes are either in packs or pending. */
  ghost predicate Progress(chunks: seq<Bytes>, n: nat, index: map<Digest, Entry>, target: nat, entries: seq<Entry>,
                           packs: seq<(Digest, Bytes)>, pending: seq<Bytes>, at: seq<nat>)
  {
    && n == |entries| <= |chunks| && Queued(entries, pending, at)
    && Awaited(chunks, index, pending, at)
    && OthersSettled(chunks, index, entries, packs, at)
    && PackBytes(packs) + |Joined(pending, |pending|)| == Shipped(chunks, index, n)
    && PacksOk(chunks, target, entries, packs, at)
    && (|Joined(pending, |pending|)| <= target || |pending| == 1)
  }

  ghost predicate Awaited(chunks: seq<Bytes>, index: map<Digest, Entry>, pending: seq<Bytes>, at: seq<nat>) {
    |at| == |pending| && forall k :: 0 <= k < |at| ==>
      at[k] < |chunks| && pending[k] == chunks[at[k]] && !Reusable(index, pending[k])
  }

  ghost predicate OthersSettled(chunks: seq<Bytes>, index: map<Digest, Entry>, entries: seq<Entry>,
                                packs: seq<(Digest, Bytes)>, at: seq<nat>)
  {
    |entries| <= |chunks| && forall j :: 0 <= j < |entries| ==> j in at || Settled(entries[j], chunks[j], index, packs)
  }

  ghost predicate PacksOk(chunks: seq<Bytes>, target: nat, entries: seq<Entry>, packs: seq<(Digest, Bytes)>,
                          at: seq<nat>) {
    forall p :: p in packs ==> PackOk(p, target, chunks) && Used(entries, at, p.0)
  }

  ghost predicate Used(entries: seq<Entry>, at: seq<nat>, pack: Digest) {
    exists j :: 0 <= j < |entries| && j !in at && entries[j].pack == pack
  }

  lemma NothingYet(chunks: seq<Bytes>, index: map<Digest, Entry>, target: nat)
    ensures Progress(chunks, 0, index, target, [], [], [], [])
  {
    assert Joined([], 0) == [];
  }

  lemma FlushSettles(chunks: seq<Bytes>, index: map<Digest, Entry>, entries: seq<Entry>, packs: seq<(Digest, Bytes)>,
                     pending: seq<Bytes>, at: seq<nat>, k: nat, e: Entry, packs': seq<(Digest, Bytes)>)
    requires k < |pending| && |at| == |pending| && at[k] < |chunks|
    requires pending[k] == chunks[at[k]] && !Reusable(index, pending[k])
    requires var body := Joined(pending, |pending|);
             (Sha256(body), body) in packs'
                 && e == Entry(Sha256(pending[k]), Sha256(body), |Joined(pending, k)|, |pending[k]|)
    ensures Settled(e, chunks[at[k]], index, packs')
  {
    JoinedSlice(pending, k, |pending|);
  }

  lemma FlushMakesPackOk(chunks: seq<Bytes>, pending: seq<Bytes>, target: nat)
    requires forall k :: 0 <= k < |pending| ==> pending[k] in chunks && pending[k] != []
    requires pending != [] && (|Joined(pending, |pending|)| <= target || |pending| == 1)
    ensures PackOk((Sha256(Joined(pending, |pending|)), Joined(pending, |pending|)), target, chunks)
  {
    JoinedSlice(pending, 0, |pending|);
    if |pending| == 1 {
      assert Joined(pending, 1) == pending[0] by { assert Joined(pending, 0) == []; }
    }
  }

  /** Each waiting entry now points at its slice of the new pack; the others are as they were. */
  ghost predicate Rewritten(entries: seq<Entry>, pending: seq<Bytes>, at: seq<nat>, flushed: seq<Entry>) {
    && |flushed| == |entries| && Queued(entries, pending, at)
    && (forall k :: 0 <= k < |at| ==> flushed[at[k]] == PackedEntry(pending, k))
    && (forall j :: 0 <= j < |entries| && j !in at ==> flushed[j] == entries[j])
  }

  function PackedEntry(pending: seq<Bytes>, k: nat): Entry
    requires k < |pending|
  {
    Entry(Sha256(pending[k]), Sha256(Joined(pending, |pending|)), |Joined(pending, k)|, |pending[k]|)
  }

  function WithPack(packs: seq<(Digest, Bytes)>, pending: seq<Bytes>): seq<(Digest, Bytes)> {
    if pending == [] then packs else packs + [(Sha256(Joined(pending, |pending|)), Joined(pending, |pending|))]
  }

  lemma FlushSettlesAll(chunks: seq<Bytes>, index: map<Digest, Entry>, entries: seq<Entry>, packs: seq<(Digest, Bytes)>,
                        pending: seq<Bytes>, at: seq<nat>, flushed: seq<Entry>)
    requires Rewritten(entries, pending, at, flushed) && Awaited(chunks, index, pending, at)
    requires OthersSettled(chunks, index, entries, packs, at)
    ensures OthersSettled(chunks, index, flushed, WithPack(packs, pending), [])
  {
    forall j | 0 <= j < |flushed| ensures Settled(flushed[j], chunks[j], index, WithPack(packs, pending)) {
      if j in at {
        var k :| 0 <= k < |at| && at[k] == j;
        FlushSettles(chunks, index, entries, packs, pending, at, k, flushed[j], WithPack(packs, pending));
      } else {
        assert Settled(entries[j], chunks[j], index, packs);
      }
    }
  }

  lemma FlushKeepsPacksOk(chunks: seq<Bytes>, index: map<Digest, Entry>, target: nat, entries: seq<Entry>,
                          packs: seq<(Digest, Bytes)>, pending: seq<Bytes>, at: seq<nat>, flushed: seq<Entry>)
    requires Rewritten(entries, pending, at, flushed) && Awaited(chunks, index, pending, at)
    requires forall c :: c in chunks ==> c != []
    requires PacksOk(chunks, target, entries, packs, at) && (|Joined(pending, |pending|)| <= target || |pending| == 1)
    ensures PacksOk(chunks, target, flushed, WithPack(packs, pending), [])
  {
    forall p | p in WithPack(packs, pending) ensures PackOk(p, target, chunks) && Used(flushed, [], p.0) {
      if p in packs {
        var j :| 0 <= j < |entries| && j !in at && entries[j].pack == p.0;
        assert flushed[j].pack == p.0;
      } else {
        assert flushed[at[0]].pack == p.0;
        forall k | 0 <= k < |pending| ensures pending[k] in chunks && pending[k] != [] {}
        FlushMakesPackOk(chunks, pending, target);
      }
    }
  }

  /** A flush leaves nothing queued and loses nothing. */
  lemma FlushKeepsProgress(chunks: seq<Bytes>, n: nat, index: map<Digest, Entry>, target: nat, entries: seq<Entry>,
                           packs: seq<(Digest, Bytes)>, pending: seq<Bytes>, at: seq<nat>, flushed: seq<Entry>)
    requires Progress(chunks, n, index, target, entries, packs, pending, at)
    requires (forall c :: c in chunks ==> c != []) && Rewritten(entries, pending, at, flushed)
    ensures Progress(chunks, n, index, target, flushed, WithPack(packs, pending), [], [])
  {
    FlushSettlesAll(chunks, index, entries, packs, pending, at, flushed);
    FlushKeepsPacksOk(chunks, index, target, entries, packs, pending, at, flushed);
    if pending != [] { assert WithPack(packs, pending)[..|packs|] == packs; }
  }

  lemma ReuseKeepsProgress(chunks: seq<Bytes>, n: nat, index: map<Digest, Entry>, target: nat, entries: seq<Entry>,
                           packs: seq<(Digest, Bytes)>, pending: seq<Bytes>, at: seq<nat>)
    requires Progress(chunks, n, index, target, entries, packs, pending, at) && n < |chunks|
    requires Reusable(index, chunks[n]) && index[Sha256(chunks[n])].chunk == Sha256(chunks[n])
    ensures Progress(chunks, n + 1, index, target, entries + [index[Sha256(chunks[n])]], packs, pending, at)
  {
    var entries' := entries + [index[Sha256(chunks[n])]];
    forall p | p in packs ensures Used(entries', at, p.0) {
      var j :| 0 <= j < |entries| && j !in at && entries[j].pack == p.0;
      assert entries'[j].pack == p.0;
    }
  }

  lemma QueueKeepsProgress(chunks: seq<Bytes>, n: nat, index: map<Digest, Entry>, target: nat, entries: seq<Entry>,
                           packs: seq<(Digest, Bytes)>, pending: seq<Bytes>, at: seq<nat>, e: Entry)
    requires Progress(chunks, n, index, target, entries, packs, pending, at) && n < |chunks|
    requires !Reusable(index, chunks[n])
    requires pending == [] || |Joined(pending, |pending|)| + |chunks[n]| <= target
    ensures Progress(chunks, n + 1, index, target, entries + [e], packs, pending + [chunks[n]], at + [n])
    ensures |Joined(pending + [chunks[n]], |pending| + 1)| == |Joined(pending, |pending|)| + |chunks[n]|
  {
    var entries', pending', at' := entries + [e], pending + [chunks[n]], at + [n];
    JoinedPrefix(pending, [chunks[n]], |pending|);
    forall j | 0 <= j < n + 1 ensures j in at' || Settled(entries'[j], chunks[j], index, packs) {
      if j < n && j in at {
        var k :| 0 <= k < |at| && at[k] == j;
        assert at'[k] == j;
      } else if j == n {
        assert at'[|at|] == n;
      }
    }
    forall p | p in packs ensures Used(entries', at', p.0) {
      var j :| 0 <= j < |entries| && j !in at && entries[j].pack == p.0;
      assert entries'[j].pack == p.0 && j !in at';
    }
  }

  lemma {:induction false} JoinedPrefix(a: seq<Bytes>, b: seq<Bytes>, n: nat)
    requires n <= |a|
    ensures Joined(a + b, n) == Joined(a, n)
  {
    if n > 0 { JoinedPrefix(a, b, n - 1); }
  }

  lemma {:induction false} ChunksNonEmpty(data: Bytes, size: nat, off: nat)
    requires size > 0
    ensures forall c :: c in ChunksFrom(data, size, off) ==> c != []
    decreases |data| - off
  {
    if off < |data| { ChunksNonEmpty(data, size, off + size); }
  }

  /** The cursor `off` stands before chunk n, or past the end once all n chunks are done. */
  ghost predicate Cursor(data: Bytes, size: nat, off: nat, n: nat) {
    off == n * size && (n > 0 ==> off < |data| + size)
  }

  lemma OneLess(n: nat, size: nat)
    requires n > 0
    ensures n * size == size + (n - 1) * size && (n > 1 ==> (n - 1) * size >= size)
  {
  }

  lemma {:induction false} CursorAtChunk(data: Bytes, size: nat, from: nat, n: nat, off: nat)
    requires size > 0 && off == from + n * size < |data|
    ensures n < |ChunksFrom(data, size, from)|
    decreases n
  {
    if n > 0 {
      OneLess(n, size);
      CursorAtChunk(data, size, from + size, n - 1, off);
    }
  }

  lemma {:induction false} CursorPastEnd(data: Bytes, size: nat, from: nat, n: nat, off: nat)
    requires size > 0 && off == from + n * size >= |data| && (n > 0 ==> off < |data| + size)
    ensures n == |ChunksFrom(data, size, from)|
    decreases n
  {
    if n > 0 {
      OneLess(n, size);
      assert n == 1 ==> from < |data|;
      CursorPastEnd(data, size, from + size, n - 1, off);
    }
  }

  lemma CursorMoves(data: Bytes, size: nat, off: nat, n: nat)
    requires size > 0 && off < |data| && Cursor(data, size, off, n)
    ensures n < |Chunks(data, size)| && Chunks(data, size)[n] == data[off..Min(off + size, |data|)]
    ensures Cursor(data, size, off + size, n + 1)
  {
    CursorAtChunk(data, size, 0, n, off);
    FixedOffsets(data, size, 0, n);
  }

  lemma CursorDone(data: Bytes, size: nat, off: nat, n: nat)
    requires size > 0 && off >= |data| && Cursor(data, size, off, n)
    ensures n == |Chunks(data, size)|
  {
    CursorPastEnd(data, size, 0, n, off);
  }

  /** Everything a build promises, stated on its result alone. */
  ghost predicate Built(data: Bytes, index: map<Digest, Entry>, target: nat, m: Manifest, packs: seq<(Digest, Bytes)>)
    requires m.chunkSize > 0
  {
    var chunks := Chunks(data, m.chunkSize);
    && m.totalSize == |data| && m.file == Sha256(data)
    && |m.entries| == |chunks|
    && (forall i :: 0 <= i < |chunks| ==> Settled(m.entries[i], chunks[i], index, packs))
    && PackBytes(packs) == Shipped(chunks, index, |chunks|)
    && FullyPacked(packs, NovelChunks(chunks, index, |chunks|), target)
    && (forall p :: p in packs ==> PackOk(p, target, chunks) && p.0 in m.Packs())
  }

  method PickSize(totalSize: nat, base: Option<Manifest>, chunkSize: Option<nat>) returns (size: nat)
    requires base.Some? ==> base.value.chunkSize > 0
    requires chunkSize.Some? ==> chunkSize.value > 0
    ensures size > 0
    ensures if chunkSize.Some? then size == chunkSize.value else LeastDoubling(totalSize, StartSize(base), size)
  {
    if chunkSize.Some? { return chunkSize.value; }
    size := ChooseChunkSize(totalSize, base);
  }

  method BuildManifest(data: Bytes, base: Option<Manifest>, chunkSize: Option<nat>, packTarget: nat)
    returns (m: Manifest, packs: seq<(Digest, Bytes)>)
    requires base.Some? ==> base.value.chunkSize > 0
    requires chunkSize.Some? ==> chunkSize.value > 0
    ensures m.chunkSize > 0
    ensures if chunkSize.Some? then m.chunkSize == chunkSize.value
            else LeastDoubling(|data|, StartSize(base), m.chunkSize)
    ensures Built(data, BaseIndex(base, m.chunkSize), packTarget, m, packs)
  {
    var size := PickSize(|data|, base, chunkSize);
    var entries, pending, at;
    entries, packs, pending, at := CutAndPack(data, size, base, packTarget);
    ChunksNonEmpty(data, size, 0);
    FilledIsPacked(Chunks(data, size), BaseIndex(base, size), packTarget, packs, pending);
    entries, packs := Flush(Chunks(data, size), BaseIndex(base, size), packTarget, entries, packs, pending, at);
    m := Manifest(size, |data|, Sha256(data), entries);
    ProgressIsBuilt(data, BaseIndex(base, size), packTarget, m, packs);
  }

  /** The loop over the payload: every chunk becomes an entry, in file order. */
  method CutAndPack(data: Bytes, size: nat, base: Option<Manifest>, packTarget: nat)
    returns (entries: seq<Entry>, packs: seq<(Digest, Bytes)>, pending: seq<Bytes>, at: seq<nat>)
    requires size > 0
    ensures |entries| == |Chunks(data, size)|
    ensures Progress(Chunks(data, size), |entries|, BaseIndex(base, size), packTarget, entries, packs, pending, at)
    ensures (packs, pending) in Filling(Chunks(data, size), BaseIndex(base, size), packTarget, |entries|)
  {
    var baseIndex := BaseIndex(base, size);
    BaseIndexNamesChunks(base, size);
    entries, packs, pending, at := [], [], [], [];
    ghost var n: nat := 0;
    var pendingBytes: nat, off: nat := 0, 0;
    LoopStarts(data, size, baseIndex, packTarget);
    while off < |data|
      invariant LoopOk(data, size, baseIndex, packTarget, off, n, entries, packs, pending, at, pendingBytes)
      decreases |data| - off
    {
      entries, packs, pending, at, pendingBytes :=
        NextChunk(data, size, baseIndex, packTarget, off, n, entries, packs, pending, at, pendingBytes);
      off, n := off + size, n + 1;
    }
    LoopEnds(data, size, baseIndex, packTarget, off, n, entries, packs, pending, at, pendingBytes);
  }

  ghost predicate LoopOk(data: Bytes, size: nat, index: map<Digest, Entry>, target: nat, off: nat, n: nat,
                         entries: seq<Entry>,
                         packs: seq<(Digest, Bytes)>, pending: seq<Bytes>, at: seq<nat>, pendingBytes: nat)
  {
    && size > 0 && n == |entries| && pendingBytes == |Joined(pending, |pending|)| && Cursor(data, size, off, n)
    && Progress(Chunks(data, size), n, index, target, entries, packs, pending, at)
    && (packs, pending) in Filling(Chunks(data, size), index, target, n)
  }

  lemma LoopStarts(data: Bytes, size: nat, index: map<Digest, Entry>, target: nat)
    requires size > 0
    ensures LoopOk(data, size, index, target, 0, 0, [], [], [], [], 0)
  {
    NothingYet(Chunks(data, size), index, target);
    assert FillingAs(Chunks(data, size), index, target, 0, [], [], []);
  }

  lemma LoopEnds(data: Bytes, size: nat, index: map<Digest, Entry>, target: nat, off: nat, n: nat, entries: seq<Entry>,
                 packs: seq<(Digest, Bytes)>, pending: seq<Bytes>, at: seq<nat>, pendingBytes: nat)
    requires LoopOk(data, size, index, target, off, n, entries, packs, pending, at, pendingBytes) && off >= |data|
    ensures |entries| == |Chunks(data, size)|
    ensures Progress(Chunks(data, size), |entries|, index, target, entries, packs, pending, at)
    ensures (packs, pending) in Filling(Chunks(data, size), index, target, |entries|)
  {
    CursorDone(data, size, off, n);
  }

  /** One turn of the loop: cut a chunk and place it. */
  method NextChunk(data: Bytes, size: nat, index: map<Digest, Entry>, target: nat, off: nat, ghost n: nat,
                   entries: seq<Entry>,
                   packs: seq<(Digest, Bytes)>, pending: seq<Bytes>, at: seq<nat>, pendingBytes: nat)
    returns (entries': seq<Entry>, packs': seq<(Digest, Bytes)>, pending': seq<Bytes>, at': seq<nat>,
             pendingBytes': nat)
    requires LoopOk(data, size, index, target, off, n, entries, packs, pending, at, pendingBytes) && off < |data|
    requires forall d :: d in index ==> index[d].chunk == d
    ensures LoopOk(data, size, index, target, off + size, n + 1, entries', packs', pending', at', pendingBytes')
  {
    var chunk := data[off..Min(off + size, |data|)];
    CursorMoves(data, size, off, n);
    ChunksNonEmpty(data, size, 0);
    entries', packs', pending', at', pendingBytes' :=
      AddChunk(Chunks(data, size), n, index, target, chunk, entries, packs, pending, at, pendingBytes);
  }

  method Flush(ghost chunks: seq<Bytes>, ghost index: map<Digest, Entry>, ghost target: nat, entries: seq<Entry>,
               packs: seq<(Digest, Bytes)>, pending: seq<Bytes>, at: seq<nat>)
    returns (entries': seq<Entry>, packs': seq<(Digest, Bytes)>)
    requires Progress(chunks, |entries|, index, target, entries, packs, pending, at)
    requires forall c :: c in chunks ==> c != []
    ensures |entries'| == |entries| && Progress(chunks, |entries|, index, target, entries', packs', [], [])
    ensures packs' == WithPack(packs, pending)
  {
    entries', packs' := FlushPack(entries, packs, pending, at);
    FlushKeepsProgress(chunks, |entries|, index, target, entries, packs, pending, at, entries');
  }

  lemma ProgressIsBuilt(data: Bytes, index: map<Digest, Entry>, target: nat, m: Manifest, packs: seq<(Digest, Bytes)>)
    requires m.chunkSize > 0 && m.totalSize == |data| && m.file == Sha256(data)
    requires |m.entries| == |Chunks(data, m.chunkSize)|
    requires Progress(Chunks(data, m.chunkSize), |m.entries|, index, target, m.entries, packs, [], [])
    requires FullyPacked(packs, NovelChunks(Chunks(data, m.chunkSize), index, |Chunks(data, m.chunkSize)|), target)
    ensures Built(data, index, target, m, packs)
  {
    forall p | p in packs ensures p.0 in m.Packs() { assert Used(m.entries, [], p.0); }
  }

  lemma BaseIndexNamesChunks(base: Option<Manifest>, size: nat)
    ensures forall d :: d in BaseIndex(base, size) ==>
              BaseIndex(base, size)[d].chunk == d && base.Some? && BaseIndex(base, size)[d] in base.value.entries
  {
    forall d | d in BaseIndex(base, size)
      ensures BaseIndex(base, size)[d].chunk == d && BaseIndex(base, size)[d] in base.value.entries
    {
      IndexFromBase(base.value.entries, |base.value.entries|, d);
    }
  }

  /** One chunk: reuse the base's entry, or queue a placeholder, flushing first when the pack would overflow. */
  method AddChunk(ghost chunks: seq<Bytes>, ghost n: nat, index: map<Digest, Entry>, target: nat, chunk: Bytes,
                  entries: seq<Entry>,
                  packs: seq<(Digest, Bytes)>, pending: seq<Bytes>, at: seq<nat>, pendingBytes: nat)
    returns (entries': seq<Entry>, packs': seq<(Digest, Bytes)>, pending': seq<Bytes>, at': seq<nat>,
             pendingBytes': nat)
    requires Progress(chunks, n, index, target, entries, packs, pending, at)
    requires n == |entries| < |chunks| && chunk == chunks[n] && pendingBytes == |Joined(pending, |pending|)|
    requires (forall c :: c in chunks ==> c != []) && (forall d :: d in index ==> index[d].chunk == d)
    requires (packs, pending) in Filling(chunks, index, target, n)
    ensures (packs', pending') in Filling(chunks, index, target, n + 1)
    ensures |entries'| == n + 1 && Progress(chunks, n + 1, index, target, entries', packs', pending', at')
    ensures pendingBytes' == |Joined(pending', |pending'|)|
  {
    entries', packs', pending', at', pendingBytes' := entries, packs, pending, at, pendingBytes;
    var sha := Sha256(chunk);
    if sha in index && index[sha].length == |chunk| {
      ReuseKeepsProgress(chunks, n, index, target, entries, packs, pending, at);
      ReuseKeepsFilling(chunks, index, target, n, packs, pending);
      entries' := entries + [index[sha]];
      return;
    }
    entries', packs', pending', at', pendingBytes' :=
      MakeRoom(chunks, n, index, target, chunk, entries, packs, pending, at, pendingBytes);
    var placeholder := Entry(sha, PLACEHOLDER, 0, |chunk|);
    QueueKeepsProgress(chunks, n, index, target, entries', packs', pending', at', placeholder);
    at' := at' + [|entries|];
    entries' := entries' + [placeholder];
    pending' := pending' + [chunk];
    pendingBytes' := pendingBytes' + |chunk|;
  }

  /** Before a chunk is queued: a pack that would overflow is closed, and only such a pack. */
  method MakeRoom(ghost chunks: seq<Bytes>, ghost n: nat, ghost index: map<Digest, Entry>, target: nat, chunk: Bytes,
                  entries: seq<Entry>, packs: seq<(Digest, Bytes)>, pending: seq<Bytes>, at: seq<nat>,
                  pendingBytes: nat)
    returns (entries': seq<Entry>, packs': seq<(Digest, Bytes)>, pending': seq<Bytes>, at': seq<nat>,
             pendingBytes': nat)
    requires Progress(chunks, n, index, target, entries, packs, pending, at)
    requires n == |entries| < |chunks| && chunk == chunks[n] && pendingBytes == |Joined(pending, |pending|)|
    requires (forall c :: c in chunks ==> c != []) && !Reusable(index, chunk)
    requires (packs, pending) in Filling(chunks, index, target, n)
    ensures |entries'| == n && Progress(chunks, n, index, target, entries', packs', pending', at')
    ensures (packs', pending' + [chunk]) in Filling(chunks, index, target, n + 1)
    ensures pendingBytes' == |Joined(pending', |pending'|)| && (pending' == [] || pendingBytes' + |chunk| <= target)
  {
    entries', packs', pending', at', pendingBytes' := entries, packs, pending, at, pendingBytes;
    if pendingBytes + |chunk| > target && pending != [] {
      FlushKeepsFilling(chunks, index, target, n, packs, pending);
      entries', packs' := Flush(chunks, index, target, entries, packs, pending, at);
      pending', at', pendingBytes' := [], [], 0;
      assert [] + [chunk] == [chunk];
    } else {
      QueueKeepsFilling(chunks, index, target, n, packs, pending);
    }
  }

  // --- what the result means ---------------------------------------------------------------------

  lemma {:induction false} JoinedCons(c: Bytes, rest: seq<Bytes>, n: nat)
    requires n <= |rest|
    ensures Joined([c] + rest, n + 1) == c + Joined(rest, n)
  {
    var all := [c] + rest;
    if n == 0 {
      assert Joined(all, 1) == Joined(all, 0) + c;
    } else {
      JoinedCons(c, rest, n - 1);
      assert all[n] == rest[n - 1];
      Associate(c, Joined(rest, n - 1), rest[n - 1]);
    }
  }

  lemma Associate(a: Bytes, b: Bytes, c: Bytes)
    ensures (a + b) + c == a + (b + c)
  {
  }

  lemma {:induction false} ChunksRejoin(data: Bytes, size: nat, off: nat)
    requires size > 0 && off <= |data|
    ensures var cs := ChunksFrom(data, size, off); Joined(cs, |cs|) == data[off..]
    decreases |data| - off
  {
    if off < |data| {
      var next := Min(off + size, |data|);
      var rest := ChunksFrom(data, size, next);
      ChunksRejoin(data, size, next);
      assert ChunksFrom(data, size, off + size) == rest;
      JoinedCons(data[off..next], rest, |rest|);
      assert data[off..] == data[off..next] + data[next..];
    }
  }

  /** Entries whose slices are the chunks mean the chunks joined. */
  lemma {:induction false} ContentsAreChunks(es: seq<Entry>, chunks: seq<Bytes>, n: nat)
    requires n <= |es| == |chunks|
    requires forall i :: 0 <= i < |es| ==> InBounds(es[i]) && Slice(es[i]) == chunks[i]
    ensures Contents(es, n) == Joined(chunks, n)
  {
    if n > 0 {
      ContentsAreChunks(es, chunks, n - 1);
    }
  }

  predicate BaseReadable(base: Option<Manifest>) {
    base.Some? ==> EntriesOk(base.value.entries)
  }

  lemma SettledIsOk(e: Entry, chunk: Bytes, base: Option<Manifest>, size: nat, packs: seq<(Digest, Bytes)>)
    requires BaseReadable(base) && chunk != [] && Settled(e, chunk, BaseIndex(base, size), packs)
    ensures EntryOk(e) && Slice(e) == chunk
  {
    BaseIndexNamesChunks(base, size);
  }

  /**
   * The new manifest is well formed and stands for exactly the payload, whenever the base's entries were good. Since
   * a well-formed manifest is a good base again, this carries along any chain of builds.
   */
  lemma BuiltMeansPayload(data: Bytes, base: Option<Manifest>, target: nat, m: Manifest, packs: seq<(Digest, Bytes)>)
    requires m.chunkSize > 0 && Built(data, BaseIndex(base, m.chunkSize), target, m, packs) && BaseReadable(base)
    ensures WellFormed(m) && Data(m) == data && Contents(m.entries, |m.entries|) == data && BaseReadable(Some(m))
  {
    var chunks := Chunks(data, m.chunkSize);
    ChunksNonEmpty(data, m.chunkSize, 0);
    forall i | 0 <= i < |chunks| ensures EntryOk(m.entries[i]) && Slice(m.entries[i]) == chunks[i] {
      assert chunks[i] in chunks;
      SettledIsOk(m.entries[i], chunks[i], base, m.chunkSize, packs);
    }
    ContentsAreChunks(m.entries, chunks, |chunks|);
    ChunksRejoin(data, m.chunkSize, 0);
  }

  /** The packs that ship now. */
  function Novel(packs: seq<(Digest, Bytes)>): set<Digest> {
    set p | p in packs :: p.0
  }

  /** Dedup reaches the base and nothing else: every pack is novel or the base's, every novel one is referenced. */
  lemma BuiltOnBaseOnly(data: Bytes, base: Option<Manifest>, target: nat, m: Manifest, packs: seq<(Digest, Bytes)>)
    requires m.chunkSize > 0 && Built(data, BaseIndex(base, m.chunkSize), target, m, packs)
    ensures Novel(packs) <= m.Packs()
    ensures m.Packs() <= Novel(packs) + (if base.Some? then base.value.Packs() else {})
    ensures PLACEHOLDER in m.Packs() ==> base.Some? && PLACEHOLDER in base.value.Packs()
  {
    var chunks := Chunks(data, m.chunkSize);
    forall d | d in m.Packs()
      ensures (d in Novel(packs) && d != PLACEHOLDER) || (base.Some? && d in base.value.Packs())
    {
      var i :| 0 <= i < |m.entries| && m.entries[i].pack == d;
      assert Settled(m.entries[i], chunks[i], BaseIndex(base, m.chunkSize), packs);
      if Reusable(BaseIndex(base, m.chunkSize), chunks[i]) {
        BaseIndexNamesChunks(base, m.chunkSize);
      } else {
        assert (d, d.preimage) in packs;
      }
    }
  }

  // --- how much ships --------------------------------------------------------------------------------

  lemma BuiltIsCutAtOffsets(data: Bytes, base: Option<Manifest>, target: nat, m: Manifest, packs: seq<(Digest, Bytes)>)
    requires m.chunkSize > 0 && Built(data, BaseIndex(base, m.chunkSize), target, m, packs) && BaseReadable(base)
    ensures CutAtOffsets(m)
  {
    BuiltMeansPayload(data, base, target, m, packs);
    forall i | 0 <= i < |m.entries| ensures m.entries[i].chunk == Sha256(Chunks(Data(m), m.chunkSize)[i]) {
      assert Settled(m.entries[i], Chunks(data, m.chunkSize)[i], BaseIndex(base, m.chunkSize), packs);
    }
  }

  /** A chunk the base payload contains anywhere on its grid is found there. */
  lemma BaseChunkIsReusable(base: Manifest, i: nat)
    requires CutAtOffsets(base) && i < |base.entries|
    ensures Reusable(BaseIndex(Some(base), base.chunkSize), Chunks(Data(base), base.chunkSize)[i])
  {
    var chunk := Chunks(Data(base), base.chunkSize)[i];
    var d := Sha256(chunk);
    assert base.entries[i].chunk == d;
    IndexFromBase(base.entries, |base.entries|, d);
    var e := Index(base.entries, |base.entries|)[d];
    assert EntryOk(e) && Slice(e) == chunk;
  }

  /** Bytes of the chunks among the first n that the base payload has nowhere on its grid. */
  function FreshBytes(chunks: seq<Bytes>, was: seq<Bytes>, n: nat): nat
    requires n <= |chunks|
  {
    if n == 0 then 0 else FreshBytes(chunks, was, n - 1) + (if chunks[n - 1] in was then 0 else |chunks[n - 1]|)
  }

  lemma {:induction false} ShippedIsFresh(base: Manifest, chunks: seq<Bytes>, n: nat)
    requires CutAtOffsets(base) && n <= |chunks| && forall c :: c in chunks ==> c != []
    ensures Shipped(chunks, BaseIndex(Some(base), base.chunkSize), n)
              == FreshBytes(chunks, Chunks(Data(base), base.chunkSize), n)
  {
    if n > 0 {
      ShippedIsFresh(base, chunks, n - 1);
      ReusableIffInBase(base, chunks[n - 1]);
    }
  }

  lemma ReusableIffInBase(base: Manifest, chunk: Bytes)
    requires CutAtOffsets(base)
    ensures Reusable(BaseIndex(Some(base), base.chunkSize), chunk) <==> chunk in Chunks(Data(base), base.chunkSize)
  {
    var was := Chunks(Data(base), base.chunkSize);
    if chunk in was {
      var i :| 0 <= i < |was| && was[i] == chunk;
      BaseChunkIsReusable(base, i);
    }
    if Reusable(BaseIndex(Some(base), base.chunkSize), chunk) {
      IndexFromBase(base.entries, |base.entries|, Sha256(chunk));
      var i :| 0 <= i < |base.entries| && base.entries[i].chunk == Sha256(chunk);
      assert was[i] == chunk;
    }
  }

  /** The chunks among the first n that the base payload has nowhere on its grid, in file order. */
  function FreshChunks(chunks: seq<Bytes>, was: seq<Bytes>, n: nat): seq<Bytes>
    requires n <= |chunks|
  {
    if n == 0 then [] else FreshChunks(chunks, was, n - 1) + (if chunks[n - 1] in was then [] else [chunks[n - 1]])
  }

  /** Packs of these names hold these chunks and nothing else, and as few of them as filling up each pack makes. */
  ghost predicate HoldExactly(novel: set<Digest>, chunks: seq<Bytes>, target: nat) {
    exists packs :: novel == Novel(packs) && NamedByBytes(packs) && FullyPacked(packs, chunks, target)
  }

  ghost predicate NamedByBytes(packs: seq<(Digest, Bytes)>) {
    forall p :: p in packs ==> p.0 == Sha256(p.1)
  }

  lemma {:induction false} NovelIsFresh(base: Manifest, chunks: seq<Bytes>, n: nat)
    requires CutAtOffsets(base) && n <= |chunks|
    ensures NovelChunks(chunks, BaseIndex(Some(base), base.chunkSize), n)
              == FreshChunks(chunks, Chunks(Data(base), base.chunkSize), n)
  {
    if n > 0 {
      NovelIsFresh(base, chunks, n - 1);
      ReusableIffInBase(base, chunks[n - 1]);
    }
  }

  /** A build at the base's chunk size: chunks of the base are entries of the base, and the packs hold the others. */
  lemma DedupsOn(data: Bytes, base: Manifest, target: nat, m: Manifest, packs: seq<(Digest, Bytes)>)
    requires CutAtOffsets(base) && m.chunkSize == base.chunkSize
    requires Built(data, BaseIndex(Some(base), m.chunkSize), target, m, packs)
    ensures var chunks, was := Chunks(data, m.chunkSize), Chunks(Data(base), m.chunkSize);
            && |m.entries| == |chunks|
            && (forall i :: 0 <= i < |chunks| ==>
                  if chunks[i] in was then m.entries[i] in base.entries else m.entries[i].pack in Novel(packs))
            && HoldExactly(Novel(packs), FreshChunks(chunks, was, |chunks|), target)
            && (data == Data(base) ==> Novel(packs) == {})
  {
    var chunks, was := Chunks(data, m.chunkSize), Chunks(Data(base), m.chunkSize);
    forall i | 0 <= i < |chunks|
      ensures if chunks[i] in was then m.entries[i] in base.entries else m.entries[i].pack in Novel(packs)
    {
      EntryDedups(base, chunks[i], m.entries[i], packs);
    }
    NovelIsFresh(base, chunks, |chunks|);
    forall p | p in packs ensures p.0 == Sha256(p.1) { assert PackOk(p, target, chunks); }
    assert NamedByBytes(packs);
    OnlyFreshChunksShipOn(data, base, target, m, packs);
  }

  lemma EntryDedups(base: Manifest, chunk: Bytes, e: Entry, packs: seq<(Digest, Bytes)>)
    requires CutAtOffsets(base) && Settled(e, chunk, BaseIndex(Some(base), base.chunkSize), packs)
    ensures if chunk in Chunks(Data(base), base.chunkSize) then e in base.entries else e.pack in Novel(packs)
  {
    ReusableIffInBase(base, chunk);
    BaseIndexNamesChunks(Some(base), base.chunkSize);
  }

  lemma OnlyFreshChunksShipOn(data: Bytes, base: Manifest, target: nat, m: Manifest, packs: seq<(Digest, Bytes)>)
    requires CutAtOffsets(base) && m.chunkSize == base.chunkSize
    requires Built(data, BaseIndex(Some(base), m.chunkSize), target, m, packs)
    ensures var chunks := Chunks(data, m.chunkSize);
            PackBytes(packs) == FreshBytes(chunks, Chunks(Data(base), base.chunkSize), |chunks|)
    ensures data == Data(base) ==> packs == []
  {
    var chunks, was := Chunks(data, m.chunkSize), Chunks(Data(base), base.chunkSize);
    ChunksNonEmpty(data, m.chunkSize, 0);
    ShippedIsFresh(base, chunks, |chunks|);
    if data == Data(base) {
      NoneFresh(chunks, was, |chunks|);
      forall p | p in packs ensures p.1 != [] { assert PackOk(p, target, chunks); }
      NoBytesNoPacks(packs);
    }
  }

  /**
   * Two builds in a row, the second on the first, at one chunk size. What the second ships is exactly the chunks
   * the first payload does not contain at any of its own chunk offsets: a chunk unchanged in place, or moved by
   * whole chunks, costs nothing; building the same payload again costs nothing.
   */
  lemma OnlyFreshChunksShip(first: Bytes, older: Option<Manifest>, target: nat, base: Manifest,
                            shipped: seq<(Digest, Bytes)>,
                            data: Bytes, target': nat, m: Manifest, packs: seq<(Digest, Bytes)>)
    requires base.chunkSize > 0 && Built(first, BaseIndex(older, base.chunkSize), target, base, shipped)
              && BaseReadable(older)
    requires m.chunkSize == base.chunkSize && Built(data, BaseIndex(Some(base), m.chunkSize), target', m, packs)
    ensures var chunks := Chunks(data, m.chunkSize);
            PackBytes(packs) == FreshBytes(chunks, Chunks(first, base.chunkSize), |chunks|)
    ensures data == first ==> packs == []
  {
    BuiltMeansPayload(first, older, target, base, shipped);
    BuiltIsCutAtOffsets(first, older, target, base, shipped);
    OnlyFreshChunksShipOn(data, base, target', m, packs);
  }

  lemma {:induction false} NoneFresh(chunks: seq<Bytes>, was: seq<Bytes>, n: nat)
    requires n <= |chunks| && forall i :: 0 <= i < n ==> chunks[i] in was
    ensures FreshBytes(chunks, was, n) == 0
  {
    if n > 0 { NoneFresh(chunks, was, n - 1); }
  }

  lemma NoBytesNoPacks(packs: seq<(Digest, Bytes)>)
    requires forall p :: p in packs ==> p.1 != []
    ensures PackBytes(packs) == 0 ==> packs == []
  {
    if packs != [] { assert packs[|packs| - 1] in packs; }
  }
}

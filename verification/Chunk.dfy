/** Manifests over content-addressed packs: what a manifest means, independently of any store. */
module Chunk {
  newtype byte = b: int | 0 <= b < 256

  type Bytes = seq<byte>

  /** An ideal SHA-256: code only computes and compares digests; specifications may look inside. */
  datatype Digest = Digest(preimage: Bytes)

  function Sha256(b: Bytes): Digest {
    Digest(b)
  }

  /** One chunk of the payload: the pack slice that reproduces it. */
  datatype Entry = Entry(chunk: Digest, pack: Digest, offset: nat, length: nat)

  datatype Manifest = Manifest(chunkSize: nat, totalSize: nat, file: Digest, entries: seq<Entry>) {
    /** Every pack a reader of this manifest needs. */
    function Packs(): (ps: set<Digest>) {
      set i | 0 <= i < |entries| :: entries[i].pack
    }
  }

  predicate InBounds(e: Entry) {
    e.offset + e.length <= |e.pack.preimage|
  }

  /** The bytes an entry stands for, read from an uncorrupted copy of its pack. */
  function Slice(e: Entry): (b: Bytes)
    requires InBounds(e)
  {
    e.pack.preimage[e.offset..e.offset + e.length]
  }

  predicate EntryOk(e: Entry) {
    e.length > 0 && InBounds(e) && Sha256(Slice(e)) == e.chunk
  }

  /** The first n entries, concatenated: the one meaning shared by every reader of a manifest. */
  function Contents(es: seq<Entry>, n: nat): Bytes
    requires n <= |es|
    requires forall i :: 0 <= i < n ==> InBounds(es[i])
  {
    if n == 0 then [] else Contents(es, n - 1) + Slice(es[n - 1])
  }

  predicate EntriesOk(es: seq<Entry>) {
    forall i :: 0 <= i < |es| ==> EntryOk(es[i])
  }

  predicate WellFormed(m: Manifest) {
    && m.chunkSize > 0
    && EntriesOk(m.entries)
    && m.totalSize == |Contents(m.entries, |m.entries|)|
    && m.file == Sha256(Contents(m.entries, |m.entries|))
  }

  /** The payload a well-formed manifest stands for. */
  function Data(m: Manifest): Bytes {
    m.file.preimage
  }

  /** File offset of entry i: the sum of the lengths before it. */
  function Start(es: seq<Entry>, i: nat): nat
    requires i <= |es|
  {
    if i == 0 then 0 else Start(es, i - 1) + es[i - 1].length
  }

  lemma {:induction false} ContentsLength(es: seq<Entry>, n: nat)
    requires n <= |es|
    requires forall i :: 0 <= i < n ==> InBounds(es[i])
    ensures |Contents(es, n)| == Start(es, n)
  {
    if n > 0 {
      ContentsLength(es, n - 1);
    }
  }

  /** Contents only grows on the right, and entry i sits at its start offset. */
  lemma {:induction false} SliceAtStart(es: seq<Entry>, i: nat, n: nat)
    requires i < n <= |es|
    requires forall j :: 0 <= j < n ==> InBounds(es[j])
    ensures Start(es, i) + es[i].length <= Start(es, n) == |Contents(es, n)|
    ensures Contents(es, n)[Start(es, i)..Start(es, i) + es[i].length] == Slice(es[i])
  {
    ContentsLength(es, n);
    ContentsLength(es, n - 1);
    ContentsLength(es, i);
    if i < n - 1 {
      SliceAtStart(es, i, n - 1);
      assert Contents(es, n)[..Start(es, n - 1)] == Contents(es, n - 1);
    }
  }

  lemma {:induction false} StartMonotone(es: seq<Entry>, i: nat, j: nat)
    requires i <= j <= |es|
    ensures Start(es, i) <= Start(es, j)
  {
    if i < j {
      StartMonotone(es, i, j - 1);
    }
  }

  // --- fixed-offset chunks ------------------------------------------------------------

  function Min(a: nat, b: nat): nat {
    if a <= b then a else b
  }

  /** The payload from `off` on, cut every `size` bytes; the tail may be shorter. */
  function ChunksFrom(data: Bytes, size: nat, off: nat): (cs: seq<Bytes>)
    requires size > 0
    decreases |data| - off
  {
    if off >= |data| then [] else [data[off..Min(off + size, |data|)]] + ChunksFrom(data, size, off + size)
  }

  function Chunks(data: Bytes, size: nat): seq<Bytes>
    requires size > 0
  {
    ChunksFrom(data, size, 0)
  }

  /** Chunk i sits at i * size, and there are just enough of them. */
  lemma {:induction false} FixedOffsets(data: Bytes, size: nat, off: nat, i: nat)
    requires size > 0 && off <= |data| && i < |ChunksFrom(data, size, off)|
    ensures off + i * size < |data|
    ensures ChunksFrom(data, size, off)[i] == data[off + i * size..Min(off + i * size + size, |data|)]
    decreases i
  {
    if i > 0 {
      assert off + i * size == (off + size) + (i - 1) * size;
      FixedOffsets(data, size, off + size, i - 1);
    }
  }

  /** The manifest's entries are the payload's own chunks at fixed offsets, as every build leaves them. */
  predicate CutAtOffsets(m: Manifest) {
    && WellFormed(m) && |m.entries| == |Chunks(Data(m), m.chunkSize)|
    && forall i :: 0 <= i < |m.entries| ==> m.entries[i].chunk == Sha256(Chunks(Data(m), m.chunkSize)[i])
  }
}

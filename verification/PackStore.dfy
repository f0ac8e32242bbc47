/** The pack objects of a bucket, as a reader sees them. */
module PackStores {
  import opened Wrappers
  import opened Chunk

  predicate Intact(objects: map<Digest, Bytes>, p: Digest) {
    p in objects && objects[p] == p.preimage
  }

  /** The part of [start, start + length) that lies inside the body. */
  function Truncated(body: Bytes, start: nat, length: nat): Bytes {
    if start >= |body| then []
    else if start + length <= |body| then body[start..start + length]
    else body[start..]
  }

  /** Unless the bucket is stable, anything may happen to its objects before a read. */
  class PackStore {
    const stable: bool
    var objects: map<Digest, Bytes>
    var gets: nat    // whole packs fetched so far
    var ranged: nat  // bytes asked for in ranged reads so far
    var ranges: nat  // ranged reads so far

    constructor (stable: bool, objects: map<Digest, Bytes>)
      ensures this.stable == stable && this.objects == objects && gets == 0 && ranged == 0 && ranges == 0
    {
      this.stable, this.objects, gets, ranged, ranges := stable, objects, 0, 0, 0;
    }

    method Get(p: Digest) returns (body: Option<Bytes>)
      modifies this
      ensures stable ==> objects == old(objects)
      ensures ranged == old(ranged) && ranges == old(ranges) && gets == old(gets) + 1
      ensures body == if p in objects then Some(objects[p]) else None
    {
      if !stable { objects := *; }
      gets := gets + 1;
      body := if p in objects then Some(objects[p]) else None;
    }

    /** Fewer bytes only when the range extends past the object. */
    method GetRange(p: Digest, start: nat, length: nat) returns (body: Option<Bytes>)
      modifies this
      ensures stable ==> objects == old(objects)
      ensures ranged == old(ranged) + length && ranges == old(ranges) + 1 && gets == old(gets)
      ensures body == if p in objects then Some(Truncated(objects[p], start, length)) else None
    {
      if !stable { objects := *; }
      ranged, ranges := ranged + length, ranges + 1;
      body := if p in objects then Some(Truncated(objects[p], start, length)) else None;
    }
  }
}

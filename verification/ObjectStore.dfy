/**
 * The store contract: atomic conditional writes, and etags that are never used twice. Lease.dfy numbers writes
 * after it.
 */
module ObjectStore {
  import opened Wrappers
  import opened Chunk

  datatype StoreError = ObjectNotFound | PreconditionFailed | InvalidInput

  datatype Object = Object(body: Bytes, etag: nat, written: nat)

  datatype GetResult = GetResult(body: Bytes, etag: nat, lastModified: nat)

  class InMemoryObjectStore {
    var objects: map<string, Object>
    var etagCounter: nat
    var clock: nat
    ghost var history: seq<(string, Bytes)>  // write number e produced etag e

    /** Every object is the write its etag names. */
    ghost predicate Valid()
      reads this
    {
      && |history| == etagCounter + 1
      && forall k :: k in objects ==>
           && 0 < objects[k].etag <= etagCounter && history[objects[k].etag] == (k, objects[k].body)
           && objects[k].written <= clock
    }

    constructor ()
      ensures Valid() && objects == map[] && etagCounter == 0
    {
      objects, etagCounter, clock, history := map[], 0, 0, [("", [])];
    }

    /** The one place an object is written. */
    method Write(key: string, body: Bytes) returns (etag: nat)
      requires Valid()
      modifies this
      ensures Valid() && old(clock) <= clock && etag == etagCounter == old(etagCounter) + 1
      ensures objects == old(objects)[key := Object(body, etag, clock)] && history == old(history) + [(key, body)]
    {
      var elapsed: int := *;
      if elapsed > 0 { clock := clock + elapsed; }
      etagCounter := etagCounter + 1;
      objects := objects[key := Object(body, etagCounter, clock)];
      history := history + [(key, body)];
      etag := etagCounter;
    }

    method Get(key: string) returns (r: Result<GetResult, StoreError>)
      requires Valid()
      ensures r == if key in objects then Ok(GetResult(objects[key].body, objects[key].etag, objects[key].written))
                   else Err(ObjectNotFound)
      ensures r.Ok? ==> 0 < r.value.etag < |history| && history[r.value.etag] == (key, r.value.body)
    {
      if key !in objects { return Err(ObjectNotFound); }
      return Ok(GetResult(objects[key].body, objects[key].etag, objects[key].written));
    }

    /** Ranged read: truncated at the end of the object, empty past it, never wrapping round. */
    method GetRange(key: string, start: int, length: int) returns (r: Result<Bytes, StoreError>)
      requires Valid()
      ensures start < 0 <==> r == Err(InvalidInput)
      ensures start >= 0 ==> (r.Ok? <==> key in objects)
      ensures r.Ok? ==> |r.value| <= (if length < 0 then 0 else length)
                        && (forall i :: 0 <= i < |r.value| ==>
                            start + i < |objects[key].body| && r.value[i] == objects[key].body[start + i])
                        && (|r.value| < length ==> start + |r.value| >= |objects[key].body|)
    {
      if start < 0 { return Err(InvalidInput); }
      if key !in objects { return Err(ObjectNotFound); }
      var body := objects[key].body;
      if length <= 0 || start >= |body| { return Ok([]); }
      return Ok(if start + length <= |body| then body[start..start + length] else body[start..]);
    }

    method PutIfAbsent(key: string, body: Bytes) returns (r: Result<nat, StoreError>)
      requires Valid()
      modifies this
      ensures Valid() && old(history) <= history
      ensures r.Ok? <==> key !in old(objects)
      ensures r.Ok? ==> objects == old(objects)[key := Object(body, r.value, clock)] && r.value == old(etagCounter) + 1
      ensures r.Err? ==> r.error == PreconditionFailed && objects == old(objects) && etagCounter == old(etagCounter)
    {
      if key in objects { return Err(PreconditionFailed); }
      var etag := Write(key, body);
      return Ok(etag);
    }

    /**
     * Replaces exactly the write the etag names, or nothing: a vanished object is not found, a rewritten one is
     * stale.
     */
    method PutIfMatch(key: string, body: Bytes, etag: nat) returns (r: Result<nat, StoreError>)
      requires Valid()
      modifies this
      ensures Valid() && old(history) <= history
      ensures r.Ok? <==> key in old(objects) && old(objects)[key].etag == etag
      ensures r.Ok? ==> old(history)[etag] == (key, old(objects)[key].body)
      ensures r.Ok? ==> objects == old(objects)[key := Object(body, r.value, clock)] && r.value == old(etagCounter) + 1
      ensures r.Err? ==> objects == old(objects) && etagCounter == old(etagCounter)
                         && r.error == if key in objects then PreconditionFailed else ObjectNotFound
    {
      if key !in objects { return Err(ObjectNotFound); }
      if objects[key].etag != etag { return Err(PreconditionFailed); }
      var fresh' := Write(key, body);
      return Ok(fresh');
    }

    method Put(key: string, body: Bytes) returns (etag: nat)
      requires Valid()
      modifies this
      ensures Valid() && old(history) <= history && etag == old(etagCounter) + 1
      ensures objects == old(objects)[key := Object(body, etag, clock)]
    {
      etag := Write(key, body);
    }

    method Delete(key: string)
      requires Valid()
      modifies this
      ensures Valid() && objects == old(objects) - {key} && etagCounter == old(etagCounter) && history == old(history)
    {
      objects := objects - {key};
    }
  }
}

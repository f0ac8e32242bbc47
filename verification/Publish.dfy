/** Uploading packs and proving them fresh before a manifest lands, while collectors may delete and twins may upload. */
module Publish {
  import opened Wrappers
  import opened Chunk

  const PUT_ATTEMPTS := 5

  datatype PutResponse = Stored | Exists | Ambiguous | Failed

  datatype PublishError = KeptFailing(pack: Digest) | MapCorrupt(pack: Digest) | BaseVanished(pack: Digest)

  datatype PackObject = PackObject(body: Bytes, written: nat)

  /**
   * packs/<sha> objects with their store time. On a `quiet` bucket nobody else acts and every request is answered.
   * History: `seen` records when each was last known to be present, `refreshed` when this writer last overwrote it
   * unconditionally, `acks` how many PUTs were acknowledged, by success or by the object being there already,
   * and `streak` how many in a row were not.
   */
  class PackBucket {
    const quiet: bool
    var packs: map<Digest, PackObject>
    var clock: nat
    var puts: nat  // PUTs sent
    ghost var acks: nat
    ghost var streak: nat
    ghost var seen: map<Digest, nat>
    ghost var refreshed: map<Digest, nat>

    /** Whatever is stored under a digest has that digest. */
    ghost predicate Valid()
      reads this
    {
      && (forall p :: p in packs ==> packs[p].body == p.preimage && packs[p].written <= clock)
      && (forall p :: p in seen ==> seen[p] <= clock)
      && (forall p :: p in refreshed ==> refreshed[p] <= clock)
    }

    constructor (quiet: bool)
      ensures Valid() && this.quiet == quiet && packs == map[] && clock == 0
      ensures seen == map[] && refreshed == map[] && puts == 0 && acks == 0 && streak == 0
    {
      this.quiet := quiet;
      packs, clock, seen, refreshed, puts, acks, streak := map[], 0, map[], map[], 0, 0, 0;
    }

    twostate predicate Onward()
      reads this
    {
      && old(clock) <= clock && old(puts) <= puts && old(acks) <= acks
      && (forall p :: p in old(seen) ==> p in seen && old(seen)[p] <= seen[p])
      && (forall p :: p in old(refreshed) ==> p in refreshed && old(refreshed)[p] <= refreshed[p])
    }

    /** Collectors delete, twins upload, time passes. */
    method Interfere()
      requires Valid()
      modifies this`packs, this`clock
      ensures Valid() && old(clock) <= clock && (quiet ==> packs == old(packs))
    {
      if quiet { return; }
      var n: int, dt: int := *, *;
      if dt > 0 { clock := clock + dt; }
      for i := 0 to if n < 0 then 0 else n
        invariant Valid() && old(clock) <= clock
      {
        var p: Digest, deletes: bool := *, *;
        packs := if deletes then packs - {p} else packs[p := PackObject(p.preimage, clock)];
      }
    }

    /** The store itself never objects to a body: only callers keep digests honest. */
    method Put(p: Digest, body: Bytes, createOnly: bool) returns (r: PutResponse)
      requires Valid() && Sha256(body) == p
      modifies this
      ensures Valid() && Onward() && puts == old(puts) + 1
      ensures if r.Stored? || r.Exists? then acks == old(acks) + 1 else acks == old(acks) && streak == old(streak) + 1
      ensures quiet ==> packs.Keys == old(packs).Keys + {p} && (r.Stored? || r.Exists?)
      ensures r.Stored? ==> p in seen && seen[p] >= old(clock)
      ensures r.Exists? ==> createOnly && p in seen && seen[p] >= old(clock)
      ensures !createOnly && r.Stored? ==> p in refreshed && refreshed[p] >= old(clock)
                                           && p in packs && packs[p].written == refreshed[p]
    {
      Interfere();
      puts := puts + 1;
      if createOnly && p in packs {
        seen, acks, streak := seen[p := clock], acks + 1, 0;
        return Exists;
      }
      var stored := Store(p, body, createOnly);
      return if stored then Stored else if createOnly then Ambiguous else Failed;
    }

    /** The object may land, and the response may arrive. */
    method Store(p: Digest, body: Bytes, createOnly: bool) returns (heard: bool)
      requires Valid() && Sha256(body) == p
      modifies this`packs, this`seen, this`refreshed, this`acks, this`streak
      ensures Valid() && Onward()
      ensures if heard then acks == old(acks) + 1 else acks == old(acks) && streak == old(streak) + 1
      ensures heard ==> p in seen && seen[p] == clock && p in packs && packs[p].written == clock
      ensures heard && !createOnly ==> p in refreshed && refreshed[p] == clock
      ensures quiet ==> heard && packs.Keys == old(packs).Keys + {p}
    {
      var lands: bool := *;
      heard := *;
      lands, heard := lands || quiet, heard || quiet;
      if lands {
        packs := packs[p := PackObject(body, clock)];
        seen := seen[p := clock];
        if !createOnly { refreshed := refreshed[p := clock]; }
      }
      heard := lands && heard;
      if heard { acks, streak := acks + 1, 0; } else { streak := streak + 1; }
    }

    method Head(p: Digest) returns (there: bool)
      requires Valid()
      modifies this
      ensures Valid() && Onward() && puts == old(puts) && acks == old(acks) && (there <==> p in packs)
      ensures streak == old(streak)
      ensures quiet ==> packs == old(packs)
      ensures there ==> p in seen && seen[p] >= old(clock)
    {
      Interfere();
      there := p in packs;
      if there { seen := seen[p := clock]; }
    }
  }

  /**
   * Create-only upload: a twin's upload of the same digest is success; ambiguity is settled by a HEAD. An error means
   * that every attempt went unacknowledged; undisturbed, one PUT is enough.
   */
  method PutPack(b: PackBucket, p: Digest, body: Bytes, maxAttempts: nat) returns (r: Result<(), PublishError>)
    requires b.Valid() && Sha256(body) == p
    modifies b
    ensures b.Valid() && b.Onward() && b.puts <= old(b.puts) + maxAttempts && b.acks <= old(b.acks) + 1
    ensures r.Ok? ==> p in b.seen && b.seen[p] >= old(b.clock)
    ensures r.Err? ==> r.error == KeptFailing(p) && b.puts == old(b.puts) + maxAttempts && b.acks == old(b.acks)
    ensures b.quiet && maxAttempts > 0 ==>
              r.Ok? && b.puts == old(b.puts) + 1 && b.packs.Keys == old(b.packs).Keys + {p}
  {
    for i := 0 to maxAttempts
      invariant b.Valid() && b.Onward() && b.puts == old(b.puts) + i && b.acks == old(b.acks) && (b.quiet ==> i == 0)
      invariant i == 0 ==> b.packs == old(b.packs)
    {
      var put := b.Put(p, body, true);
      if put.Stored? || put.Exists? { return Ok(()); }
      var there := b.Head(p);
      if there { return Ok(()); }
    }
    return Err(KeptFailing(p));
  }

  /** What each error says: five refreshes in a row failed, the caller's bytes are wrong, or a base pack is gone. */
  ghost predicate Blamed(b: PackBucket, e: PublishError, novel: map<Digest, Bytes>)
    reads b
  {
    match e
    case KeptFailing(p) => p in novel && !b.quiet && b.streak >= PUT_ATTEMPTS
    case MapCorrupt(p) => p in novel && Sha256(novel[p]) != p
    case BaseVanished(p) => p !in novel && p !in b.packs
  }

  /** One pack of a manifest about to land: refreshed if its bytes are in hand, otherwise checked. */
  method Check(b: PackBucket, p: Digest, novel: map<Digest, Bytes>) returns (r: Result<(), PublishError>)
    requires b.Valid()
    modifies b
    ensures b.Valid() && b.Onward()
    ensures r.Ok? ==> p in b.seen && b.seen[p] >= old(b.clock)
    ensures r.Ok? && p in novel ==> p in b.refreshed && b.refreshed[p] >= old(b.clock)
    ensures r.Err? ==> r.error.pack == p && Blamed(b, r.error, novel)
    ensures r.Ok? && p in novel ==> Sha256(novel[p]) == p
    ensures Answered(b.acks - old(b.acks), r, {p} * novel.Keys)
    ensures b.quiet ==> b.packs.Keys == old(b.packs).Keys + (if r.Ok? then {p} else {})
    ensures b.quiet && r.Err? && r.error.BaseVanished? ==> p !in old(b.packs)
  {
    if p in novel {
      if Sha256(novel[p]) != p { return Err(MapCorrupt(p)); }
      for i := 0 to PUT_ATTEMPTS
        invariant b.Valid() && b.Onward() && b.puts == old(b.puts) + i && b.acks == old(b.acks) && b.streak >= i
        invariant (b.quiet ==> i == 0) && (i == 0 ==> b.packs == old(b.packs))
      {
        var put := b.Put(p, novel[p], false);
        if put.Stored? {
          assert {p} * novel.Keys == {p};
          return Ok(());
        }
      }
      return Err(KeptFailing(p));
    }
    var there := b.Head(p);
    assert {p} * novel.Keys == {};
    return if there then Ok(()) else Err(BaseVanished(p));
  }

  /** A success was acknowledged one PUT for each of these packs. */
  ghost predicate Answered(acks: int, r: Result<(), PublishError>, refreshed: set<Digest>) {
    r.Ok? ==> acks == |refreshed|
  }

  /**
   * On success every pack of the manifest was present at some moment since the call began, and every novel one was
   * overwritten, by one acknowledged PUT each, so its modification time is that young. Whatever map the caller passes,
   * the bucket never gets bytes under a digest that is not theirs. Undisturbed, it fails only for a map that is corrupt
   * or a base pack that was not there when the call began.
   */
  method VerifyPacks(b: PackBucket, m: Manifest, novel: map<Digest, Bytes>) returns (r: Result<(), PublishError>)
    requires b.Valid()
    modifies b
    ensures b.Valid() && b.Onward()
    ensures r.Ok? ==> forall p :: p in m.Packs() ==> p in b.seen && b.seen[p] >= old(b.clock)
    ensures r.Err? ==> r.error.pack in m.Packs() && Blamed(b, r.error, novel)
    ensures r.Ok? ==> forall p :: p in m.Packs() && p in novel ==>
              Sha256(novel[p]) == p && p in b.refreshed && b.refreshed[p] >= old(b.clock)
    ensures Answered(b.acks - old(b.acks), r, m.Packs() * novel.Keys)
    ensures b.quiet && r.Err? && r.error.BaseVanished? ==> r.error.pack !in old(b.packs)
  {
    var todo := m.Packs();
    ghost var checked: set<Digest> := {};
    while todo != {}
      invariant b.Valid() && b.Onward() && Split(m.Packs(), todo, checked)
      invariant Covered(checked, b.seen, b.refreshed, novel, old(b.clock))
      invariant b.acks - old(b.acks) == |checked * novel.Keys|
      invariant b.quiet ==> old(b.packs).Keys <= b.packs.Keys
      decreases |todo|
    {
      var p :| p in todo;
      ghost var seen, refreshed := b.seen, b.refreshed;
      r := Check(b, p, novel);
      if r.Err? { return; }
      OneMoreCovered(checked, p, seen, b.seen, refreshed, b.refreshed, novel, old(b.clock));
      OneMoreDone(checked, novel.Keys, p);
      todo, checked := todo - {p}, checked + {p};
    }
    assert checked == m.Packs();
    r := Ok(());
  }

  ghost predicate Split(all: set<Digest>, todo: set<Digest>, checked: set<Digest>) {
    todo !! checked && forall p :: p in all <==> p in todo || p in checked
  }

  /** These packs were all seen since that time, and the novel ones, genuine, overwritten. */
  ghost predicate Covered(ps: set<Digest>, seen: map<Digest, nat>, refreshed: map<Digest, nat>,
                          novel: map<Digest, Bytes>, since: nat)
  {
    && (forall p :: p in ps ==> p in seen && seen[p] >= since)
    && (forall p :: p in ps && p in novel ==> Sha256(novel[p]) == p && p in refreshed && refreshed[p] >= since)
  }

  lemma OneMoreCovered(ps: set<Digest>, p: Digest, seen: map<Digest, nat>, seen': map<Digest, nat>,
                       refreshed: map<Digest, nat>, refreshed': map<Digest, nat>, novel: map<Digest, Bytes>,
                       since: nat)
    requires Covered(ps, seen, refreshed, novel, since) && Covered({p}, seen', refreshed', novel, since)
    requires forall q :: q in seen ==> q in seen' && seen[q] <= seen'[q]
    requires forall q :: q in refreshed ==> q in refreshed' && refreshed[q] <= refreshed'[q]
    ensures Covered(ps + {p}, seen', refreshed', novel, since)
  {
  }

  lemma OneMoreDone(checked: set<Digest>, novel: set<Digest>, p: Digest)
    requires p !in checked
    ensures |(checked + {p}) * novel| == |checked * novel| + |{p} * novel|
  {
    assert (checked + {p}) * novel == checked * novel + {p} * novel;
  }
}

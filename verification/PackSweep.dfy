/** The pure decision at the heart of the pack collector: per-pack tombstone state machine and circuit breaker. */
module PackSweep {
  import opened Wrappers
  import opened Chunk

  type Pack = Digest

  /** What a retained payload key turned out to be. */
  datatype ResolvedPayload =
    | CommittedWhole
    | CommittedChunked(manifest: Manifest)
    | OrphanManifest(manifest: Manifest)
    | OrphanOpaque

  /** A listing row; a store may report no modification time. */
  datatype ObjectMeta = ObjectMeta(key: Pack, lastModified: Option<nat>)

  datatype Plan =
    | RefuseMissing(missing: set<Pack>)
    | RefuseMassDelete
    | SweepActions(marked: set<Pack>, tombstone: set<Pack>, resurrect: set<Pack>, delete: set<Pack>)

  const BREAKER_MIN := 10
  const DEFAULT_MAX_DELETE_FRACTION := 0.4

  /** An object of unknown age counts as young. */
  predicate Young(modified: Option<nat>, now: nat, grace: nat) {
    modified.None? || now - modified.value <= grace
  }

  /** Unreferenced, and older than the grace on the store's clock. */
  predicate Cold(marked: set<Pack>, metas: map<Pack, Option<nat>>, now: nat, grace: nat, k: Pack) {
    k in metas && k !in marked && !Young(metas[k], now, grace)
  }

  function Tombstones(marked: set<Pack>, metas: map<Pack, Option<nat>>, cold: map<Pack, nat>, now: nat,
                      grace: nat): set<Pack> {
    set k | k in metas && Cold(marked, metas, now, grace, k) && k !in cold
  }

  function Resurrected(marked: set<Pack>, metas: map<Pack, Option<nat>>, cold: map<Pack, nat>, now: nat,
                       grace: nat): set<Pack> {
    set k | k in metas && !Cold(marked, metas, now, grace, k) && k in cold
  }

  /** Deletion needs a row written more than a grace ago by an earlier cycle, and coldness now. */
  function Deletable(marked: set<Pack>, metas: map<Pack, Option<nat>>, cold: map<Pack, nat>, now: nat,
                     grace: nat): set<Pack> {
    set k | k in metas && Cold(marked, metas, now, grace, k) && k in cold && now - cold[k] > grace
  }

  predicate MassDelete(deleted: nat, listed: nat, maxFraction: real) {
    listed >= BREAKER_MIN && deleted as real > maxFraction * listed as real
  }

  /** The plan the collector must reach, as one expression over the cycle's observations. */
  function Decide(marked: set<Pack>, refs: set<Pack>, metas: map<Pack, Option<nat>>, cold: map<Pack, nat>,
                  now: nat, grace: nat, maxFraction: real): Plan
  {
    if !(refs <= metas.Keys) then RefuseMissing(refs - metas.Keys)
    else
      var delete := Deletable(marked, metas, cold, now, grace);
      if MassDelete(|delete|, |metas|, maxFraction) then RefuseMassDelete
      else SweepActions(marked, Tombstones(marked, metas, cold, now, grace),
                        Resurrected(marked, metas, cold, now, grace), delete)
  }

  /** The ledger after a committed plan: surviving rows, new tombstones, nothing that is being deleted. */
  function NewRows(plan: Plan, metas: map<Pack, Option<nat>>, cold: map<Pack, nat>, now: nat): (rows: map<Pack, nat>)
    requires plan.SweepActions?
  {
    map k | k in cold.Keys + plan.tombstone && k !in plan.delete
            && (k in plan.tombstone || (k in metas && k !in plan.resurrect)) ::
      if k in plan.tombstone then now else cold[k]
  }

  function MarkedBy(resolved: seq<ResolvedPayload>): set<Pack> {
    if resolved == [] then {}
    else
      var last := resolved[|resolved| - 1];
      MarkedBy(resolved[..|resolved| - 1])
      + (if last.CommittedChunked? || last.OrphanManifest? then last.manifest.Packs() else {})
  }

  function CommittedRefs(resolved: seq<ResolvedPayload>): set<Pack> {
    if resolved == [] then {}
    else
      var last := resolved[|resolved| - 1];
      CommittedRefs(resolved[..|resolved| - 1]) + (if last.CommittedChunked? then last.manifest.Packs() else {})
  }

  /** The listing as a dictionary: a repeated key keeps its last row. */
  function Listed(rows: seq<ObjectMeta>): map<Pack, Option<nat>> {
    if rows == [] then map[]
    else Listed(rows[..|rows| - 1])[rows[|rows| - 1].key := rows[|rows| - 1].lastModified]
  }

  /** A listed key has the time of its last row. */
  lemma {:induction false} LastRowCounts(rows: seq<ObjectMeta>, k: Pack)
    ensures k in Listed(rows) <==> exists i :: IsLastRow(rows, k, i)
    ensures forall i :: IsLastRow(rows, k, i) ==> Listed(rows)[k] == rows[i].lastModified
  {
    if rows != [] {
      var n := |rows| - 1;
      LastRowCounts(rows[..n], k);
      if rows[n].key == k {
        assert IsLastRow(rows, k, n);
      } else {
        forall i ensures IsLastRow(rows, k, i) <==> IsLastRow(rows[..n], k, i) {}
      }
    }
  }

  predicate IsLastRow(rows: seq<ObjectMeta>, k: Pack, i: int) {
    0 <= i < |rows| && rows[i].key == k && forall j :: i < j < |rows| ==> rows[j].key != k
  }

  /** The mark pass: packs of every retained manifest, and separately those of committed ones. */
  method MarkPass(resolved: seq<ResolvedPayload>) returns (marked: set<Pack>, committedRefs: set<Pack>)
    ensures marked == MarkedBy(resolved) && committedRefs == CommittedRefs(resolved)
  {
    marked, committedRefs := {}, {};
    for i := 0 to |resolved|
      invariant marked == MarkedBy(resolved[..i])
      invariant committedRefs == CommittedRefs(resolved[..i])
    {
      assert resolved[..i + 1][..i] == resolved[..i];
      match resolved[i] {
        case CommittedChunked(m) => marked, committedRefs := marked + m.Packs(), committedRefs + m.Packs();
        case OrphanManifest(m) => marked := marked + m.Packs();
        case _ =>
      }
    }
    assert resolved[..|resolved|] == resolved;
  }

  method IndexListing(packMetas: seq<ObjectMeta>) returns (listed: map<Pack, Option<nat>>)
    ensures listed == Listed(packMetas)
  {
    listed := map[];
    for i := 0 to |packMetas|
      invariant listed == Listed(packMetas[..i])
    {
      assert packMetas[..i + 1][..i] == packMetas[..i];
      listed := listed[packMetas[i].key := packMetas[i].lastModified];
    }
    assert packMetas[..|packMetas|] == packMetas;
  }

  /** One pass over the listing, giving each pack at most one action. */
  method ClassifyPacks(marked: set<Pack>, listed: map<Pack, Option<nat>>, coldSince: map<Pack, nat>, storeNow: nat,
                       grace: nat)
    returns (tombstone: set<Pack>, resurrect: set<Pack>, delete: set<Pack>)
    ensures tombstone == Tombstones(marked, listed, coldSince, storeNow, grace)
    ensures resurrect == Resurrected(marked, listed, coldSince, storeNow, grace)
    ensures delete == Deletable(marked, listed, coldSince, storeNow, grace)
  {
    tombstone, resurrect, delete := {}, {}, {};
    var todo := listed.Keys;
    while todo != {}
      invariant todo <= listed.Keys
      invariant forall k :: k in tombstone <==>
                  k in listed && k !in todo && Cold(marked, listed, storeNow, grace, k) && k !in coldSince
      invariant forall k :: k in resurrect <==>
                  k in listed && k !in todo && !Cold(marked, listed, storeNow, grace, k) && k in coldSince
      invariant forall k :: k in delete <==> k in listed && k !in todo && Cold(marked, listed, storeNow, grace, k)
                                             && k in coldSince && storeNow - coldSince[k] > grace
      decreases |todo|
    {
      var key :| key in todo;
      todo := todo - {key};
      if key in marked || Young(listed[key], storeNow, grace) {
        if key in coldSince { resurrect := resurrect + {key}; }
      } else if key !in coldSince {
        tombstone := tombstone + {key};
      } else if storeNow - coldSince[key] > grace {
        delete := delete + {key};
      }
    }
  }

  /** Folds the observations of one cycle into a plan. */
  method DecidePackSweep(resolved: seq<ResolvedPayload>, packMetas: seq<ObjectMeta>, coldSince: map<Pack, nat>,
                         storeNow: nat, grace: nat, maxDeleteFraction: real) returns (plan: Plan)
    ensures plan == Decide(MarkedBy(resolved), CommittedRefs(resolved), Listed(packMetas), coldSince,
                           storeNow, grace, maxDeleteFraction)
  {
    var marked, committedRefs := MarkPass(resolved);
    var listed := IndexListing(packMetas);
    if !(committedRefs <= listed.Keys) {
      return RefuseMissing(committedRefs - listed.Keys);
    }
    var tombstone, resurrect, delete := ClassifyPacks(marked, listed, coldSince, storeNow, grace);
    if MassDelete(|delete|, |listed|, maxDeleteFraction) {
      return RefuseMassDelete;
    }
    plan := SweepActions(marked, tombstone, resurrect, delete);
  }

  /** rows with every key in `keys` given this time. */
  ghost predicate Stamped(stamped: map<Pack, nat>, rows: map<Pack, nat>, keys: set<Pack>, time: nat) {
    && (forall k :: k in stamped <==> k in rows || k in keys)
    && forall k :: k in stamped ==> if k in keys then stamped[k] == time else k in rows && stamped[k] == rows[k]
  }

  method Stamp(rows: map<Pack, nat>, keys: set<Pack>, time: nat) returns (stamped: map<Pack, nat>)
    ensures Stamped(stamped, rows, keys, time)
  {
    stamped := rows;
    var todo := keys;
    while todo != {}
      invariant todo <= keys
      invariant forall k :: k in stamped <==> k in rows || (k in keys && k !in todo)
      invariant forall k :: k in stamped && k in keys && k !in todo ==> stamped[k] == time
      invariant forall k :: k in rows && (k !in keys || k in todo) ==> k in stamped && stamped[k] == rows[k]
      decreases |todo|
    {
      var key :| key in todo;
      todo := todo - {key};
      stamped := stamped[key := time];
    }
  }

  /**
   * The ledger edits of a committed cycle: drop what is resurrected or no longer listed, stamp, drop what is
   * deleted.
   */
  method NewCold(plan: Plan, metas: map<Pack, Option<nat>>, coldSince: map<Pack, nat>, storeNow: nat)
    returns (newCold: map<Pack, nat>)
    requires plan.SweepActions?
    ensures newCold == NewRows(plan, metas, coldSince, storeNow)
  {
    var surviving := map k | k in coldSince && k !in plan.resurrect && k in metas :: coldSince[k];
    newCold := Stamp(surviving, plan.tombstone, storeNow);
    newCold := newCold - plan.delete;
  }

  // --- what a plan is ------------------------------------------------------------------------------------

  /** Listed, unreferenced, and written more than a grace ago. */
  predicate OldAndUnreferenced(marked: set<Pack>, metas: map<Pack, Option<nat>>, now: nat, grace: nat, k: Pack) {
    k in metas && k !in marked && metas[k].Some? && now > metas[k].value + grace
  }

  /** ... with a row that is more than a grace old as well. */
  ghost function Overdue(marked: set<Pack>, metas: map<Pack, Option<nat>>, cold: map<Pack, nat>, now: nat,
                         grace: nat): set<Pack> {
    set k | k in metas && OldAndUnreferenced(marked, metas, now, grace, k) && k in cold && now > cold[k] + grace
  }

  /**
   * Which plan it is: a committed reference that is not listed refuses, and so does a plan that would delete more
   * than the given fraction of ten or more listed packs; nothing else does.
   */
  lemma WhenThePlanRefuses(marked: set<Pack>, refs: set<Pack>, metas: map<Pack, Option<nat>>, cold: map<Pack, nat>,
                           now: nat, grace: nat, f: real)
    ensures var p, overdue := Decide(marked, refs, metas, cold, now, grace, f),
                              |Overdue(marked, metas, cold, now, grace)|;
            && (p.RefuseMissing? <==> exists k :: k in refs && k !in metas)
            && (p.RefuseMissing? ==> forall k :: k in p.missing <==> k in refs && k !in metas)
            && (p.RefuseMassDelete? <==> !p.RefuseMissing? && |metas| >= 10 && overdue as real > f * |metas| as real)
            && (p.SweepActions? && |metas| >= 10 ==> |p.delete| as real <= f * |metas| as real)
  {
    assert Overdue(marked, metas, cold, now, grace) == Deletable(marked, metas, cold, now, grace);
  }

  /**
   * What a plan does to each pack: a listed pack that is old and unreferenced is tombstoned if it has no row, deleted
   * if its row is more than a grace old, and otherwise left aging; a listed pack that is young or referenced loses its
   * row.
   */
  lemma WhatThePlanDoes(marked: set<Pack>, refs: set<Pack>, metas: map<Pack, Option<nat>>, cold: map<Pack, nat>,
                        now: nat, grace: nat, f: real, k: Pack)
    requires Decide(marked, refs, metas, cold, now, grace, f).SweepActions?
    ensures var p, idle := Decide(marked, refs, metas, cold, now, grace, f),
                           OldAndUnreferenced(marked, metas, now, grace, k);
            && (k in p.tombstone <==> idle && k !in cold)
            && (k in p.delete <==> idle && k in cold && now > cold[k] + grace)
            && (k in p.resurrect <==> k in metas && !idle && k in cold)
  {
  }

  /**
   * The ledger a plan leaves: exactly the listed packs that are old and unreferenced and not deleted; those that had a
   * row keep its time.
   */
  lemma WhatTheLedgerHolds(marked: set<Pack>, refs: set<Pack>, metas: map<Pack, Option<nat>>, cold: map<Pack, nat>,
                           now: nat, grace: nat, f: real, k: Pack)
    requires Decide(marked, refs, metas, cold, now, grace, f).SweepActions?
    ensures var p := Decide(marked, refs, metas, cold, now, grace, f);
            var rows := NewRows(p, metas, cold, now);
            && (k in rows <==> OldAndUnreferenced(marked, metas, now, grace, k)
                               && !(k in cold && now > cold[k] + grace))
            && (k in rows ==> rows[k] == if k in cold then cold[k] else now)
  {
  }

  /**
   * A plan deletes only packs that are unreferenced, old, and tombstoned a full grace ago; and it touches each pack
   * once.
   */
  lemma DeletionNeedsTwoCycles(marked: set<Pack>, refs: set<Pack>, metas: map<Pack, Option<nat>>, cold: map<Pack, nat>,
                               now: nat, grace: nat, f: real, k: Pack)
    requires Decide(marked, refs, metas, cold, now, grace, f).SweepActions?
    ensures var p := Decide(marked, refs, metas, cold, now, grace, f);
            && p.tombstone !! p.resurrect !! p.delete
            && refs <= metas.Keys
            && (k in p.delete ==> k in cold && now > cold[k] + grace && k !in marked
                                  && metas[k].Some? && now > metas[k].value + grace)
            && (forall j :: j in NewRows(p, metas, cold, now) ==> Cold(marked, metas, now, grace, j) && j !in p.delete)
            && (cold == map[] ==> p.delete == {})
  {
  }
}

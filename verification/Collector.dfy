/**
 * One garbage collection pass, written as the program runs it, against a bucket in which writers and rival collectors
 * keep acting between any two of its operations. Every operation is an event of the step machine, so a pass is a piece
 * of a run and every theorem about runs applies to it.
 */
module Collector {
  import opened Wrappers
  import opened Lake
  import PackSweep
  import LakeCommit
  import LakeTheorems
  import opened LakeBucket
  import Root

  // --- the parts of a pass -------------------------------------------------------------------------

  datatype GcError =
    | HeadUnverified
    | NoReadableManifest(key: Key)
    | PlanRefused(plan: PackSweep.Plan)
    | FenceLost
    | LeaseLost

  /** This collector's record. */
  function Mine(b: Bucket): Runner
    reads b
    requires b.me.id in b.s.runners
  {
    b.s.runners[b.me.id]
  }

  ghost predicate Ready(b: Bucket)
    reads b
  {
    b.Valid() && b.me.ACollector? && b.me.id in b.s.runners
  }

  /** What a pass fixes once the payloads are listed. */
  datatype Terms = Terms(head: nat, retain: nat, grace: nat, expired: set<Key>)

  function Given(R: Runner): Terms {
    Terms(R.head, R.retain, R.grace, R.expired)
  }

  /** The keys handled so far went where they belong. */
  ghost predicate Sorted(listed: set<Key>, todo: set<Key>, expired: set<Key>, kept: set<Key>, swept: set<Key>) {
    (todo, kept, swept) in Sortings(listed, expired)
  }

  ghost function Sortings(listed: set<Key>, expired: set<Key>): iset<(set<Key>, set<Key>, set<Key>)> {
    iset m: (set<Key>, set<Key>, set<Key>) | SortsOk(listed, m.0, expired, m.1, m.2)
  }

  ghost predicate SortsOk(listed: set<Key>, todo: set<Key>, expired: set<Key>, kept: set<Key>, swept: set<Key>) {
    && todo <= listed && kept <= listed && swept <= expired && kept !! expired && todo !! swept
    && forall k :: k in listed ==> k in todo || (if k in expired then k in swept else k in kept)
  }

  /** The last renewal of the lease was refused, which cannot be on a quiet bucket. */
  ghost predicate Refused(b: Bucket)
    reads b
  {
    !b.quiet && b.renewals != [] && !b.renewals[|b.renewals| - 1]
  }

  /** The lease is renewed after every 50th deletion; a refusal stops the pass. */
  method RenewIfDue(b: Bucket, deleted: nat) returns (lost: bool)
    requires Ready(b)
    modifies b
    ensures b.Along()
    ensures Ready(b) && b.done == old(b.done) && Mine(b) == old(Mine(b)) && (lost ==> Refused(b))
    ensures |b.renewals| == |old(b.renewals)| + (if deleted % 50 == 0 then 1 else 0) && old(b.renewals) <= b.renewals
  {
    if deleted % 50 != 0 { return false; }
    var renewed := b.RenewLease();
    return !renewed;
  }

  method SweepOne(b: Bucket, key: Key, swept: set<Key>, ghost d: Done) returns (swept': set<Key>, lost: bool)
    requires Ready(b) && Mine(b).stage == PayloadsListed && key in Mine(b).expired && key !in swept
    requires b.done == d.(keys := d.keys + swept)
    modifies b
    ensures b.Along()
    ensures Ready(b) && b.done == d.(keys := d.keys + swept') && Mine(b) == old(Mine(b)) && swept' == swept + {key}
    ensures (lost ==> Refused(b)) && |b.renewals| - |old(b.renewals)| == |swept'| / 50 - |swept| / 50
    ensures old(b.renewals) <= b.renewals
  {
    b.Interfere();
    b.Act(Sweep(key));
    swept' := swept + {key};
    assert d.keys + swept + {key} == d.keys + swept';
    lost := RenewIfDue(b, |swept'|);
  }

  /** The payload sweep: everything listed is kept or deleted, by generation against the retention floor. */
  method SweepPayloads(b: Bucket, listed: set<Key>, current: Key, floor: int)
    returns (kept: set<Key>, swept: set<Key>, lost: bool)
    requires Ready(b)
    requires var R := Mine(b);
             && R.stage == PayloadsListed && listed == R.kept + R.expired
             && forall k :: k in listed ==> (k in R.expired <==> k != current && k.gen < floor)
    modifies b
    ensures b.Along()
    ensures Ready(b) && b.done == old(b.done).(keys := old(b.done).keys + swept) && Mine(b) == old(Mine(b))
    ensures swept <= Mine(b).expired && kept !! Mine(b).expired
    ensures !lost ==> forall k :: k in listed ==> if k in Mine(b).expired then k in swept else k in kept
    ensures kept <= listed && (lost ==> Refused(b)) && |b.renewals| == |old(b.renewals)| + |swept| / 50
  {
    kept, swept, lost := {}, {}, false;
    var todo := listed;
    ghost var expired := Mine(b).expired;
    while todo != {} && !lost
      invariant Ready(b) && b.Along() && Mine(b) == old(Mine(b))
      invariant b.done == old(b.done).(keys := old(b.done).keys + swept)
      invariant Sorted(listed, todo, expired, kept, swept)
      invariant (lost ==> Refused(b)) && |b.renewals| == |old(b.renewals)| + |swept| / 50
      decreases |todo|
    {
      var key :| key in todo;
      SortedOn(listed, todo, expired, kept, swept, key);
      todo := todo - {key};
      if key == current || key.gen >= floor {
        kept := kept + {key};
      } else {
        swept, lost := SweepOne(b, key, swept, old(b.done));
      }
    }
    SortedAll(listed, todo, expired, kept, swept);
  }

  lemma SortedOn(listed: set<Key>, todo: set<Key>, expired: set<Key>, kept: set<Key>, swept: set<Key>, key: Key)
    requires Sorted(listed, todo, expired, kept, swept) && key in todo
    ensures key in listed && key !in swept
    ensures if key in expired then Sorted(listed, todo - {key}, expired, kept, swept + {key})
            else Sorted(listed, todo - {key}, expired, kept + {key}, swept)
  {
  }

  lemma SortedAll(listed: set<Key>, todo: set<Key>, expired: set<Key>, kept: set<Key>, swept: set<Key>)
    requires Sorted(listed, todo, expired, kept, swept)
    ensures swept <= expired && kept !! expired && kept <= listed
    ensures todo == {} ==> forall k :: k in listed ==> if k in expired then k in swept else k in kept
  {
  }

  /** What a retained key turned out to be, given the marker read for its generation; None if an orphan vanished. */
  function Classify(s: State, k: Key, doc: Option<Marker>): Option<Result<PackSweep.ResolvedPayload, Key>> {
    if doc.Some? && doc.value.id == k.id then
      if !doc.value.chunked then Some(Ok(PackSweep.CommittedWhole))
      else if k in s.live && k in s.sent && s.sent[k].body.Chunked? then
        Some(Ok(PackSweep.CommittedChunked(s.sent[k].body.manifest)))
      else Some(Err(k))
    else if k !in s.live then None
    else if k in s.sent && s.sent[k].body.Chunked? then Some(Ok(PackSweep.OrphanManifest(s.sent[k].body.manifest)))
    else Some(Ok(PackSweep.OrphanOpaque))
  }

  /** The runner's books after a classification. */
  function Booked(R: Runner, k: Key, x: Option<Result<PackSweep.ResolvedPayload, Key>>): Runner {
    match x
    case None => R.(peek := None, pending := R.pending - {k})
    case Some(Err(_)) => R.(stage := Halted)
    case Some(Ok(p)) =>
      R.(peek := None, pending := R.pending - {k},
         marked := R.marked + PackSweep.MarkedBy([p]), refs := R.refs + PackSweep.CommittedRefs([p]))
  }

  lemma OrphanAgrees(s: State, R: Runner, k: Key, doc: Option<Marker>)
    requires R.peek == Some((k, doc.Some?)) && (k in s.live ==> k in s.sent) && (doc.Some? ==> doc.value.id != k.id)
    requires doc.Some? ==> k.gen in s.markers && s.markers[k.gen] == doc.value
    ensures Resolved(s, R, {}) == Booked(R, k, Classify(s, k, doc))
  {
    var x := Classify(s, k, doc);
    if x.Some? { SingleResolved(x.value.value); }
    assert PacksOf(s, k) == if k in s.sent then s.sent[k].body.Packs() else {};
  }

  lemma CommittedAgrees(s: State, R: Runner, k: Key, doc: Marker)
    requires R.peek == Some((k, true)) && k.gen in s.markers && s.markers[k.gen] == doc && doc.id == k.id
    requires k in s.sent && s.sent[k].body.Chunked? == doc.chunked
    ensures Resolved(s, R, {}) == Booked(R, k, Classify(s, k, Some(doc)))
  {
    var x := Classify(s, k, Some(doc));
    if x.value.Ok? { SingleResolved(x.value.value); }
  }

  /** Reading marker and payload as the program does moves the runner exactly as the machine's step does. */
  lemma ResolveAgrees(s: State, R: Runner, k: Key, doc: Option<Marker>)
    requires R.peek == Some((k, doc.Some?)) && LakeCommit.MarkersProposed(s) && LakeCommit.Wire(s)
    requires doc.Some? ==> k.gen in s.markers && s.markers[k.gen] == doc.value
    ensures Resolved(s, R, {}) == Booked(R, k, Classify(s, k, doc))
  {
    if doc.Some? && doc.value.id == k.id {
      assert KeyOf(s, k.gen) == k;
      CommittedAgrees(s, R, k, doc.value);
    } else {
      OrphanAgrees(s, R, k, doc);
    }
  }

  lemma SingleResolved(p: PackSweep.ResolvedPayload)
    ensures PackSweep.MarkedBy([p]) == if p.CommittedChunked? || p.OrphanManifest? then p.manifest.Packs() else {}
    ensures PackSweep.CommittedRefs([p]) == if p.CommittedChunked? then p.manifest.Packs() else {}
  {
    assert [p][..0] == [];
  }

  lemma OneMoreResolved(ps: seq<PackSweep.ResolvedPayload>, p: PackSweep.ResolvedPayload)
    ensures PackSweep.MarkedBy(ps + [p]) == PackSweep.MarkedBy(ps) + PackSweep.MarkedBy([p])
    ensures PackSweep.CommittedRefs(ps + [p]) == PackSweep.CommittedRefs(ps) + PackSweep.CommittedRefs([p])
  {
    SingleResolved(p);
    assert (ps + [p])[..|ps|] == ps;
  }

  // --- the mark pass -----------------------------------------------------------------------------------

  /** The runner mid-mark: `todo` is unread, and its books match what has been resolved. */
  predicate Marking(R: Runner, todo: set<Key>, resolved: seq<PackSweep.ResolvedPayload>) {
    && R.stage == PacksListed && R.peek.None? && R.pending == todo
    && R.marked == PackSweep.MarkedBy(resolved) && R.refs == PackSweep.CommittedRefs(resolved)
  }

  ghost predicate MarkerIs(s: State, g: nat, doc: Option<Marker>) {
    doc.Some? ==> g in s.markers && s.markers[g] == doc.value
  }

  method ReadMarkerOf(b: Bucket, k: Key) returns (doc: Option<Marker>)
    requires Ready(b) && k in Mine(b).pending
    requires Mine(b).stage == PacksListed && Mine(b).peek.None?
    modifies b
    ensures b.Along()
    ensures Ready(b) && b.done == old(b.done) && MarkerIs(b.s, k.gen, doc)
    ensures Mine(b) == old(Mine(b)).(peek := Some((k, doc.Some?)))
  {
    b.Interfere();
    doc := if k.gen in b.s.markers then Some(b.s.markers[k.gen]) else None;
    ghost var i := |b.states| - 1;
    b.Act(Peek(k));
    LakeTheorems.MarkersStay(b.c, b.states, b.events, i, |b.events|);
  }

  /** A committed chunked generation whose manifest is not there. */
  ghost predicate Unreadable(s: State, k: Key) {
    IsCommitted(s, k) && s.markers[k.gen].chunked && k !in s.live
  }

  lemma RefusalIsUnreadable(s: State, k: Key, doc: Option<Marker>)
    requires MarkerIs(s, k.gen, doc) && LakeCommit.MarkersProposed(s)
    ensures var x := Classify(s, k, doc); x.Some? && x.value.Err? ==> Unreadable(s, k)
  {
    if doc.Some? && doc.value.id == k.id { assert KeyOf(s, k.gen) == k; }
  }

  lemma ResolvesAsMachine(c: Config, ss: seq<State>, es: seq<Event>, R: Runner, k: Key, doc: Option<Marker>)
    requires IsRun(c, ss, es) && R.peek == Some((k, doc.Some?)) && MarkerIs(ss[|es|], k.gen, doc)
    ensures var s, x := ss[|es|], Classify(ss[|es|], k, doc);
            Resolved(s, R, {}) == Booked(R, k, x) && (x.Some? && x.value.Err? ==> Unreadable(s, k))
  {
    LakeTheorems.RunKeepsInv(c, ss, es, |es|);
    ResolveAgrees(ss[|es|], R, k, doc);
    RefusalIsUnreadable(ss[|es|], k, doc);
  }

  method ReadPayload(b: Bucket, k: Key, doc: Option<Marker>) returns (x: Option<Result<PackSweep.ResolvedPayload, Key>>)
    requires Ready(b) && MarkerIs(b.s, k.gen, doc)
    requires Mine(b).stage == PacksListed && Mine(b).peek == Some((k, doc.Some?))
    modifies b
    ensures b.Along()
    ensures Ready(b) && b.done == old(b.done)
    ensures Mine(b) == Booked(old(Mine(b)), k, x)
    ensures x.Some? && x.value.Err? ==> Unreadable(b.s, k)
  {
    ghost var i := |b.states| - 1;
    b.Interfere();
    LakeTheorems.MarkersStay(b.c, b.states, b.events, i, |b.events|);
    ResolvesAsMachine(b.c, b.states, b.events, Mine(b), k, doc);
    x := Classify(b.s, k, doc);
    i := |b.states| - 1;
    b.Act(Resolve({}));
    LakeTheorems.MarkersStay(b.c, b.states, b.events, i, |b.events|);
  }

  /** One kept key: marker first, then the payload; only an absent marker lets the payload be sniffed. */
  method ResolveOne(b: Bucket, k: Key) returns (x: Option<Result<PackSweep.ResolvedPayload, Key>>)
    requires Ready(b) && k in Mine(b).pending
    requires Mine(b).stage == PacksListed && Mine(b).peek.None?
    modifies b
    ensures b.Along()
    ensures Ready(b) && b.done == old(b.done)
    ensures if x.Some? && x.value.Err? then Unreadable(b.s, k)
            else Mine(b) == Booked(old(Mine(b)), k, x)
  {
    var doc := ReadMarkerOf(b, k);
    x := ReadPayload(b, k, doc);
  }

  method ResolvePayloads(b: Bucket, kept: set<Key>) returns (r: Result<seq<PackSweep.ResolvedPayload>, GcError>)
    requires Ready(b) && Marking(Mine(b), kept, [])
    modifies b
    ensures b.Along()
    ensures Ready(b) && b.done == old(b.done)
    ensures r.Ok? ==> Marking(Mine(b), {}, r.value) && Mine(b).metas == old(Mine(b)).metas
                      && Mine(b).doomed == old(Mine(b)).doomed
                      && Given(Mine(b)) == old(Given(Mine(b)))
    ensures r.Err? ==> r.error.NoReadableManifest? && Unreadable(b.s, r.error.key)
  {
    var resolved: seq<PackSweep.ResolvedPayload> := [];
    var todo := kept;
    while todo != {}
      invariant Ready(b) && b.Along() && b.done == old(b.done)
      invariant Marking(Mine(b), todo, resolved)
      invariant Mine(b).metas == old(Mine(b)).metas && Mine(b).doomed == old(Mine(b)).doomed
      invariant Given(Mine(b)) == old(Given(Mine(b)))
      decreases |todo|
    {
      var k :| k in todo;
      var x := ResolveOne(b, k);
      todo := todo - {k};
      if x.Some? {
        if x.value.Err? { return Err(NoReadableManifest(k)); }
        OneMoreResolved(resolved, x.value.value);
        resolved := resolved + [x.value.value];
      }
    }
    return Ok(resolved);
  }

  // --- the pack sweep -------------------------------------------------------------------------------------

  method RowsOf(packs: map<Pack, nat>) returns (rows: seq<PackSweep.ObjectMeta>)
    ensures PackSweep.Listed(rows) == map p | p in packs :: Some(packs[p])
  {
    rows := [];
    var todo := packs.Keys;
    while todo != {}
      invariant todo <= packs.Keys && PackSweep.Listed(rows) == map p | p in packs && p !in todo :: Some(packs[p])
      decreases |todo|
    {
      var p :| p in todo;
      todo := todo - {p};
      assert (rows + [PackSweep.ObjectMeta(p, Some(packs[p]))])[..|rows|] == rows;
      rows := rows + [PackSweep.ObjectMeta(p, Some(packs[p]))];
    }
  }

  method ListPackMetas(b: Bucket) returns (rows: seq<PackSweep.ObjectMeta>)
    requires Ready(b) && Mine(b).stage == PayloadsListed
    modifies b
    ensures b.Along()
    ensures Ready(b) && b.done == old(b.done)
    ensures Mine(b) == old(Mine(b)).(stage := PacksListed, metas := PackSweep.Listed(rows))
  {
    b.Interfere();
    rows := RowsOf(b.s.packs);
    b.Act(ListPacks);
  }

  /** At some moment from state `from` of the run on, the pack was not there. */
  ghost predicate AbsentSince(states: seq<State>, from: int, p: Pack) {
    exists i :: from <= i < |states| && i >= 0 && p !in states[i].packs
  }

  method ReheadOne(b: Bucket, rows: seq<PackSweep.ObjectMeta>, p: Pack) returns (rows': seq<PackSweep.ObjectMeta>)
    requires Ready(b) && MarksDone(Mine(b))
    requires p in Mine(b).refs && p !in Mine(b).metas && Mine(b).metas == PackSweep.Listed(rows)
    modifies b
    ensures b.Along()
    ensures Ready(b) && b.done == old(b.done)
    ensures Mine(b) == old(Mine(b)).(metas := PackSweep.Listed(rows'))
    ensures PackSweep.Listed(rows').Keys - {p} == PackSweep.Listed(rows).Keys
    ensures p !in PackSweep.Listed(rows') ==> AbsentSince(b.states, |old(b.states)| - 1, p)
  {
    b.Interfere();
    rows' := rows;
    if p in b.s.packs {
      rows' := rows + [PackSweep.ObjectMeta(p, Some(b.s.packs[p]))];
      assert rows'[..|rows|] == rows;
      b.Act(Rehead(p));
    }
  }

  /** References not among the rows, and no longer to be looked up, were absent at some moment. */
  ghost predicate MissingForReal(states: seq<State>, from: int, refs: set<Pack>, todo: set<Pack>,
                                 rows: seq<PackSweep.ObjectMeta>)
  {
    forall p :: p in refs && p !in todo && p !in PackSweep.Listed(rows) ==> AbsentSince(states, from, p)
  }

  lemma OneMoreRehead(states: seq<State>, later: seq<State>, from: int, refs: set<Pack>, todo: set<Pack>,
                      rows: seq<PackSweep.ObjectMeta>, rows': seq<PackSweep.ObjectMeta>, p: Pack)
    requires MissingForReal(states, from, refs, todo, rows) && states <= later && from < |states|
    requires PackSweep.Listed(rows').Keys - {p} == PackSweep.Listed(rows).Keys
    requires p !in PackSweep.Listed(rows') ==> AbsentSince(later, |states| - 1, p)
    ensures MissingForReal(later, from, refs, todo - {p}, rows')
  {
    forall q | q in refs && q !in todo - {p} && q !in PackSweep.Listed(rows') ensures AbsentSince(later, from, q) {
      if q == p {
        var i :| |states| - 1 <= i < |later| && i >= 0 && q !in later[i].packs;
        assert from <= i;
      } else {
        assert q in PackSweep.Listed(rows) ==> q in PackSweep.Listed(rows').Keys - {p};
        var i :| from <= i < |states| && i >= 0 && q !in states[i].packs;
        assert q !in later[i].packs;
      }
    }
  }

  /** Committed references missing from the listing get a second look before anything is decided. */
  method ReheadMissing(b: Bucket, rows: seq<PackSweep.ObjectMeta>, refs: set<Pack>)
    returns (rows': seq<PackSweep.ObjectMeta>)
    requires Ready(b) && MarksDone(Mine(b))
    requires refs == Mine(b).refs && Mine(b).metas == PackSweep.Listed(rows)
    modifies b
    ensures b.Along()
    ensures Ready(b) && b.done == old(b.done)
    ensures Mine(b) == old(Mine(b)).(metas := PackSweep.Listed(rows'))
    ensures MissingForReal(b.states, |old(b.states)| - 1, refs, {}, rows')
  {
    rows' := rows;
    var todo := refs - PackSweep.Listed(rows).Keys;
    while todo != {}
      invariant Ready(b) && b.Along() && b.done == old(b.done)
      invariant Mine(b) == old(Mine(b)).(metas := PackSweep.Listed(rows'))
      invariant todo <= refs && todo !! PackSweep.Listed(rows').Keys
      invariant MissingForReal(b.states, |old(b.states)| - 1, refs, todo, rows')
      decreases |todo|
    {
      var p :| p in todo;
      ghost var before, had := b.states, rows';
      rows' := ReheadOne(b, rows', p);
      OneMoreRehead(before, b.states, |old(b.states)| - 1, refs, todo, had, rows', p);
      todo := todo - {p};
    }
  }

  /** What state i of the run held in the ledger, rows and fencing reference alike. */
  ghost predicate LedgerAt(states: seq<State>, i: nat, ref: LedgerRef, coldSince: map<Pack, nat>) {
    i < |states| && ref == LedgerRefOf(states[i].ledger) && coldSince == LedgerRows(states[i].ledger)
  }

  ghost predicate ClockAt(states: seq<State>, i: nat, now: nat) {
    i < |states| && now == states[i].clock
  }

  /** The ledger and then the store's clock, each as of a moment since state `from`. */
  ghost predicate LoadedSince(states: seq<State>, from: int, ref: LedgerRef, coldSince: map<Pack, nat>, now: nat) {
    exists i: nat, j: nat :: from <= i <= j && LedgerAt(states, i, ref, coldSince) && ClockAt(states, j, now)
  }

  method LoadTombstones(b: Bucket) returns (coldSince: map<Pack, nat>, ref: LedgerRef, now: nat)
    requires Ready(b) && MarksDone(Mine(b))
    modifies b
    ensures b.Along()
    ensures Ready(b) && b.done == old(b.done)
    ensures Mine(b)
            == old(Mine(b)).(stage := Clocked, cold := coldSince, ref := ref, now := now)
    ensures LoadedSince(b.states, |old(b.states)| - 1, ref, coldSince, now)
    ensures !ref.RefAt? ==> coldSince == map[]
    ensures b.quiet ==> FenceHolds(b.s, ref)
  {
    ghost var i, j;
    coldSince, ref, i := ReadRows(b);
    now, j := ReadNow(b);
    assert LedgerAt(b.states, i, ref, coldSince) && ClockAt(b.states, j, now);
  }

  method ReadRows(b: Bucket) returns (coldSince: map<Pack, nat>, ref: LedgerRef, ghost i: nat)
    requires Ready(b) && MarksDone(Mine(b))
    modifies b
    ensures b.Along()
    ensures Ready(b) && b.done == old(b.done) && |old(b.states)| - 1 <= i < |b.states| - 1
    ensures Mine(b) == old(Mine(b)).(stage := LedgerRead, cold := coldSince, ref := ref)
    ensures LedgerAt(b.states, i, ref, coldSince) && FenceHolds(b.s, ref) && (!ref.RefAt? ==> coldSince == map[])
  {
    b.Interfere();
    coldSince, ref := LedgerRows(b.s.ledger), LedgerRefOf(b.s.ledger);
    i := |b.states| - 1;
    ReadLeavesLedger(b.c, b.s, b.me.id, ReadLedger);
    b.Act(ReadLedger);
  }

  method ReadNow(b: Bucket) returns (now: nat, ghost j: nat)
    requires Ready(b) && Mine(b).stage == LedgerRead
    modifies b
    ensures b.Along()
    ensures Ready(b) && b.done == old(b.done) && j >= |old(b.states)| - 1 && ClockAt(b.states, j, now)
    ensures Mine(b) == old(Mine(b)).(stage := Clocked, now := now) && (b.quiet ==> b.s.ledger == old(b.s).ledger)
  {
    b.Interfere();
    now := b.s.clock;
    j := |b.states| - 1;
    ReadLeavesLedger(b.c, b.s, b.me.id, ReadClock);
    b.Act(ReadClock);
  }

  lemma ReadLeavesLedger(c: Config, s: State, r: nat, v: GcEvent)
    requires GcEnabled(c, s, r, v) && (v.ReadLedger? || v.ReadClock?)
    ensures DoRunner(c, s, r, v).ledger == s.ledger
  {
  }

  /** The commit point: the ledger is written only if nobody wrote it since it was read. */
  method CommitTombstones(b: Bucket, newCold: map<Pack, nat>) returns (ok: bool)
    requires Ready(b) && Mine(b).stage == Clocked && PlanOf(Mine(b)).SweepActions?
    requires var R := Mine(b); newCold == PackSweep.NewRows(PlanOf(R), R.metas, R.cold, R.now)
    modifies b
    ensures b.Along()
    ensures ok ==> LedgerRows(b.s.ledger) == newCold
    ensures Ready(b) && b.done == old(b.done) && b.renewals == old(b.renewals)
    ensures !ok ==> !FenceHolds(b.s, Mine(b).ref)
    ensures b.quiet && FenceHolds(old(b.s), old(Mine(b)).ref) ==> ok
    ensures var R := old(Mine(b));
            Mine(b) == if ok then R.(stage := Committed, cycle := Mine(b).cycle, todo := PlanOf(R).delete) else R
  {
    b.Interfere();
    if !FenceHolds(b.s, Mine(b).ref) { return false; }
    LedgerAfterCommit(b.c, b.s, b.me.id);
    b.Act(CommitLedger);
    return true;
  }

  lemma LedgerAfterCommit(c: Config, s: State, r: nat)
    requires GcEnabled(c, s, r, CommitLedger)
    ensures var R := s.runners[r];
            LedgerRows(DoRunner(c, s, r, CommitLedger).ledger) == PackSweep.NewRows(PlanOf(R), R.metas, R.cold, R.now)
  {
  }

  /**
   * The pass got to its end: every pack its plan condemned was looked at again, and those still there and old were
   * deleted; or there was nothing at all.
   */
  ghost predicate Complete(states: seq<State>, from: int, R: Runner, swept: set<Pack>) {
    if R.stage == PacksListed then R.pending == {} && R.metas == map[] && R.refs == {} && swept == {}
    else
      && R.stage == Rechecked && R.todo == {} && R.doomed.None? && PlanOf(R).SweepActions?
      && LooksOf(states, from, PlanOf(R).delete, swept, R)
  }

  /** What each error says about the bucket; losing the lease or the fence takes someone else. */
  ghost predicate ErrorJustified(b: Bucket, e: GcError)
    reads b
  {
    b.me.id in b.s.runners &&
    var R := b.s.runners[b.me.id];
    match e
    case HeadUnverified => R.head in b.s.markers && KeyOf(b.s, R.head) !in b.s.live
    case NoReadableManifest(k) => Unreadable(b.s, k)
    case PlanRefused(plan) => plan == PlanOf(R) && !plan.SweepActions?
    case FenceLost => !b.quiet && !FenceHolds(b.s, R.ref)
    case LeaseLost => Refused(b)
  }

  /** The second look at p, at state i: it is deleted exactly if it is there and still older than the grace. */
  ghost predicate LookedAt(states: seq<State>, i: nat, p: Pack, recheck: nat, grace: nat, gone: bool) {
    i < |states| && (gone <==> p in states[i].packs && recheck - states[i].packs[p] > grace)
  }

  ghost predicate LookedAtSince(states: seq<State>, from: int, p: Pack, recheck: nat, grace: nat, gone: bool) {
    exists i: nat :: from <= i && LookedAt(states, i, p, recheck, grace, gone)
  }

  /** Every pack in `looked` got its second look, and `swept` are those found still old. */
  ghost predicate Looks(states: seq<State>, from: int, looked: set<Pack>, swept: set<Pack>, recheck: nat, grace: nat) {
    swept <= looked && forall p :: p in looked ==> LookedAtSince(states, from, p, recheck, grace, p in swept)
  }

  lemma OneMoreLook(states: seq<State>, later: seq<State>, from: int, looked: set<Pack>, swept: set<Pack>, recheck: nat,
                    grace: nat, p: Pack, gone: bool)
    requires Looks(states, from, looked, swept, recheck, grace) && states <= later && p !in looked
    requires LookedAtSince(later, from, p, recheck, grace, gone)
    ensures Looks(later, from, looked + {p}, if gone then swept + {p} else swept, recheck, grace)
  {
    forall q | q in looked ensures LookedAtSince(later, from, q, recheck, grace, q in swept) {
      var i: nat :| from <= i && LookedAt(states, i, q, recheck, grace, q in swept);
      assert LookedAt(later, i, q, recheck, grace, q in swept);
    }
  }

  /** The runner between two candidates of the delete loop that began with R. */
  ghost predicate BetweenDeletes(R: Runner, now: Runner, todo: set<Pack>) {
    now == R.(todo := todo) && R.stage == Rechecked && R.doomed.None?
  }

  /** Delete what is still old on a second look, by one more reading of the clock; stop when the lease is gone. */
  method DeleteColdPacks(b: Bucket, candidates: set<Pack>, ghost from: int)
    returns (swept: set<Pack>, lost: bool, ghost looked: set<Pack>)
    requires Ready(b) && Mine(b).stage == Committed && from < |b.states|
    requires Mine(b).todo == candidates && Mine(b).doomed.None?
    modifies b
    ensures b.Along()
    ensures Ready(b) && swept <= candidates && b.done == old(b.done).(packs := old(b.done).packs + swept)
    ensures Mine(b) == old(Mine(b)).(stage := Rechecked, recheck := Mine(b).recheck, todo := Mine(b).todo)
    ensures if lost then Refused(b) else Mine(b).todo == {}
    ensures LooksOf(b.states, from, looked, swept, Mine(b))
    ensures if lost then looked <= candidates else looked == candidates
    ensures |b.renewals| == |old(b.renewals)| + |swept| / 50 && old(b.renewals) <= b.renewals
  {
    ghost var n := |b.states| - 1;
    Recheck(b);
    ClockEarlier(b.states, n, from, Mine(b).recheck);
    ghost var R, states, left := Mine(b), b.states, candidates;
    swept, lost, looked, left := DeleteOldOnes(b, candidates, from);
    LooksDone(states, b.states, from, R, Mine(b), candidates, left, looked, swept);
  }

  lemma ClockEarlier(states: seq<State>, from: int, earlier: int, now: nat)
    requires ClockSince(states, from, now) && earlier <= from
    ensures ClockSince(states, earlier, now)
  {
    var i: nat :| from <= i && ClockAt(states, i, now);
  }

  method DeleteOldOnes(b: Bucket, candidates: set<Pack>, ghost from: int)
    returns (swept: set<Pack>, lost: bool, ghost looked: set<Pack>, ghost left: set<Pack>)
    requires Ready(b) && from < |b.states|
    requires BetweenDeletes(Mine(b), Mine(b), candidates)
    modifies b
    ensures b.Along()
    ensures Ready(b) && b.done == old(b.done).(packs := old(b.done).packs + swept)
    ensures Midway(b.states, from, old(Mine(b)), Mine(b), candidates, left, looked, swept)
    ensures if lost then Refused(b) else left == {}
    ensures |b.renewals| == |old(b.renewals)| + |swept| / 50 && old(b.renewals) <= b.renewals
  {
    swept, looked, lost := {}, {}, false;
    ghost var R := Mine(b);
    var todo := candidates;
    while todo != {} && !lost
      invariant Ready(b) && b.Along()
      invariant b.done == old(b.done).(packs := old(b.done).packs + swept)
      invariant Midway(b.states, from, R, Mine(b), candidates, todo, looked, swept) && (lost ==> Refused(b))
      invariant |b.renewals| == |old(b.renewals)| + |swept| / 50 && old(b.renewals) <= b.renewals
      decreases |todo|
    {
      var p :| p in todo;
      swept, lost := DeleteNext(b, p, from, R, candidates, todo, looked, swept, old(b.done));
      todo, looked := todo - {p}, looked + {p};
    }
    left := todo;
  }

  lemma LooksDone(states: seq<State>, later: seq<State>, from: int, R: Runner, now: Runner, candidates: set<Pack>,
                  todo: set<Pack>, looked: set<Pack>, swept: set<Pack>)
    requires ClockSince(states, from, R.recheck) && states <= later
    requires Midway(later, from, R, now, candidates, todo, looked, swept)
    ensures swept <= looked <= candidates && (todo == {} ==> looked == candidates) && now == R.(todo := todo)
    ensures LooksOf(later, from, looked, swept, now)
  {
    ClockStays(states, later, from, R.recheck);
  }

  /** Some candidates have had their look, the others wait for it. */
  ghost predicate Midway(states: seq<State>, from: int, R: Runner, now: Runner, candidates: set<Pack>, todo: set<Pack>,
                         looked: set<Pack>, swept: set<Pack>)
  {
    (now, todo, looked, swept) in Midways(states, from, R, candidates)
  }

  ghost function Midways(states: seq<State>, from: int, R: Runner,
                         candidates: set<Pack>): iset<(Runner, set<Pack>, set<Pack>, set<Pack>)>
  {
    iset m: (Runner, set<Pack>, set<Pack>, set<Pack>) |
      && BetweenDeletes(R, m.0, m.1) && Divided(candidates, m.1, m.2)
      && Looks(states, from, m.2, m.3, R.recheck, R.grace)
  }

  lemma MidwayStays(states: seq<State>, later: seq<State>, from: int, R: Runner, now: Runner, candidates: set<Pack>,
                    todo: set<Pack>, looked: set<Pack>, swept: set<Pack>)
    requires Midway(states, from, R, now, candidates, todo, looked, swept) && states <= later
    ensures Midway(later, from, R, now, candidates, todo, looked, swept)
  {
    forall q | q in looked ensures LookedAtSince(later, from, q, R.recheck, R.grace, q in swept) {
      var i: nat :| from <= i && LookedAt(states, i, q, R.recheck, R.grace, q in swept);
      assert LookedAt(later, i, q, R.recheck, R.grace, q in swept);
    }
  }

  method DeleteNext(b: Bucket, p: Pack, ghost from: int, ghost R: Runner, ghost candidates: set<Pack>,
                    ghost todo: set<Pack>, ghost looked: set<Pack>, swept: set<Pack>, ghost d: Done)
    returns (swept': set<Pack>, lost: bool)
    requires Ready(b) && from < |b.states| && p in todo && b.done == d.(packs := d.packs + swept)
    requires Midway(b.states, from, R, Mine(b), candidates, todo, looked, swept)
    modifies b
    ensures b.Along()
    ensures Ready(b) && b.done == d.(packs := d.packs + swept')
    ensures Midway(b.states, from, R, Mine(b), candidates, todo - {p}, looked + {p}, swept')
    ensures (lost ==> Refused(b)) && |b.renewals| - |old(b.renewals)| == |swept'| / 50 - |swept| / 50
    ensures old(b.renewals) <= b.renewals
  {
    ghost var before, now := b.states, Mine(b);
    var gone := DeleteOne(b, p);
    OneMoreMidway(before, b.states, from, R, now, Mine(b), candidates, todo, looked, swept, p, gone);
    swept', lost := swept, false;
    if gone {
      swept' := swept + {p};
      assert d.packs + swept + {p} == d.packs + swept';
      before := b.states;
      lost := RenewIfDue(b, |swept'|);
      MidwayStays(before, b.states, from, R, Mine(b), candidates, todo - {p}, looked + {p}, swept');
    }
  }

  lemma OneMoreMidway(states: seq<State>, later: seq<State>, from: int, R: Runner, before: Runner, now: Runner,
                      candidates: set<Pack>, todo: set<Pack>, looked: set<Pack>, swept: set<Pack>, p: Pack, gone: bool)
    requires Midway(states, from, R, before, candidates, todo, looked, swept) && states <= later && p in todo
    requires now == before.(todo := todo - {p}) && LookedAtSince(later, from, p, R.recheck, R.grace, gone)
    ensures p !in swept
    ensures Midway(later, from, R, now, candidates, todo - {p}, looked + {p}, if gone then swept + {p} else swept)
  {
    OneMoreLook(states, later, from, looked, swept, R.recheck, R.grace, p, gone);
  }

  ghost predicate Divided(all: set<Pack>, todo: set<Pack>, looked: set<Pack>) {
    todo !! looked && forall p :: p in all <==> p in todo || p in looked
  }

  /** The looks of a delete loop, all against one reading of the clock taken since state `from`. */
  ghost predicate LooksOf(states: seq<State>, from: int, looked: set<Pack>, swept: set<Pack>, R: Runner) {
    Looks(states, from, looked, swept, R.recheck, R.grace) && ClockSince(states, from, R.recheck)
  }

  ghost predicate ClockSince(states: seq<State>, from: int, now: nat) {
    exists i: nat :: from <= i && ClockAt(states, i, now)
  }

  lemma ClockStays(states: seq<State>, later: seq<State>, from: int, now: nat)
    requires ClockSince(states, from, now) && states <= later
    ensures ClockSince(later, from, now)
  {
    var i: nat :| from <= i && ClockAt(states, i, now);
    assert ClockAt(later, i, now);
  }

  method Recheck(b: Bucket)
    requires Ready(b) && Mine(b).stage == Committed
    modifies b
    ensures b.Along()
    ensures Ready(b) && b.done == old(b.done) && b.renewals == old(b.renewals)
    ensures Mine(b) == old(Mine(b)).(stage := Rechecked, recheck := Mine(b).recheck)
    ensures ClockSince(b.states, |old(b.states)| - 1, Mine(b).recheck)
  {
    b.Interfere();
    ghost var i := |b.states| - 1;
    ghost var now := b.s.clock;
    b.Act(GcEvent.Recheck);
    assert ClockAt(b.states, i, now);
  }

  method DeleteOne(b: Bucket, p: Pack) returns (gone: bool)
    requires Ready(b) && Mine(b).stage == Rechecked
    requires p in Mine(b).todo && Mine(b).doomed.None?
    modifies b
    ensures b.Along()
    ensures Ready(b) && b.renewals == old(b.renewals)
    ensures Mine(b) == old(Mine(b)).(todo := old(Mine(b)).todo - {p})
    ensures b.done == if gone then old(b.done).(packs := old(b.done).packs + {p}) else old(b.done)
    ensures var R := old(Mine(b));
            forall from: int :: from < |old(b.states)| ==> LookedAtSince(b.states, from, p, R.recheck, R.grace, gone)
  {
    ghost var R := Mine(b);
    ghost var i;
    gone, i := SecondLook(b, p);
    if gone { DeleteIt(b); }
    assert LookedAt(b.states, i, p, R.recheck, R.grace, gone);
  }

  /** The re-HEAD. */
  method SecondLook(b: Bucket, p: Pack) returns (aged: bool, ghost i: nat)
    requires Ready(b) && Mine(b).stage == Rechecked
    requires p in Mine(b).todo && Mine(b).doomed.None?
    modifies b
    ensures b.Along()
    ensures Ready(b) && b.renewals == old(b.renewals) && b.done == old(b.done) && i >= |old(b.states)| - 1
    ensures Mine(b) == old(Mine(b)).(todo := old(Mine(b)).todo - {p}, doomed := if aged then Some(p) else None)
    ensures LookedAt(b.states, i, p, Mine(b).recheck, Mine(b).grace, aged)
  {
    b.Interfere();
    i := |b.states| - 1;
    b.Act(HeadPack(p));
    aged := Mine(b).doomed.Some?;
  }

  method DeleteIt(b: Bucket)
    requires Ready(b) && Mine(b).stage == Rechecked && Mine(b).doomed.Some?
    modifies b
    ensures b.Along()
    ensures Ready(b) && b.renewals == old(b.renewals) && Mine(b) == old(Mine(b)).(doomed := None)
    ensures b.done == old(b.done).(packs := old(b.done).packs + {old(Mine(b)).doomed.value})
  {
    b.Interfere();
    b.Act(Delete);
  }

  // --- the whole pass ---------------------------------------------------------------------------------------

  /**
   * Resolve, decide, commit the ledger, and only then delete. Any error before the ledger is written deletes
   * nothing.
   */
  method SweepPacks(b: Bucket, kept: set<Key>, ghost from: int) returns (r: Result<set<Pack>, GcError>)
    requires Ready(b) && Mine(b).stage == PayloadsListed && Unmarked(Mine(b))
    requires kept == Mine(b).pending && from < |b.states|
    modifies b
    ensures b.Along()
    ensures b.Valid() && (r.Err? ==> ErrorJustified(b, r.error))
    ensures r.Ok? ==> b.me.id in b.s.runners && Complete(b.states, from, Mine(b), r.value)
                      && Given(Mine(b)) == old(Given(Mine(b)))
    ensures r.Err? && !r.error.LeaseLost? ==> b.done == old(b.done)
    ensures r.Ok? ==> b.done == old(b.done).(packs := old(b.done).packs + r.value)
  {
    var rows := ListPackMetas(b);
    var resolved := ResolvePayloads(b, kept);
    if resolved.Err? { return Err(resolved.error); }
    var refs := Mine(b).refs;
    if rows == [] && refs == {} { return Ok({}); }
    rows := ReheadMissing(b, rows, refs);
    var coldSince, ref, now := LoadTombstones(b);
    r := DecideAndDelete(b, resolved.value, rows, coldSince, now, from);
  }

  /** A freshly listed runner: nothing marked, nothing condemned. */
  predicate Unmarked(R: Runner) {
    R.peek.None? && R.marked == {} && R.refs == {} && R.doomed.None?
  }

  /** The first renewal after n was answered with yes. */
  ghost predicate RenewedFirst(b: Bucket, n: nat)
    reads b
  {
    n < |b.renewals| && b.renewals[n]
  }

  /** The lease is proved before the ledger is written, and the ledger is written before anything is deleted. */
  method DecideAndDelete(b: Bucket, resolved: seq<PackSweep.ResolvedPayload>, rows: seq<PackSweep.ObjectMeta>,
                         coldSince: map<Pack, nat>, now: nat, ghost from: int)
    returns (r: Result<set<Pack>, GcError>)
    requires Ready(b) && from < |b.states|
    requires var R := Mine(b);
             && R.stage == Clocked && R.doomed.None? && R.metas == PackSweep.Listed(rows) && R.cold == coldSince
                 && R.now == now
             && R.marked == PackSweep.MarkedBy(resolved) && R.refs == PackSweep.CommittedRefs(resolved)
             && (b.quiet ==> FenceHolds(b.s, R.ref))
    modifies b
    ensures b.Along()
    ensures b.Valid() && (r.Err? ==> ErrorJustified(b, r.error))
    ensures r.Ok? ==> b.me.id in b.s.runners && Complete(b.states, from, Mine(b), r.value)
                      && Given(Mine(b)) == old(Given(Mine(b)))
    ensures r.Err? && !r.error.LeaseLost? ==> b.done == old(b.done)
    ensures r.Ok? ==> b.done == old(b.done).(packs := old(b.done).packs + r.value)
    ensures r.Ok? || (r.Err? && r.error.FenceLost?) ==> RenewedFirst(b, |old(b.renewals)|)
    ensures r.Ok? ==> |b.renewals| == |old(b.renewals)| + 1 + |r.value| / 50
  {
    var plan := PackSweep.DecidePackSweep(resolved, rows, coldSince, now, Mine(b).grace,
                                          PackSweep.DEFAULT_MAX_DELETE_FRACTION);
    assert plan == PlanOf(Mine(b));
    if !plan.SweepActions? { return Err(PlanRefused(plan)); }
    var renewed := b.RenewLease();
    if !renewed { return Err(LeaseLost); }
    var newCold := PackSweep.NewCold(plan, PackSweep.Listed(rows), coldSince, now);
    var ok := CommitTombstones(b, newCold);
    if !ok { return Err(FenceLost); }
    ghost var R, looked := Mine(b), plan.delete;
    var swept, lost;
    swept, lost, looked := DeleteColdPacks(b, plan.delete, from);
    PlanStays(R, Mine(b));
    return if lost then Err(LeaseLost) else Ok(swept);
  }

  lemma PlanStays(R: Runner, now: Runner)
    requires now == R.(stage := now.stage, recheck := now.recheck, todo := now.todo)
    ensures PlanOf(now) == PlanOf(R)
  {
  }

  /** Every payload of the retention window is present. */
  ghost predicate WindowPresent(c: Config, s: State) {
    forall g: nat :: g < Top(s) && g + c.retain >= Top(s) ==> g in s.markers && KeyOf(s, g) in s.live
  }

  lemma RunKeepsWindow(c: Config, ss: seq<State>, es: seq<Event>)
    requires IsRun(c, ss, es)
    ensures WindowPresent(c, ss[|es|])
  {
    forall g: nat | g < Top(ss[|es|]) && g + c.retain >= Top(ss[|es|])
      ensures g in ss[|es|].markers && KeyOf(ss[|es|], g) in ss[|es|].live
    {
      LakeTheorems.WindowIsRetained(c, ss, es, |es|, g);
    }
  }

  /** What the pass took for expired: by one listing, all payloads below the floor, except that of the head. */
  ghost predicate ExpiredBy(states: seq<State>, from: int, given: Terms) {
    exists i: nat :: from <= i && ExpiredAt(states, i, given)
  }

  ghost predicate ExpiredAt(states: seq<State>, i: nat, given: Terms) {
    i < |states| && given.head in states[i].markers && forall k :: k in given.expired <==>
      k in states[i].live && k != KeyOf(states[i], given.head) && k.gen + given.retain <= given.head
  }

  /** The pass was about a head found during the call, the retention asked for, and what had expired by then. */
  ghost predicate Aimed(b: Bucket, from: int, retain: nat, grace: nat)
    requires b.me.id in b.s.runners
    reads b
  {
    var given := Given(Mine(b));
    && given.retain == retain && given.grace == grace && Root.HeadSince(b.states, b.hints, from, given.head)
    && ExpiredBy(b.states, from, given)
  }

  /**
   * One pass from head resolution to the last delete. Success means that every payload expired by the head found was
   * deleted, and every pack condemned got its second look. Undisturbed, only an unreadable head or manifest, or the
   * plan itself, can stop it.
   */
  method Collect(b: Bucket, retain: nat, grace: nat) returns (r: Result<set<Pack>, GcError>)
    requires b.Valid() && b.me.ACollector? && b.me.id !in b.s.runners && b.s.markers.Keys != {} && retain >= b.c.retain
              && grace >= b.c.grace
    modifies b
    ensures b.Along()
    ensures b.Valid() && WindowPresent(b.c, b.s)
    ensures r.Err? && !r.error.LeaseLost? ==> b.done.packs == old(b.done).packs
    ensures r.Err? ==> ErrorJustified(b, r.error)
    ensures r.Ok? ==> b.me.id in b.s.runners && Complete(b.states, |old(b.states)| - 1, Mine(b), r.value)
    ensures r.Ok? ==> Mine(b).expired <= b.done.keys
    ensures r.Ok? ==> b.done.packs == old(b.done).packs + r.value && Aimed(b, |old(b.states)| - 1, retain, grace)
  {
    ghost var from := |b.states| - 1;
    Root.DenseNow(b.c, b.states, b.events, |b.events|, 0);
    var head, exact := Root.ResolveHead(b);
    r := CollectLocked(b, retain, grace, head.value.generation, from);
    RunKeepsWindow(b.c, b.states, b.events);
  }

  method CollectLocked(b: Bucket, retain: nat, grace: nat, head: nat, ghost from: nat)
    returns (r: Result<set<Pack>, GcError>)
    requires b.Valid() && b.me.ACollector? && b.me.id !in b.s.runners && head in b.s.markers && retain >= b.c.retain
              && grace >= b.c.grace
    requires from < |b.states| && Root.HeadSince(b.states, b.hints, from, head)
    modifies b
    ensures b.Along()
    ensures b.Valid()
    ensures r.Err? && !r.error.LeaseLost? ==> b.done.packs == old(b.done).packs
    ensures r.Err? ==> ErrorJustified(b, r.error)
    ensures r.Ok? ==> b.me.id in b.s.runners && Complete(b.states, from, Mine(b), r.value)
    ensures r.Ok? ==> Mine(b).expired <= b.done.keys
    ensures r.Ok? ==> b.done.packs == old(b.done).packs + r.value && Aimed(b, from, retain, grace)
  {
    ghost var states, hints := b.states, b.hints;
    var listed := BeginPass(b, retain, grace, head, from);
    if listed.None? { return Err(HeadUnverified); }
    ghost var listing := b.states;
    r := SweepListed(b, listed.value, KeyOf(b.s, head), head - retain + 1, from);
    if r.Ok? {
      Root.HeadStays(states, b.states, hints, b.hints, from, from, head);
      ExpiryStays(listing, b.states, from, Given(Mine(b)));
    }
  }

  /** Up to the payload listing; the hint is advanced before anything is deleted. */
  method BeginPass(b: Bucket, retain: nat, grace: nat, head: nat, ghost from: nat) returns (listed: Option<set<Key>>)
    requires b.Valid() && b.me.ACollector? && b.me.id !in b.s.runners && head in b.s.markers && retain >= b.c.retain
              && grace >= b.c.grace && from < |b.states|
    modifies b
    ensures b.Along()
    ensures Ready(b) && b.done == old(b.done)
    ensures listed.None? ==> ErrorJustified(b, HeadUnverified)
    ensures listed.Some? ==>
              && Mine(b).head == head && head in b.s.markers && Mine(b).retain == retain && Mine(b).grace == grace
              && Mine(b).stage == PayloadsListed && Unmarked(Mine(b))
              && SplitAt(Mine(b), listed.value, KeyOf(b.s, head))
              && ExpiredBy(b.states, from, Given(Mine(b))) && (b.quiet ==> b.hint == Some(head))
  {
    ghost var n := |b.states| - 1;
    b.Act(GcBegin(retain, grace, head));
    LakeTheorems.MarkersStay(b.c, b.states, b.events, n, |b.events|);
    listed := ListPayloads(b, from);
    if listed.Some? {
      Root.DenseNow(b.c, b.states, b.events, |b.events|, head);
      b.WriteHint(head);
    }
  }

  lemma ExpiryStays(states: seq<State>, later: seq<State>, from: int, given: Terms)
    requires ExpiredBy(states, from, given) && states <= later
    ensures ExpiredBy(later, from, given)
  {
    var i: nat :| from <= i && ExpiredAt(states, i, given);
    assert ExpiredAt(later, i, given);
  }

  /** Payloads first, then packs. */
  method SweepListed(b: Bucket, listed: set<Key>, current: Key, floor: int, ghost from: int)
    returns (r: Result<set<Pack>, GcError>)
    requires Ready(b) && Mine(b).stage == PayloadsListed && Unmarked(Mine(b)) && SplitAt(Mine(b), listed, current)
    requires floor == Mine(b).head - Mine(b).retain + 1 && from < |b.states|
    modifies b
    ensures b.Along()
    ensures b.Valid()
    ensures r.Err? && !r.error.LeaseLost? ==> b.done.packs == old(b.done).packs
    ensures r.Err? ==> ErrorJustified(b, r.error)
    ensures r.Ok? ==> b.me.id in b.s.runners && Complete(b.states, from, Mine(b), r.value)
    ensures r.Ok? ==> Mine(b).expired <= b.done.keys
    ensures r.Ok? ==> b.done.packs == old(b.done).packs + r.value && Given(Mine(b)) == old(Given(Mine(b)))
  {
    var kept, swept, lost := SweepPayloads(b, listed, current, floor);
    if lost { return Err(LeaseLost); }
    KeptIsPending(Mine(b), listed, kept, current);
    r := SweepPacks(b, kept, from);
  }

  /** The payload listing; a head whose payload is not in it stops the pass. */
  method ListPayloads(b: Bucket, ghost from: int) returns (listed: Option<set<Key>>)
    requires Ready(b) && Mine(b).stage == HeadKnown && Mine(b).head in b.s.markers
    requires Unmarked(Mine(b)) && from < |b.states|
    modifies b
    ensures b.Along()
    ensures Ready(b) && b.done == old(b.done)
    ensures listed.None? ==> ErrorJustified(b, HeadUnverified)
    ensures listed.Some? ==>
              && Mine(b).head == old(Mine(b)).head && Mine(b).head in b.s.markers
              && Mine(b).retain == old(Mine(b)).retain && Mine(b).grace == old(Mine(b)).grace
              && Mine(b).stage == PayloadsListed && Unmarked(Mine(b))
              && SplitAt(Mine(b), listed.value, KeyOf(b.s, Mine(b).head))
              && ExpiredBy(b.states, from, Given(Mine(b)))
  {
    ghost var i := |b.states| - 1;
    b.Interfere();
    LakeTheorems.MarkersStay(b.c, b.states, b.events, i, |b.events|);
    var R := Mine(b);
    if KeyOf(b.s, R.head) !in b.s.live { return None; }
    var all := b.s.live;
    i := |b.states| - 1;
    b.Act(List);
    LakeTheorems.MarkersStay(b.c, b.states, b.events, i, |b.events|);
    assert ExpiredAt(b.states, i, Given(Mine(b)));
    return Some(all);
  }

  /** Kept and expired split the listing at the retention floor; the head's own payload is kept whatever the floor. */
  predicate SplitAt(R: Runner, listed: set<Key>, current: Key) {
    && listed == R.kept + R.expired && R.kept !! R.expired && R.pending == R.kept
    && forall k :: k in listed ==> (k in R.expired <==> k != current && k.gen < R.head - R.retain + 1)
  }

  lemma KeptIsPending(R: Runner, listed: set<Key>, kept: set<Key>, current: Key)
    requires SplitAt(R, listed, current) && kept <= listed && kept !! R.expired
    requires forall k :: k in listed ==> k in R.expired || k in kept
    ensures kept == R.pending
  {
  }
}

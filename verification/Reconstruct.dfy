/** Reassembling a payload from its packs, a bounded window of packs at a time. */
module Reconstruct {
  import opened Wrappers
  import opened Chunk
  import opened PackStores
  import opened Windows

  datatype Fault = NotFound(pack: Digest) | Corrupt(pack: Digest) | TooShort(pack: Digest) | HashMismatch

  /** The destination path: None while no file is there. */
  class Destination {
    var content: Option<Bytes>

    constructor ()
      ensures content == None
    {
      content := None;
    }
  }

  // --- what the outcome depends on ----------------------------------------------------------

  /** Parsing a manifest rejects empty entries. */
  predicate Parsed(m: Manifest) {
    m.chunkSize > 0 && forall i :: 0 <= i < |m.entries| ==> m.entries[i].length > 0
  }

  predicate AllInBounds(es: seq<Entry>, n: nat)
    requires n <= |es|
  {
    forall i :: 0 <= i < n ==> InBounds(es[i])
  }

  /** What each error says about the bucket or the manifest. */
  predicate Justified(m: Manifest, objects: map<Digest, Bytes>, f: Fault) {
    match f
    case NotFound(p) => p in m.Packs() && p !in objects
    case Corrupt(p) => p in m.Packs() && p in objects && objects[p] != p.preimage
    case TooShort(p) => exists i :: 0 <= i < |m.entries| && m.entries[i].pack == p && !InBounds(m.entries[i])
    case HashMismatch => AllInBounds(m.entries, |m.entries|) && Sha256(Contents(m.entries, |m.entries|)) != m.file
  }

  predicate Healthy(m: Manifest, objects: map<Digest, Bytes>) {
    && (forall p :: p in m.Packs() ==> Intact(objects, p))
    && AllInBounds(m.entries, |m.entries|) && Sha256(Contents(m.entries, |m.entries|)) == m.file
  }

  // --- first use ------------------------------------------------------------------------------

  /** The manifest's packs in the order of first use, and the position of each. */
  ghost predicate Ordering(es: seq<Entry>, ordered: seq<Digest>, position: map<Digest, nat>) {
    && ordered == FirstUses(es, |es|)
    && position.Keys == (set i | 0 <= i < |es| :: es[i].pack)
    && forall p :: p in position ==> position[p] == IndexOf(ordered, p) < |ordered|
  }

  method FirstUse(es: seq<Entry>) returns (ordered: seq<Digest>, position: map<Digest, nat>)
    ensures Ordering(es, ordered, position)
  {
    ordered, position := [], map[];
    for i := 0 to |es|
      invariant ordered == FirstUses(es, i)
      invariant position.Keys == set j | 0 <= j < i :: es[j].pack
      invariant forall p :: p in position ==> p in ordered && position[p] < |ordered| && ordered[position[p]] == p
      invariant forall p :: p in ordered ==> p in position
    {
      if es[i].pack !in position {
        position := position[es[i].pack := |ordered|];
        ordered := ordered + [es[i].pack];
      }
    }
    FirstUsesDiffer(es, |es|);
    forall p | p in position ensures position[p] == IndexOf(ordered, p) { IndexOfListed(ordered, position[p]); }
  }

  // --- fetching ----------------------------------------------------------------------------------

  /** A fetched body is the pack, whatever the bucket held; otherwise the fault is the bucket's. */
  method Fetch(store: PackStore, p: Digest) returns (r: Result<Bytes, Fault>)
    modifies store
    ensures (store.stable ==> store.objects == old(store.objects)) && store.gets == old(store.gets) + 1
    ensures r.Ok? ==> r.value == p.preimage
    ensures r.Err? ==> r.error == NotFound(p) || r.error == Corrupt(p)
    ensures store.stable ==>
              (r.Ok? <==> Intact(store.objects, p)) && (r.Err? ==> (r.error.NotFound? <==> p !in store.objects))
  {
    var body := store.Get(p);
    if body.None? { return Err(NotFound(p)); }
    if Sha256(body.value) != p { return Err(Corrupt(p)); }
    return Ok(body.value);
  }

  predicate Genuine(bodies: map<Digest, Bytes>) {
    forall p :: p in bodies ==> bodies[p] == p.preimage
  }

  function SetOf(ps: seq<Digest>): set<Digest> {
    set i | 0 <= i < |ps| :: ps[i]
  }

  /** One window of packs, all or nothing. */
  method FetchWindow(store: PackStore, window: seq<Digest>) returns (r: Result<map<Digest, Bytes>, Fault>)
    modifies store
    ensures store.stable ==> store.objects == old(store.objects)
    ensures r.Ok? ==> r.value.Keys == SetOf(window) && Genuine(r.value) && store.gets == old(store.gets) + |window|
    ensures r.Err? ==> (r.error.NotFound? || r.error.Corrupt?) && r.error.pack in window
    ensures store.stable && r.Ok? ==> forall p :: p in window ==> Intact(store.objects, p)
    ensures store.stable && r.Err? ==>
              !Intact(store.objects, r.error.pack) && (r.error.NotFound? <==> r.error.pack !in store.objects)
  {
    var bodies: map<Digest, Bytes> := map[];
    for i := 0 to |window|
      invariant (store.stable ==> store.objects == old(store.objects)) && store.gets == old(store.gets) + i
      invariant bodies.Keys == SetOf(window[..i]) && Genuine(bodies)
      invariant store.stable ==> forall p :: p in window[..i] ==> Intact(store.objects, p)
    {
      var body := Fetch(store, window[i]);
      if body.Err? { return Err(body.error); }
      bodies := bodies[window[i] := body.value];
      assert window[..i + 1] == window[..i] + [window[i]];
    }
    assert window[..|window|] == window;
    return Ok(bodies);
  }

  // --- one entry ------------------------------------------------------------------------------------

  type Slot = Option<(Digest, Bytes)>

  /** The memo slot holds this pack, genuine. */
  ghost predicate MemoIs(slot: Slot, pack: Option<Digest>) {
    match slot
    case None => pack.None?
    case Some((p, body)) => pack == Some(p) && body == p.preimage
  }

  function InSlot(slot: Slot): nat {
    if slot.Some? then 1 else 0
  }

  function WindowEnd(start: nat, all: nat): nat {
    if start + RECONSTRUCT_WINDOW_PACKS <= all then start + RECONSTRUCT_WINDOW_PACKS else all
  }

  /** The window from `start` on is loaded. */
  ghost predicate Loaded(es: seq<Entry>, ordered: seq<Digest>, position: map<Digest, nat>, start: nat,
                         bodies: map<Digest, Bytes>)
  {
    && Ordering(es, ordered, position) && start <= |ordered|
    && bodies.Keys == SetOf(ordered[start..WindowEnd(start, |ordered|)]) && Genuine(bodies)
    && |bodies| == WindowEnd(start, |ordered|) - start
  }

  /** A window of the ordering holds exactly the packs whose first-use position lies in it. */
  lemma InWindowIff(es: seq<Entry>, ordered: seq<Digest>, position: map<Digest, nat>, start: nat, end: nat, i: nat)
    requires Ordering(es, ordered, position) && start <= end <= |ordered| && i < |es|
    ensures es[i].pack in position && position[es[i].pack] == IndexOf(ordered, es[i].pack)
    ensures es[i].pack in SetOf(ordered[start..end]) <==> start <= position[es[i].pack] < end
  {
    var window, p := ordered[start..end], es[i].pack;
    FirstUsesDiffer(es, |es|);
    FirstUsesCover(es, |es|, i);
    IndexOfPrefix(ordered, ordered, p);
    var at :| 0 <= at < |ordered| && ordered[at] == p;
    IndexOfListed(ordered, at);
    forall k | 0 <= k < |window| ensures window[k] == ordered[start + k] {}
    forall k | 0 <= k < |window| && window[k] == p ensures start + k == at { IndexOfListed(ordered, start + k); }
    if start <= at < end { assert window[at - start] == p; }
  }

  datatype Served = Later | Body(bytes: Bytes) | Failed(fault: Fault)

  /**
   * The body entry i is cut from: of the loaded window, of the memo, or fetched again; or none yet, because the
   * pack comes in a later window. `held` is what is in memory at that moment; a refetch keeps the old memo until
   * the new body is in.
   */
  method Serve(store: PackStore, m: Manifest, ordered: seq<Digest>, position: map<Digest, nat>, start: nat,
               bodies: map<Digest, Bytes>, i: nat, backRef: Slot)
    returns (r: Served, backRef': Slot, ghost held: nat)
    requires i < |m.entries| && Loaded(m.entries, ordered, position, start, bodies)
    requires i in InWindow(m.entries, start) && MemoIs(backRef, Memo(m.entries, i))
    modifies store
    ensures store.stable ==> store.objects == old(store.objects)
    ensures r.Later? ==>
              && IndexOf(FirstUses(m.entries, |m.entries|), m.entries[i].pack) >= start + RECONSTRUCT_WINDOW_PACKS
              && backRef' == backRef && store.gets == old(store.gets)
    ensures r.Body? ==>
              && r.bytes == m.entries[i].pack.preimage && i + 1 in InWindow(m.entries, start)
              && MemoIs(backRef', Memo(m.entries, i + 1)) && held == HeldAt(m.entries, i)
              && store.gets == old(store.gets) + (if Refetch(m.entries, i) then 1 else 0)
    ensures held <= RECONSTRUCT_WINDOW_PACKS + 2
    ensures store.stable && r.Failed? ==> Justified(m, store.objects, r.fault)
  {
    var entry := m.entries[i];
    var end := WindowEnd(start, |ordered|);
    InWindowIff(m.entries, ordered, position, start, end, i);
    backRef' := backRef;
    held := |bodies| + InSlot(backRef);
    if position[entry.pack] >= end { return Later, backRef', held; }
    ServedHere(m.entries, start, i);
    assert WindowLength(m.entries, i) == |bodies|;
    if entry.pack in bodies { return Body(bodies[entry.pack]), backRef', held; }
    if backRef.None? || backRef.value.0 != entry.pack {
      held := |bodies| + InSlot(backRef) + 1;
      var again := Fetch(store, entry.pack);
      if again.Err? { return Failed(again.error), backRef', held; }
      backRef' := Some((entry.pack, again.value));
    }
    return Body(backRef'.value.1), backRef', held;
  }

  // --- one window -------------------------------------------------------------------------------------

  /** What is on disk: the first n entries, each written once, in order. */
  ghost predicate Written(m: Manifest, file: Option<Bytes>, n: nat)
  {
    n <= |m.entries| && AllInBounds(m.entries, n) && file == Some(Contents(m.entries, n))
  }

  /** After n entries: the file, the memo, the most that was held, and the fetches spent on refetching. */
  ghost predicate Progress(m: Manifest, file: Option<Bytes>, n: nat, backRef: Slot, held: nat, refetched: int)
  {
    Written(m, file, n) && Counted(m, n, backRef, held, refetched)
  }

  ghost predicate Counted(m: Manifest, n: nat, backRef: Slot, held: nat, refetched: int) {
    && n <= |m.entries| && MemoIs(backRef, Memo(m.entries, n))
    && held == PeakHeld(m.entries, n) && refetched == Refetches(m.entries, n)
  }

  /** Between two entries of a window. */
  ghost predicate Underway(m: Manifest, file: Option<Bytes>, start: nat, n: nat, backRef: Slot, held: nat)
  {
    && n <= |m.entries| && held <= RECONSTRUCT_WINDOW_PACKS + 2 && n in InWindow(m.entries, start)
    && Progress(m, file, n, backRef, held, Refetches(m.entries, n))
  }

  function Larger(a: nat, b: nat): nat {
    if a <= b then b else a
  }

  datatype Step = Wrote | Ahead | Faulted(fault: Fault)

  /** Serves entry i and appends its piece. */
  method WriteEntry(store: PackStore, m: Manifest, ordered: seq<Digest>, position: map<Digest, nat>, start: nat,
                    bodies: map<Digest, Bytes>, i: nat, backRef: Slot, dest: Destination, ghost held: nat)
    returns (step: Step, i': nat, backRef': Slot, ghost held': nat)
    requires Parsed(m) && Loaded(m.entries, ordered, position, start, bodies)
    requires i < |m.entries| && Underway(m, dest.content, start, i, backRef, held)
    modifies store, dest
    ensures store.stable ==> store.objects == old(store.objects)
    ensures held' <= RECONSTRUCT_WINDOW_PACKS + 2
    ensures step.Wrote? ==>
              && i' == i + 1 && Underway(m, dest.content, start, i', backRef', held')
              && store.gets - old(store.gets) == Refetches(m.entries, i') - Refetches(m.entries, i)
    ensures step.Ahead? ==>
              && i' == i && Underway(m, dest.content, start + RECONSTRUCT_WINDOW_PACKS, i', backRef', held')
              && store.gets == old(store.gets)
    ensures store.stable && step.Faulted? ==> Justified(m, store.objects, step.fault)
  {
    ghost var now;
    var served;
    served, backRef', now := Serve(store, m, ordered, position, start, bodies, i, backRef);
    held' := if served.Later? then held else Larger(held, now);
    match served {
      case Later =>
        OpensNext(m.entries, start, i);
        NowAhead(m, dest.content, start, i, backRef, held);
        return Ahead, i, backRef', held';
      case Failed(f) => return Faulted(f), i, backRef', held';
      case Body(body) =>
        var entry := m.entries[i];
        if entry.offset + entry.length > |body| { return Faulted(TooShort(entry.pack)), i, backRef', held'; }
        Append(m, start, i, body, dest, backRef, backRef', held, now, store.gets - old(store.gets));
        return Wrote, i + 1, backRef', held';
    }
  }

  /** Entry i's slice of its pack goes to the end of the file. */
  method Append(m: Manifest, ghost start: nat, i: nat, body: Bytes, dest: Destination, ghost backRef: Slot,
                ghost backRef': Slot, ghost held: nat, ghost now: nat, ghost gets: int)
    requires i < |m.entries| && Underway(m, dest.content, start, i, backRef, held)
    requires body == m.entries[i].pack.preimage && m.entries[i].offset + m.entries[i].length <= |body|
    requires i + 1 in InWindow(m.entries, start) && MemoIs(backRef', Memo(m.entries, i + 1))
    requires now == HeldAt(m.entries, i) <= RECONSTRUCT_WINDOW_PACKS + 2
    requires gets == if Refetch(m.entries, i) then 1 else 0
    modifies dest
    ensures Underway(m, dest.content, start, i + 1, backRef', Larger(held, now))
    ensures gets == Refetches(m.entries, i + 1) - Refetches(m.entries, i)
  {
    var entry := m.entries[i];
    ghost var file := dest.content;
    NextPiece(m.entries, i, dest.content.value, body);
    dest.content := Some(dest.content.value + body[entry.offset..entry.offset + entry.length]);
    NextUnderway(m, file, dest.content, start, i, backRef, backRef', held, now, gets);
  }

  lemma NextCounts(m: Manifest, i: nat, backRef: Slot, backRef': Slot, held: nat, now: nat, gets: int)
    requires i < |m.entries| && Counted(m, i, backRef, held, Refetches(m.entries, i))
    requires MemoIs(backRef', Memo(m.entries, i + 1)) && now == HeldAt(m.entries, i)
    requires gets == if Refetch(m.entries, i) then 1 else 0
    ensures Counted(m, i + 1, backRef', Larger(held, now), Refetches(m.entries, i) + gets)
  {
  }

  lemma NextUnderway(m: Manifest, file: Option<Bytes>, file': Option<Bytes>, start: nat, i: nat, backRef: Slot,
                     backRef': Slot, held: nat, now: nat, gets: int)
    requires i < |m.entries| && Underway(m, file, start, i, backRef, held) && Written(m, file', i + 1)
    requires i + 1 in InWindow(m.entries, start) && MemoIs(backRef', Memo(m.entries, i + 1))
    requires now == HeldAt(m.entries, i) <= RECONSTRUCT_WINDOW_PACKS + 2
    requires gets == if Refetch(m.entries, i) then 1 else 0
    ensures Underway(m, file', start, i + 1, backRef', Larger(held, now))
    ensures gets == Refetches(m.entries, i + 1) - Refetches(m.entries, i)
  {
    NextCounts(m, i, backRef, backRef', held, now, gets);
  }

  lemma NowAhead(m: Manifest, file: Option<Bytes>, start: nat, i: nat, backRef: Slot, held: nat)
    requires Underway(m, file, start, i, backRef, held) && i in InWindow(m.entries, start + RECONSTRUCT_WINDOW_PACKS)
    ensures Underway(m, file, start + RECONSTRUCT_WINDOW_PACKS, i, backRef, held)
  {
  }

  lemma NextPiece(es: seq<Entry>, i: nat, content: Bytes, body: Bytes)
    requires i < |es| && AllInBounds(es, i) && content == Contents(es, i)
    requires body == es[i].pack.preimage && es[i].offset + es[i].length <= |body|
    ensures AllInBounds(es, i + 1)
    ensures content + body[es[i].offset..es[i].offset + es[i].length] == Contents(es, i + 1)
  {
  }

  /** Writes every consecutive entry that the window, the memo or a refetch can serve. */
  method WriteWindow(store: PackStore, m: Manifest, ordered: seq<Digest>, position: map<Digest, nat>, start: nat,
                     bodies: map<Digest, Bytes>, entryIndex: nat, backRef: Slot, dest: Destination, ghost held: nat)
    returns (entryIndex': nat, backRef': Slot, fault: Option<Fault>, ghost held': nat)
    requires Parsed(m) && Loaded(m.entries, ordered, position, start, bodies)
    requires Underway(m, dest.content, start, entryIndex, backRef, held)
    modifies store, dest
    ensures store.stable ==> store.objects == old(store.objects)
    ensures held' <= RECONSTRUCT_WINDOW_PACKS + 2
    ensures fault.None? ==>
              && Underway(m, dest.content, start + RECONSTRUCT_WINDOW_PACKS, entryIndex', backRef', held')
              && entryIndex' in InWindow(m.entries, start)
              && store.gets - old(store.gets) == Refetches(m.entries, entryIndex') - Refetches(m.entries, entryIndex)
    ensures store.stable && fault.Some? ==> Justified(m, store.objects, fault.value)
  {
    entryIndex', backRef', fault, held' := entryIndex, backRef, None, held;
    while entryIndex' < |m.entries|
      invariant store.stable ==> store.objects == old(store.objects)
      invariant Underway(m, dest.content, start, entryIndex', backRef', held')
      invariant store.gets - old(store.gets) == Refetches(m.entries, entryIndex') - Refetches(m.entries, entryIndex)
    {
      var step;
      step, entryIndex', backRef', held' :=
        WriteEntry(store, m, ordered, position, start, bodies, entryIndex', backRef', dest, held');
      match step {
        case Ahead => return;
        case Faulted(f) =>
          fault := Some(f);
          return;
        case Wrote =>
      }
    }
    OpensNext(m.entries, start, entryIndex');
  }

  // --- all windows ---------------------------------------------------------------------------------------

  ghost predicate PrefixIntact(objects: map<Digest, Bytes>, ordered: seq<Digest>, n: nat) {
    forall i :: 0 <= i < n && i < |ordered| ==> Intact(objects, ordered[i])
  }

  lemma WindowExtends(objects: map<Digest, Bytes>, ordered: seq<Digest>, start: nat, end: nat)
    requires PrefixIntact(objects, ordered, start) && start <= end <= |ordered|
    requires forall p :: p in ordered[start..end] ==> Intact(objects, p)
    ensures PrefixIntact(objects, ordered, end)
  {
    forall i | start <= i < end ensures Intact(objects, ordered[i]) {
      assert ordered[start..end][i - start] == ordered[i];
    }
  }

  lemma {:induction false} ListedIsUsed(es: seq<Entry>, n: nat, p: Digest)
    requires n <= |es| && p in FirstUses(es, n)
    ensures exists i :: 0 <= i < n && es[i].pack == p
  {
    if n > 0 && es[n - 1].pack != p { ListedIsUsed(es, n - 1, p); }
  }

  lemma FetchFaultJustified(m: Manifest, objects: map<Digest, Bytes>, start: nat, end: nat, f: Fault)
    requires var ordered := FirstUses(m.entries, |m.entries|);
             start <= end <= |ordered| && (f.NotFound? || f.Corrupt?) && f.pack in ordered[start..end]
    requires !Intact(objects, f.pack) && (f.NotFound? <==> f.pack !in objects)
    ensures Justified(m, objects, f)
  {
    ListedIsUsed(m.entries, |m.entries|, f.pack);
  }

  lemma AllIntact(m: Manifest, objects: map<Digest, Bytes>)
    requires var ordered := FirstUses(m.entries, |m.entries|); PrefixIntact(objects, ordered, |ordered|)
    ensures forall p :: p in m.Packs() ==> Intact(objects, p)
  {
    var ordered := FirstUses(m.entries, |m.entries|);
    forall p | p in m.Packs() ensures Intact(objects, p) {
      var i :| 0 <= i < |m.entries| && m.entries[i].pack == p;
      FirstUsesCover(m.entries, |m.entries|, i);
    }
  }

  lemma OneMoreElement(ps: seq<Digest>, p: Digest)
    requires p !in ps
    ensures SetOf(ps + [p]) == SetOf(ps) + {p} && p !in SetOf(ps)
  {
    assert (ps + [p])[|ps|] == p;
    forall i | 0 <= i < |ps| ensures ps[i] in SetOf(ps + [p]) { assert (ps + [p])[i] == ps[i]; }
  }

  lemma {:induction false} DistinctSize(ps: seq<Digest>)
    requires NoRepeats(ps)
    ensures |SetOf(ps)| == |ps|
  {
    if ps != [] {
      var rest := ps[..|ps| - 1];
      DistinctSize(rest);
      OneMoreElement(rest, ps[|ps| - 1]);
      assert rest + [ps[|ps| - 1]] == ps;
    }
  }

  /** Fetches the window from `start` on. */
  method LoadWindow(store: PackStore, m: Manifest, ordered: seq<Digest>, position: map<Digest, nat>, start: nat)
    returns (r: Result<map<Digest, Bytes>, Fault>)
    requires Ordering(m.entries, ordered, position) && start < |ordered|
    modifies store
    ensures store.stable ==> store.objects == old(store.objects)
    ensures r.Ok? ==> Loaded(m.entries, ordered, position, start, r.value) && |r.value| <= RECONSTRUCT_WINDOW_PACKS
                      && store.gets == old(store.gets) + |r.value|
    ensures store.stable && r.Ok? && PrefixIntact(store.objects, ordered, start) ==>
              PrefixIntact(store.objects, ordered, start + RECONSTRUCT_WINDOW_PACKS)
    ensures store.stable && r.Err? ==> Justified(m, store.objects, r.error)
  {
    var end := WindowEnd(start, |ordered|);
    r := FetchWindow(store, ordered[start..end]);
    if r.Ok? {
      FirstUsesDiffer(m.entries, |m.entries|);
      DistinctSize(ordered[start..end]);
      if store.stable && PrefixIntact(store.objects, ordered, start) {
        WindowExtends(store.objects, ordered, start, end);
      }
    } else if store.stable {
      FetchFaultJustified(m, store.objects, start, end, r.error);
    }
  }

  /** The loop's variables: the next entry, the memo, and the window still referenced. */
  datatype Done = Done(entryIndex: nat, backRef: Slot, bodies: map<Digest, Bytes>)

  /** Between two windows: what has been written, fetched and held, and what the previous window still holds. */
  ghost predicate Between(m: Manifest, file: Option<Bytes>, all: nat, start: nat, d: Done, held: nat, loading: nat,
                          gets: int)
  {
    && Underway(m, file, start, d.entryIndex, d.backRef, held)
    && (d.entryIndex, |d.bodies|, loading) in Loads(m.entries, start)
    && gets == Fetched(start, all) + Refetches(m.entries, d.entryIndex)
  }

  /** Before the window from `start` on: the entry that opens it, the bodies still referenced, the most held so far. */
  ghost function Loads(es: seq<Entry>, start: nat): iset<(nat, nat, nat)> {
    iset p: (nat, nat, nat) | LoadsOk(es, start, p.0, p.1, p.2)
  }

  ghost predicate LoadsOk(es: seq<Entry>, start: nat, i: nat, bodies: nat, loading: nat) {
    && AtOpening(es, start, i) && loading == PeakLoading(es, i)
    && (start <= |FirstUses(es, |es|)| ==> bodies == if start == 0 then 0 else RECONSTRUCT_WINDOW_PACKS)
  }

  lemma OpeningExists(es: seq<Entry>, start: nat, i: nat, bodies: nat, loading: nat)
    requires (i, bodies, loading) in Loads(es, start) && start < |FirstUses(es, |es|)|
    ensures i < |es| && loading <= 2 * RECONSTRUCT_WINDOW_PACKS + 1
  {
    LoadingBound(es, i);
  }

  lemma LoadsAll(es: seq<Entry>, start: nat, bodies: nat, loading: nat)
    requires (|es|, bodies, loading) in Loads(es, start)
    ensures loading == PeakLoading(es, |es|) <= 2 * RECONSTRUCT_WINDOW_PACKS + 1
  {
    LoadingBound(es, |es|);
  }

  /** Loading the window that entry i opens. */
  lemma NextLoad(es: seq<Entry>, start: nat, i: nat, backRef: Slot, bodies: nat, loading: nat, coming: nat)
    requires i < |es| && MemoIs(backRef, Memo(es, i)) && (i, bodies, loading) in Loads(es, start)
    requires start < |FirstUses(es, |es|)| && coming == WindowEnd(start, |FirstUses(es, |es|)|) - start
    ensures Larger(loading, bodies + InSlot(backRef) + coming) == PeakLoading(es, i + 1)
                <= 2 * RECONSTRUCT_WINDOW_PACKS + 1
  {
    WindowComes(es, start, i, coming);
    LoadingBound(es, i + 1);
  }

  lemma WindowComes(es: seq<Entry>, start: nat, i: nat, coming: nat)
    requires i < |es| && AtOpening(es, start, i)
    requires start < |FirstUses(es, |es|)| && coming == WindowEnd(start, |FirstUses(es, |es|)|) - start
    ensures LoadedAt(es, i) == (if start == 0 then 0 else RECONSTRUCT_WINDOW_PACKS) + Slots(Memo(es, i)) + coming
    ensures PeakLoading(es, i + 1) == Larger(PeakLoading(es, i), LoadedAt(es, i))
  {
    OpeningWindow(es, start, i);
  }

  /** Writing the entries of that window loads nothing more. */
  lemma NextOpening(es: seq<Entry>, start: nat, i: nat, bodies: nat, loading: nat, j: nat, coming: nat)
    requires i < |es| && (i, bodies, loading) in Loads(es, start)
    requires j in InWindow(es, start) && j in InWindow(es, start + RECONSTRUCT_WINDOW_PACKS)
    requires start < |FirstUses(es, |es|)| && coming == WindowEnd(start, |FirstUses(es, |es|)|) - start
    ensures (j, coming, PeakLoading(es, i + 1)) in Loads(es, start + RECONSTRUCT_WINDOW_PACKS)
  {
    EndsAtOpening(es, start, j);
    if j <= i { FirstUsesGrow(es, j, i); }
    LoadsOnce(es, start, i, j);
  }

  /** Packs fetched by the windows before `start`. */
  function Fetched(start: nat, all: nat): nat {
    if start <= all then start else all
  }

  lemma NothingLeft(es: seq<Entry>, start: nat, i: nat)
    requires i in InWindow(es, start) && i <= |es| && start >= |FirstUses(es, |es|)|
    ensures i == |es|
  {
    if i < |es| { FirstUsesGrow(es, i + 1, |es|); }
  }

  lemma AllDone(m: Manifest, file: Option<Bytes>, all: nat, start: nat, d: Done, held: nat, loading: nat, gets: int)
    requires Between(m, file, all, start, d, held, loading, gets) && start >= all == |FirstUses(m.entries, |m.entries|)|
    ensures Written(m, file, |m.entries|) && held == PeakHeld(m.entries, |m.entries|)
    ensures loading == PeakLoading(m.entries, |m.entries|) <= 2 * RECONSTRUCT_WINDOW_PACKS + 1
    ensures gets == all + Refetches(m.entries, |m.entries|)
  {
    NothingLeft(m.entries, start, d.entryIndex);
    LoadsAll(m.entries, start, |d.bodies|, loading);
  }

  lemma NothingYet(m: Manifest, dest: Destination, all: nat)
    requires dest.content == Some([])
    ensures Between(m, dest.content, all, 0, Done(0, None, map[]), 0, 0, 0)
  {
    if |m.entries| > 0 {
      assert FirstUses(m.entries, 0) == [];
      assert FirstUses(m.entries, 1) == [m.entries[0].pack];
    }
  }

  /** The window from `start` on has arrived, while the previous one is still there: writes its entries. */
  method NextWindow(store: PackStore, m: Manifest, ordered: seq<Digest>, position: map<Digest, nat>, start: nat,
                    d: Done, bodies: map<Digest, Bytes>, dest: Destination, ghost held: nat, ghost loading: nat)
    returns (d': Done, fault: Option<Fault>, ghost held': nat, ghost loading': nat)
    requires Parsed(m) && Loaded(m.entries, ordered, position, start, bodies) && start < |ordered|
    requires d.entryIndex < |m.entries| && Underway(m, dest.content, start, d.entryIndex, d.backRef, held)
    requires (d.entryIndex, |d.bodies|, loading) in Loads(m.entries, start)
    modifies store, dest
    ensures store.stable ==> store.objects == old(store.objects)
    ensures held' <= RECONSTRUCT_WINDOW_PACKS + 2
    ensures loading' == Larger(loading, |d.bodies| + InSlot(d.backRef) + |bodies|) <= 2 * RECONSTRUCT_WINDOW_PACKS + 1
    ensures fault.None? ==>
              && Underway(m, dest.content, start + RECONSTRUCT_WINDOW_PACKS, d'.entryIndex, d'.backRef, held')
              && (d'.entryIndex, |d'.bodies|, loading') in Loads(m.entries, start + RECONSTRUCT_WINDOW_PACKS)
              && store.gets - old(store.gets)
                   == Refetches(m.entries, d'.entryIndex) - Refetches(m.entries, d.entryIndex)
    ensures store.stable && fault.Some? ==> Justified(m, store.objects, fault.value)
  {
    NextLoad(m.entries, start, d.entryIndex, d.backRef, |d.bodies|, loading, |bodies|);
    loading' := Larger(loading, |d.bodies| + InSlot(d.backRef) + |bodies|);
    var entryIndex, backRef;
    entryIndex, backRef, fault, held' :=
      WriteWindow(store, m, ordered, position, start, bodies, d.entryIndex, d.backRef, dest, held);
    if fault.None? { NextOpening(m.entries, start, d.entryIndex, |d.bodies|, loading, entryIndex, |bodies|); }
    d' := Done(entryIndex, backRef, bodies);
  }

  /** Loads the window from `start` on and writes its entries. */
  method OneWindow(store: PackStore, m: Manifest, ordered: seq<Digest>, position: map<Digest, nat>, start: nat,
                   d: Done, dest: Destination, ghost held: nat, ghost loading: nat, ghost gets: int)
    returns (d': Done, fault: Option<Fault>, ghost held': nat, ghost loading': nat)
    requires Parsed(m) && Ordering(m.entries, ordered, position) && start < |ordered|
    requires Between(m, dest.content, |ordered|, start, d, held, loading, gets)
    modifies store, dest
    ensures store.stable ==> store.objects == old(store.objects)
    ensures held' <= RECONSTRUCT_WINDOW_PACKS + 2 && loading' <= 2 * RECONSTRUCT_WINDOW_PACKS + 1
    ensures fault.None? ==>
              Between(m, dest.content, |ordered|, start + RECONSTRUCT_WINDOW_PACKS, d', held', loading',
                      gets + (store.gets - old(store.gets)))
    ensures store.stable && fault.None? && PrefixIntact(store.objects, ordered, start) ==>
              PrefixIntact(store.objects, ordered, start + RECONSTRUCT_WINDOW_PACKS)
    ensures store.stable && fault.Some? ==> Justified(m, store.objects, fault.value)
  {
    d', held', loading' := d, held, loading;
    OpeningExists(m.entries, start, d.entryIndex, |d.bodies|, loading);
    var fetched := LoadWindow(store, m, ordered, position, start);
    if fetched.Err? { return d', Some(fetched.error), held', loading'; }
    d', fault, held', loading' :=
      NextWindow(store, m, ordered, position, start, d, fetched.value, dest, held, loading);
  }

  /**
   * All windows in turn. A success fetched every pack once, plus once per refetch. `held` is the most that was in
   * memory while entries were written, and `loading` the most while a window was loading, where the previous one is
   * released only when the next is complete; both are read off the manifest.
   */
  method WriteWindows(store: PackStore, m: Manifest, dest: Destination)
    returns (fault: Option<Fault>, ghost held: nat, ghost loading: nat)
    requires Parsed(m) && dest.content == Some([])
    modifies store, dest
    ensures store.stable ==> store.objects == old(store.objects)
    ensures fault.None? ==>
              && Written(m, dest.content, |m.entries|) && held == PeakHeld(m.entries, |m.entries|)
              && loading == PeakLoading(m.entries, |m.entries|)
              && store.gets - old(store.gets) == |FirstUses(m.entries, |m.entries|)| + Refetches(m.entries, |m.entries|)
    ensures store.stable && fault.None? ==> forall p :: p in m.Packs() ==> Intact(store.objects, p)
    ensures store.stable && fault.Some? ==> Justified(m, store.objects, fault.value)
    ensures held <= RECONSTRUCT_WINDOW_PACKS + 2 && loading <= 2 * RECONSTRUCT_WINDOW_PACKS + 1
  {
    held, loading := 0, 0;
    var ordered, position := FirstUse(m.entries);
    var start: nat := 0;
    var d := Done(0, None, map[]);
    NothingYet(m, dest, |ordered|);
    while start < |ordered|
      invariant store.stable ==> store.objects == old(store.objects)
      invariant Between(m, dest.content, |ordered|, start, d, held, loading, store.gets - old(store.gets))
      invariant store.stable ==> PrefixIntact(store.objects, ordered, start)
      decreases |ordered| - start
    {
      d, fault, held, loading :=
        OneWindow(store, m, ordered, position, start, d, dest, held, loading, store.gets - old(store.gets));
      if fault.Some? { return; }
      start := start + RECONSTRUCT_WINDOW_PACKS;
    }
    fault := None;
    AllDone(m, dest.content, |ordered|, start, d, held, loading, store.gets - old(store.gets));
    if store.stable { AllIntact(m, store.objects); }
  }

  // --- the whole reconstruction ----------------------------------------------------------------------------

  /**
   * Whatever the bucket holds or does meanwhile, either the file is the payload the manifest was hashed from, or
   * there is an error and no file. On a stable bucket the call succeeds exactly when it can, and an error names its
   * cause. A success fetched each pack once, plus once for each back-reference the memo could not serve.
   */
  method Reconstruct(store: PackStore, m: Manifest, dest: Destination) returns (r: Result<(), Fault>)
    requires Parsed(m)
    modifies store, dest
    ensures store.stable ==> store.objects == old(store.objects)
    ensures r.Ok? ==>
              && dest.content == Some(Data(m)) && AllInBounds(m.entries, |m.entries|)
              && Data(m) == Contents(m.entries, |m.entries|)
              && store.gets - old(store.gets) == |FirstUses(m.entries, |m.entries|)| + Refetches(m.entries, |m.entries|)
    ensures r.Err? ==> dest.content == None
    ensures store.stable ==> (r.Ok? <==> Healthy(m, store.objects))
    ensures store.stable && r.Err? ==> Justified(m, store.objects, r.error)
  {
    dest.content := Some([]);
    var fault;
    ghost var held, loading;
    fault, held, loading := WriteWindows(store, m, dest);
    if fault.None? && Sha256(dest.content.value) != m.file { fault := Some(HashMismatch); }
    if fault.Some? {
      if store.stable { FaultIsUnhealthy(m, store.objects, fault.value); }
      dest.content := None;
      return Err(fault.value);
    }
    return Ok(());
  }

  lemma FaultIsUnhealthy(m: Manifest, objects: map<Digest, Bytes>, f: Fault)
    ensures Justified(m, objects, f) ==> !Healthy(m, objects)
  {
  }

  /** A bucket that holds every pack of a well-formed manifest unharmed reconstructs it. */
  lemma WellFormedIsHealthy(m: Manifest, objects: map<Digest, Bytes>)
    requires WellFormed(m) && forall p :: p in m.Packs() ==> Intact(objects, p)
    ensures Parsed(m) && Healthy(m, objects)
  {
    assert forall i :: 0 <= i < |m.entries| ==> EntryOk(m.entries[i]);
  }
}

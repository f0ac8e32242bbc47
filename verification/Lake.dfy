/**
 * The lake as a step machine: one object store, any number of writers running the commit loop,
 * any number of collectors running garbage collection, and a network that may deliver a create-only
 * PUT long after its sender gave up on it. One event is one store operation or one local decision.
 *
 * No event consults the maintenance lease: a collector that lost it simply keeps running or halts.
 */
module Lake {
  import opened Wrappers
  import Chunk
  import Rebase
  import PackSweep

  type Bytes = Chunk.Bytes
  type Pack = Chunk.Digest

  /** payload/<gen>-<uuid>; the marker roots/<gen> is the same pair seen from the other side. */
  datatype Key = Key(gen: nat, id: nat)

  datatype Payload = Whole(bytes: Bytes) | Chunked(manifest: Chunk.Manifest) {
    function Data(): Bytes {
      if Whole? then bytes else Chunk.Data(manifest)
    }
    function Packs(): set<Pack> {
      if Whole? then {} else manifest.Packs()
    }
  }

  datatype Marker = Marker(id: nat, chunked: bool)

  /** Fixed parameters: the smallest retention and grace any collector uses, and two time bounds for `Timely`. */
  datatype Config = Config(retain: nat, grace: nat, gap: nat, cycle: nat, exec: (Rebase.Statement, Bytes) -> Bytes) {
    predicate Valid() {
      retain >= 1 && gap + cycle <= grace
    }
    /** A changeset replayed statement by statement. */
    function Run(cs: Rebase.Changeset, base: Bytes): Bytes {
      if cs == [] then base else exec(cs[|cs| - 1], Run(cs[..|cs| - 1], base))
    }
  }

  // --- writers -----------------------------------------------------------

  /**
   * One publish attempt. `refreshed` holds the store time of each unconditional re-PUT; `clean` holds the
   * packs whose re-PUT did not fall between some collector's re-HEAD and its DELETE of that same pack.
   */
  datatype Attempt = Attempt(owner: nat, key: Key, body: Payload, novel: set<Pack>, put: set<Pack>,
                             refreshed: map<Pack, nat>, clean: set<Pack>, checked: set<Pack>)

  datatype Phase =
    | Idle
    | Based(target: nat, work: Bytes)
    | Publishing(a: Attempt)
    | Sent(a: Attempt)
    | Landed(a: Attempt)
    | Creating(a: Attempt, tries: nat)
    | Won(key: Key)
    | Aborted
    | Unknown(key: Key)
    | Stopped(last: Option<Key>)

  datatype Writer = Writer(changes: Rebase.Changeset, policy: Rebase.ConflictPolicy, maxAttempts: nat,
                           attempt: nat, replayed: bool, phase: Phase)

  // --- collectors --------------------------------------------------------

  datatype Stage = HeadKnown | PayloadsListed | PacksListed | LedgerRead | Clocked | Committed | Rechecked | Halted

  datatype LedgerRef = RefAbsent | RefCorrupt | RefAt(etag: nat)

  datatype Runner = Runner(stage: Stage, retain: nat, grace: nat, head: nat, listedAt: nat,
                           kept: set<Key>, expired: set<Key>,
                           metas: map<Pack, Option<nat>>, pending: set<Key>, peek: Option<(Key, bool)>,
                           marked: set<Pack>, refs: set<Pack>,
                           cold: map<Pack, nat>, ref: LedgerRef, now: nat,
                           cycle: nat, todo: set<Pack>, recheck: nat, doomed: Option<Pack>)

  /** The tombstone ledger object; rows are None when the body does not parse. */
  datatype Ledger = NoLedger | LedgerObject(etag: nat, rows: Option<map<Pack, nat>>)

  /** History: one committed ledger write. */
  datatype Cycle = Cycle(ref: LedgerRef, loaded: map<Pack, nat>, now: nat, metas: map<Pack, Option<nat>>,
                         marked: set<Pack>, grace: nat, written: map<Pack, nat>, etag: nat)

  // --- the store and everyone around it ------------------------------------

  datatype State = State(
    clock: nat,
    markers: map<nat, Marker>,
    sent: map<Key, Attempt>,      // every payload PUT ever put on the wire
    landed: set<Key>,             // history: those that ever landed
    live: set<Key>,               // payload objects present now
    dropped: set<Key>,            // payloads whose writer gave up on them before proposing a marker
    proposed: set<Key>,           // every marker create ever put on the wire
    used: map<nat, nat>,          // identifiers drawn so far, and the writer that drew each
    packs: map<Pack, nat>,        // packs present, with the store's modification time
    firstPut: map<Pack, nat>,     // history: when each pack first existed
    ledger: Ledger,
    etags: nat,
    cycles: seq<Cycle>,           // history: ledger commits, oldest first
    writers: map<nat, Writer>,
    runners: map<nat, Runner>)

  const Empty := State(0, map[], map[], {}, {}, {}, {}, map[], map[], map[], NoLedger, 0, [], map[], map[])

  datatype StoreEvent =
    | Tick(d: nat)
    | StrayPut(p: Pack)               // a pack PUT that timed out earlier lands now
    | CorruptLedger
    | Deliver(k: Key)                 // a payload PUT lands, perhaps late
    | Land(k: Key)                    // a marker create lands, perhaps late

  datatype WriterEvent =
    | Begin(changes: Rebase.Changeset, policy: Rebase.ConflictPolicy, maxAttempts: nat)
    | Bootstrap(data: Bytes, maxAttempts: nat)
    | Fetch(g: nat)                   // from the store or from the local cache of fetched generations
    | Plan(id: nat, body: Payload, novel: set<Pack>)
    | PutPack(p: Pack)
    | Refresh(p: Pack)
    | Check(p: Pack)
    | Send
    | Ack
    | Drop                            // ambiguous PUT, and the GET finds nothing
    | Propose
    | Win
    | Absent
    | Lose
    | Quit                            // crash or any uncaught error

  datatype GcEvent =
    | GcBegin(retain: nat, grace: nat, head: nat)
    | List
    | Sweep(k: Key)
    | ListPacks
    | Peek(k: Key)                    // read the marker of a kept payload's generation
    | Resolve(junk: set<Pack>)        // then read the payload itself
    | Rehead(p: Pack)
    | ReadLedger
    | ReadClock
    | CommitLedger
    | Recheck
    | HeadPack(p: Pack)
    | Delete
    | Halt

  datatype Event = Store(x: StoreEvent) | Writing(w: nat, u: WriterEvent) | Collecting(r: nat, v: GcEvent)

  // --- reading the state -----------------------------------------------------

  /** Number of generations; the head is Top - 1. */
  function Top(s: State): nat {
    |s.markers|
  }

  function KeyOf(s: State, g: nat): Key
    requires g in s.markers
  {
    Key(g, s.markers[g].id)
  }

  predicate IsCommitted(s: State, k: Key) {
    k.gen in s.markers && s.markers[k.gen].id == k.id
  }

  predicate IsLost(s: State, k: Key) {
    k.gen in s.markers && s.markers[k.gen].id != k.id
  }

  function PacksOf(s: State, k: Key): set<Pack> {
    if k in s.sent then s.sent[k].body.Packs() else {}
  }

  /** The payload bytes generation g names. */
  function DataAt(s: State, g: nat): Bytes {
    if g in s.markers && KeyOf(s, g) in s.sent then s.sent[KeyOf(s, g)].body.Data() else []
  }

  predicate Active(R: Runner) {
    R.stage != HeadKnown && R.stage != Halted
  }

  /** Some collector has passed its re-HEAD of p and is about to delete it. */
  predicate Doomed(s: State, p: Pack) {
    exists r :: r in s.runners && s.runners[r].stage != Halted && s.runners[r].doomed == Some(p)
  }

  /** What every build leaves: a manifest that stands for its payload, cut at fixed offsets. */
  predicate WellFormedPayload(b: Payload) {
    b.Chunked? ==> Chunk.WellFormed(b.manifest) && Chunk.CutAtOffsets(b.manifest)
  }

  /** What the build step promises: every pack is novel or comes from the base manifest, which was readable. */
  predicate BuiltOn(s: State, target: nat, body: Payload, novel: set<Pack>) {
    match body
    case Whole(_) => novel == {}
    case Chunked(m) =>
      && target > 0 && target - 1 in s.markers
      && var base := KeyOf(s, target - 1);
         && (s.markers[target - 1].chunked ==> base in s.live)
         && novel <= m.Packs() <= novel + PacksOf(s, base)
  }

  function PlanOf(R: Runner): PackSweep.Plan {
    PackSweep.Decide(R.marked, R.refs, R.metas, R.cold, R.now, R.grace, PackSweep.DEFAULT_MAX_DELETE_FRACTION)
  }

  predicate FenceHolds(s: State, ref: LedgerRef) {
    match ref
    case RefAbsent => s.ledger.NoLedger?
    case RefCorrupt => true
    case RefAt(e) => s.ledger.LedgerObject? && s.ledger.etag == e
  }

  function CurrentKey(ph: Phase): Option<Key> {
    match ph
    case Creating(a, _) => Some(a.key)
    case Won(k) => Some(k)
    case Unknown(k) => Some(k)
    case Stopped(k) => k
    case _ => None
  }

  // --- guards and effects ----------------------------------------------------------

  predicate StoreEnabled(s: State, x: StoreEvent) {
    match x
    case Deliver(k) => k in s.sent && k !in s.live
    case Land(k) => k in s.proposed && k.gen !in s.markers
    case _ => true
  }

  function FirstPut(s: State, p: Pack): map<Pack, nat> {
    if p in s.firstPut then s.firstPut else s.firstPut[p := s.clock]
  }

  function DoStore(s: State, x: StoreEvent): State
    requires StoreEnabled(s, x)
  {
    match x
    case Tick(d) => s.(clock := s.clock + d)
    case StrayPut(p) => s.(packs := s.packs[p := s.clock], firstPut := FirstPut(s, p))
    case CorruptLedger => s.(ledger := LedgerObject(s.etags + 1, None), etags := s.etags + 1)
    case Deliver(k) => s.(landed := s.landed + {k}, live := s.live + {k})
    case Land(k) => s.(markers := s.markers[k.gen := Marker(k.id, k in s.sent && s.sent[k].body.Chunked?)])
  }

  predicate WriterEnabled(s: State, w: nat, u: WriterEvent) {
    if u.Begin? || u.Bootstrap? then w !in s.writers
    else w in s.writers && PhaseEnabled(s, s.writers[w].phase, u)
  }

  predicate PhaseEnabled(s: State, ph: Phase, u: WriterEvent) {
    match u
    case Fetch(g) => ph.Idle? && g in s.markers
    case Plan(id, body, novel) =>
      ph.Based? && id !in s.used && body.Data() == ph.work && WellFormedPayload(body)
          && BuiltOn(s, ph.target, body, novel)
    case PutPack(p) => ph.Publishing? && p in ph.a.novel - ph.a.put
    case Refresh(p) => ph.Publishing? && ph.a.put == ph.a.novel && p in ph.a.novel - ph.a.refreshed.Keys
    case Check(p) =>
      ph.Publishing? && ph.a.put == ph.a.novel && p in ph.a.body.Packs() - ph.a.novel - ph.a.checked && p in s.packs
    case Send =>
      && ph.Publishing? && ph.a.put == ph.a.novel && ph.a.refreshed.Keys == ph.a.novel
      && ph.a.checked == ph.a.body.Packs() - ph.a.novel
    case Ack => ph.Sent? && ph.a.key in s.landed
    case Drop => ph.Sent? && ph.a.key !in s.live
    case Propose => ph.Landed?
    case Win => ph.Creating? && IsCommitted(s, ph.a.key)
    case Absent => ph.Creating? && ph.a.key.gen !in s.markers
    case Lose => ph.Creating? && IsLost(s, ph.a.key)
    case Quit => !ph.Won? && !ph.Aborted? && !ph.Unknown?
    case _ => false
  }

  function Retry(W: Writer, ph: Phase): Writer {
    W.(attempt := W.attempt + 1, phase := ph)
  }

  /** The acting writer's own record after the event. */
  function WriterAfter(c: Config, s: State, w: nat, u: WriterEvent): Writer
    requires WriterEnabled(s, w, u)
  {
    if u.Begin? then Writer(u.changes, u.policy, u.maxAttempts, 0, false, Idle)
    else if u.Bootstrap? then Writer([], Rebase.AbortAll, u.maxAttempts, 0, false, Based(0, u.data))
    else WriterMoves(c, s, w, s.writers[w], u)
  }

  function WriterMoves(c: Config, s: State, w: nat, W: Writer, u: WriterEvent): Writer
    requires PhaseEnabled(s, W.phase, u)
  {
    match u
    case Fetch(g) => W.(phase := Based(g + 1, c.Run(W.changes, DataAt(s, g))))
    case Plan(id, body, novel) =>
      W.(phase := Publishing(Attempt(w, Key(W.phase.target, id), body, novel, {}, map[], {}, {})))
    case PutPack(p) => W.(phase := Publishing(W.phase.a.(put := W.phase.a.put + {p})))
    case Refresh(p) =>
      W.(phase := Publishing(W.phase.a.(refreshed := W.phase.a.refreshed[p := s.clock],
                                        clean := if Doomed(s, p) then W.phase.a.clean else W.phase.a.clean + {p})))
    case Check(p) => W.(phase := Publishing(W.phase.a.(checked := W.phase.a.checked + {p})))
    case Send => W.(phase := Sent(W.phase.a))
    case Ack => W.(phase := Landed(W.phase.a))
    case Drop =>
      if W.attempt + 1 >= W.maxAttempts then W.(phase := Aborted)
      else Retry(W, Based(W.phase.a.key.gen, W.phase.a.body.Data()))
    case Propose => W.(phase := Creating(W.phase.a, 0))
    case Win => W.(phase := Won(W.phase.a.key))
    case Absent =>
      if W.attempt + W.phase.tries + 1 >= W.maxAttempts then W.(phase := Unknown(W.phase.a.key))
      else W.(phase := Creating(W.phase.a, W.phase.tries + 1))
    case Lose =>
      if Rebase.DecideRebase(W.changes, W.policy, W.attempt + 1, W.maxAttempts).Replay?
      then Retry(W, Idle).(replayed := true)
      else W.(phase := Aborted)
    case Quit => W.(phase := Stopped(CurrentKey(W.phase)))
  }

  /** What the event writes outside the acting writer's record. */
  function WriterWrites(s: State, w: nat, u: WriterEvent): State
    requires WriterEnabled(s, w, u)
  {
    match u
    case Plan(id, _, _) => s.(used := s.used[id := w])
    case PutPack(p) => s.(packs := if p in s.packs then s.packs else s.packs[p := s.clock], firstPut := FirstPut(s, p))
    case Refresh(p) => s.(packs := s.packs[p := s.clock], firstPut := FirstPut(s, p))
    case Send => s.(sent := s.sent[s.writers[w].phase.a.key := s.writers[w].phase.a])
    case Drop => s.(dropped := s.dropped + {s.writers[w].phase.a.key})
    case Propose => s.(proposed := s.proposed + {s.writers[w].phase.a.key})
    case Quit => if s.writers[w].phase.Sent? then s.(dropped := s.dropped + {s.writers[w].phase.a.key}) else s
    case _ => s
  }

  function DoWriter(c: Config, s: State, w: nat, u: WriterEvent): State
    requires WriterEnabled(s, w, u)
  {
    WriterWrites(s, w, u).(writers := s.writers[w := WriterAfter(c, s, w, u)])
  }

  predicate GcEnabled(c: Config, s: State, r: nat, v: GcEvent) {
    if v.GcBegin? then r !in s.runners && v.retain >= c.retain && v.grace >= c.grace && v.head in s.markers
    else r in s.runners && StageEnabled(s, s.runners[r], v)
  }

  predicate StageEnabled(s: State, R: Runner, v: GcEvent) {
    match v
    case List => R.stage == HeadKnown && R.head in s.markers && KeyOf(s, R.head) in s.live
    case Sweep(k) => R.stage == PayloadsListed && k in R.expired
    case ListPacks => R.stage == PayloadsListed
    case Peek(k) => R.stage == PacksListed && R.peek.None? && k in R.pending
    case Resolve(_) => R.stage == PacksListed && R.peek.Some?
    case Rehead(p) => MarksDone(R) && p in R.refs && p !in R.metas && p in s.packs
    case ReadLedger => MarksDone(R)
    case ReadClock => R.stage == LedgerRead
    case CommitLedger => R.stage == Clocked && PlanOf(R).SweepActions? && FenceHolds(s, R.ref)
    case Recheck => R.stage == Committed
    case HeadPack(p) => R.stage == Rechecked && R.doomed.None? && p in R.todo
    case Delete => R.stage == Rechecked && R.doomed.Some?
    case Halt => true
    case _ => false
  }

  predicate MarksDone(R: Runner) {
    R.stage == PacksListed && R.pending == {} && R.peek.None?
  }

  function RunnerAfter(c: Config, s: State, r: nat, v: GcEvent): Runner
    requires GcEnabled(c, s, r, v)
  {
    if v.GcBegin? then
      Runner(HeadKnown, v.retain, v.grace, v.head, 0, {}, {}, map[], {}, None, {}, {}, map[], RefAbsent, 0, 0, {}, 0,
             None)
    else RunnerMoves(s, s.runners[r], v)
  }

  function RunnerMoves(s: State, R: Runner, v: GcEvent): Runner
    requires StageEnabled(s, R, v)
  {
    match v
    case List => Listing(s, R)
    case Sweep(_) => R
    case ListPacks => R.(stage := PacksListed, metas := map p | p in s.packs :: Some(s.packs[p]))
    case Peek(k) => R.(peek := Some((k, k.gen in s.markers)))
    case Resolve(junk) => Resolved(s, R, junk)
    case Rehead(p) => R.(metas := R.metas[p := Some(s.packs[p])])
    case ReadLedger => R.(stage := LedgerRead, cold := LedgerRows(s.ledger), ref := LedgerRefOf(s.ledger))
    case ReadClock => R.(stage := Clocked, now := s.clock)
    case CommitLedger => R.(stage := Committed, cycle := |s.cycles|, todo := PlanOf(R).delete)
    case Recheck => R.(stage := Rechecked, recheck := s.clock)
    case HeadPack(p) =>
      R.(todo := R.todo - {p}, doomed := if p in s.packs && R.recheck - s.packs[p] > R.grace then Some(p) else None)
    case Delete => R.(doomed := None)
    case Halt => R.(stage := Halted)
  }

  function RunnerWrites(c: Config, s: State, r: nat, v: GcEvent): State
    requires GcEnabled(c, s, r, v)
  {
    match v
    case Sweep(k) => s.(live := s.live - {k})
    case CommitLedger => WithLedger(s, s.runners[r])
    case Delete => s.(packs := s.packs - {s.runners[r].doomed.value})
    case _ => s
  }

  function DoRunner(c: Config, s: State, r: nat, v: GcEvent): State
    requires GcEnabled(c, s, r, v)
  {
    RunnerWrites(c, s, r, v).(runners := s.runners[r := RunnerAfter(c, s, r, v)])
  }

  /** An absent or corrupt ledger reads as no tombstones at all. */
  function LedgerRows(l: Ledger): map<Pack, nat> {
    if l.LedgerObject? && l.rows.Some? then l.rows.value else map[]
  }

  function LedgerRefOf(l: Ledger): LedgerRef {
    if l.NoLedger? then RefAbsent else if l.rows.None? then RefCorrupt else RefAt(l.etag)
  }

  /** The payload listing, split at the retention floor; the head's own payload is always kept. */
  function Listing(s: State, R: Runner): Runner
    requires R.head in s.markers
  {
    var kept := set k | k in s.live && (k == KeyOf(s, R.head) || k.gen >= R.head - R.retain + 1);
    R.(stage := PayloadsListed, listedAt := s.clock, kept := kept, expired := s.live - kept, pending := kept)
  }

  /** The commit point: the fenced ledger write, before any delete. */
  function WithLedger(s: State, R: Runner): State
    requires PlanOf(R).SweepActions?
  {
    var rows := PackSweep.NewRows(PlanOf(R), R.metas, R.cold, R.now);
    s.(ledger := LedgerObject(s.etags + 1, Some(rows)), etags := s.etags + 1,
       cycles := s.cycles + [Cycle(R.ref, R.cold, R.now, R.metas, R.marked, R.grace, rows, s.etags + 1)])
  }

  /** Marker first, then the payload: a committed manifest that cannot be read refuses, a vanished orphan is skipped. */
  function Resolved(s: State, R: Runner, junk: set<Pack>): Runner
    requires R.peek.Some?
  {
    var (k, saw) := R.peek.value;
    var rest := R.(peek := None, pending := R.pending - {k});
    if saw && IsCommitted(s, k) then
      if !s.markers[k.gen].chunked then rest
      else if k in s.live then rest.(marked := R.marked + PacksOf(s, k), refs := R.refs + PacksOf(s, k))
      else R.(stage := Halted)
    else if k !in s.live then rest
    else if k in s.sent && s.sent[k].body.Chunked? then rest.(marked := R.marked + PacksOf(s, k))
    else rest.(marked := R.marked + junk)  // opaque bytes, which at worst happen to parse as some manifest
  }

  // --- runs ------------------------------------------------------------------------

  predicate Enabled(c: Config, s: State, e: Event) {
    match e
    case Store(x) => StoreEnabled(s, x)
    case Writing(w, u) => WriterEnabled(s, w, u)
    case Collecting(r, v) => GcEnabled(c, s, r, v)
  }

  function Do(c: Config, s: State, e: Event): State
    requires Enabled(c, s, e)
  {
    match e
    case Store(x) => DoStore(s, x)
    case Writing(w, u) => DoWriter(c, s, w, u)
    case Collecting(r, v) => DoRunner(c, s, r, v)
  }

  /** A finite run from the empty bucket: states and the events between them. */
  ghost predicate IsRun(c: Config, ss: seq<State>, es: seq<Event>) {
    && |ss| == |es| + 1
    && ss[0] == Empty
    && forall i :: 0 <= i < |es| ==> StepAt(c, ss, es, i)
  }

  /** Event i leads from state i to the next. */
  ghost predicate StepAt(c: Config, ss: seq<State>, es: seq<Event>, i: nat)
    requires i < |es| && |ss| == |es| + 1
  {
    Enabled(c, ss[i], es[i]) && ss[i + 1] == Do(c, ss[i], es[i])
  }

  // --- the time assumptions of pack safety ---------------------------------------

  /** Defense 1: the pack was re-PUT outside any re-HEAD/DELETE window, at most `gap` before the manifest lands. */
  predicate FreshlyRefreshed(c: Config, s: State, a: Attempt, p: Pack) {
    p in a.clean && p in a.refreshed && s.clock <= a.refreshed[p] + c.gap
  }

  /** Defense 2: the pack came into being so recently that no tombstone for it can have aged a full grace. */
  predicate NewlyBorn(c: Config, s: State, p: Pack) {
    p in s.firstPut && s.clock + c.cycle <= s.firstPut[p] + 2 * c.grace
  }

  predicate TimelyDelivery(c: Config, s: State, k: Key) {
    k in s.sent && k !in s.dropped && k !in s.landed && k.gen !in s.markers ==>
      forall p :: p in s.sent[k].novel ==> FreshlyRefreshed(c, s, s.sent[k], p) || NewlyBorn(c, s, p)
  }

  /** The payload about to be skipped as a vanished orphan was in fact committed after its marker was read. */
  predicate SkipsCommitted(s: State, R: Runner) {
    R.peek.Some? && var (k, saw) := R.peek.value; !saw && k !in s.live && IsCommitted(s, k)
  }

  /**
   * What pack safety asks of the environment, and nothing else:
   * - a manifest that can still become a generation, and whose writer still waits for it, lands while each of its novel
   *   packs has one defense standing;
   * - a collector gets from its listing to its recheck within `cycle`;
   * - no collector skips, as a vanished orphan, a payload that was committed behind its back and already swept.
   */
  predicate Timely(c: Config, s: State, e: Event) {
    Punctual(c, s, e) && (e.Collecting? && e.v.Resolve? && e.r in s.runners ==> !SkipsCommitted(s, s.runners[e.r]))
  }

  /** The first two of them, which are about time. */
  predicate Punctual(c: Config, s: State, e: Event) {
    match e
    case Store(Deliver(k)) => TimelyDelivery(c, s, k)
    case Collecting(r, Recheck) => r in s.runners ==> s.clock <= s.runners[r].listedAt + c.cycle
    case _ => true
  }

  ghost predicate IsTimelyRun(c: Config, ss: seq<State>, es: seq<Event>) {
    IsRun(c, ss, es) && forall i :: 0 <= i < |es| ==> TimelyAt(c, ss, es, i)
  }

  ghost predicate TimelyAt(c: Config, ss: seq<State>, es: seq<Event>, i: nat)
    requires i < |es| && i < |ss|
  {
    Timely(c, ss[i], es[i])
  }
}

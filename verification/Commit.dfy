/**
 * The commit loop as it runs in one writer: plan, upload packs, refresh and check them, upload the payload, create the
 * marker, find out what became of it, and replay or abort. Rivals, collectors and this writer's own late PUTs act
 * between any two store operations.
 */
module Commit {
  import opened Wrappers
  import opened Lake
  import opened LakeActors
  import opened LakeBucket
  import Root
  import Chunk
  import Rebase
  import BuildManifest
  import LakeCommit
  import LakeTheorems
  import LakeTransport

  /** When payloads are chunked, None meaning never, and how large packs become. */
  datatype TransportPolicy = TransportPolicy(chunkThreshold: Option<nat>, packTarget: nat)

  /**
   * `attempts` counts payload uploads. An abort follows a lost generation, or uploads that kept failing;
   * UnknownOutcome is the error of running out of marker creates; Raised stands for every other error, and `pending`
   * is the payload whose marker create it left undecided.
   */
  datatype CommitOutcome =
    | Committed(key: Key, attempts: nat)
    | ConflictAbort(attempts: nat, lost: bool)
    | UnknownOutcome(key: Key, attempts: nat)
    | Raised(cause: Cause, pending: Option<Key>)

  // --- why a run stops -----------------------------------------------------------------------------------

  datatype Cause =
    | RequestFailed
    | NoRoom
    | ManifestGone(base: nat)
    | PackGone(base: nat, pack: Pack)
    | HeadsVanished(heads: seq<nat>)

  /** Generation g cannot be fetched: its payload, or a pack it references, is not there. */
  predicate Unreadable(s: State, g: nat) {
    g in s.markers && (KeyOf(s, g) !in s.live || !(PacksOf(s, KeyOf(s, g)) <= s.packs.Keys))
  }

  /**
   * A request failed, or generation g is the last that can be named, or what is missing now is its manifest or one of
   * the packs it references.
   */
  predicate LostBase(s: State, faulty: bool, g: int, x: Cause) {
    match x
    case RequestFailed => faulty
    case NoRoom => g >= MAX_GENERATION
    case ManifestGone(h) => h == g && h in s.markers && s.markers[h].chunked && KeyOf(s, h) !in s.live
    case PackGone(h, p) => h == g && h in s.markers && p in PacksOf(s, KeyOf(s, h)) && p !in s.packs
    case HeadsVanished(_) => false
  }

  ghost predicate Vanished(states: seq<State>, from: nat, g: nat) {
    exists i :: from <= i < |states| && Unreadable(states[i], g)
  }

  /** What head resolution returned could not be fetched. */
  ghost predicate VanishedHead(states: seq<State>, hints: set<nat>, from: nat, g: nat) {
    Vanished(states, from, g) && Root.HeadSince(states, hints, from, g)
  }

  /** ... or each of n heads in turn could not be fetched at some moment since state `from`. */
  ghost predicate Caused(states: seq<State>, hints: set<nat>, faulty: bool, from: nat, n: nat, x: Cause)
    requires states != []
  {
    match x
    case HeadsVanished(heads) => |heads| == n && forall g :: g in heads ==> VanishedHead(states, hints, from, g)
    case RequestFailed => faulty
    case NoRoom => MAX_GENERATION in states[|states| - 1].markers
    case _ => LostBase(states[|states| - 1], faulty, x.base, x)
  }

  lemma UnreadableIsOld(c: Config, ss: seq<State>, es: seq<Event>, i: nat, g: nat)
    requires IsRun(c, ss, es) && i < |ss| && Unreadable(ss[i], g)
    ensures KeyOf(ss[i], g) !in ss[i].live ==> g + c.retain < Top(ss[i])
    ensures c.Valid() && IsTimelyRun(c, ss, es) ==> g + c.retain < Top(ss[i])
  {
    LakeTheorems.MarkersDenseAndForever(c, ss, es, i, i);
    if g + c.retain >= Top(ss[i]) {
      LakeTheorems.WindowIsRetained(c, ss, es, i, g);
      if c.Valid() && IsTimelyRun(c, ss, es) {
        var p :| p in PacksOf(ss[i], KeyOf(ss[i], g)) && p !in ss[i].packs;
        LakeTheorems.PackSafety(c, ss, es, i, g, p);
      }
    }
  }

  /**
   * Without failing requests a run of the loop only stops because it is too slow for the retention: the base whose
   * manifest is gone has left the window, and in a timely run so has one whose pack is gone, and so has every head that
   * vanished; unless a hint far behind led to that head, at least `retain` generations landed during the call.
   */
  lemma OnlyTheSlowAreStopped(c: Config, ss: seq<State>, es: seq<Event>, hints: set<nat>, faulty: bool, from: nat,
                              n: nat, x: Cause)
    requires IsRun(c, ss, es) && from < |ss| && Caused(ss, hints, faulty, from, n, x)
    ensures x.RequestFailed? ==> faulty
    ensures x.NoRoom? ==> MAX_GENERATION in ss[|es|].markers
    ensures x.ManifestGone? ==> x.base + c.retain < Top(ss[|es|])
    ensures c.Valid() && IsTimelyRun(c, ss, es) && x.PackGone? ==> x.base + c.retain < Top(ss[|es|])
    ensures c.Valid() && IsTimelyRun(c, ss, es) && x.HeadsVanished? ==>
              |x.heads| == n && forall g :: g in x.heads ==>
                && g + c.retain < Top(ss[|es|])
                && (Root.FarFromHint(hints, g) || Top(ss[from]) + c.retain <= Top(ss[|es|]))
  {
    match x {
      case RequestFailed =>
      case NoRoom =>
      case HeadsVanished(heads) =>
        if c.Valid() && IsTimelyRun(c, ss, es) {
          forall g | g in heads
            ensures g + c.retain < Top(ss[|es|])
            ensures Root.FarFromHint(hints, g) || Top(ss[from]) + c.retain <= Top(ss[|es|])
          {
            assert VanishedHead(ss, hints, from, g);
            VanishedIsOld(c, ss, es, from, g);
          }
        }
      case _ => UnreadableIsOld(c, ss, es, |es|, x.base);
    }
  }

  lemma VanishedIsOld(c: Config, ss: seq<State>, es: seq<Event>, from: nat, g: nat)
    requires c.Valid() && IsTimelyRun(c, ss, es) && from < |ss| && Vanished(ss, from, g)
    ensures g + c.retain < Top(ss[|es|])
    ensures Root.WasHead(ss, from, g) ==> Top(ss[from]) + c.retain <= Top(ss[|es|])
  {
    var i :| from <= i < |ss| && Unreadable(ss[i], g);
    UnreadableIsOld(c, ss, es, i, g);
    LakeTheorems.TopGrows(c, ss, es, i, |es|);
    if Root.WasHead(ss, from, g) {
      var k: nat :| from <= k < |ss| && Top(ss[k]) == g + 1;
      LakeTheorems.TopGrows(c, ss, es, from, k);
    }
  }

  // --- what an outcome means -------------------------------------------------------------------------

  /** The record of a writer whose run of the loop ended this way. */
  predicate Reached(W: Writer, o: CommitOutcome) {
    match o
    case Committed(k, n) => W.phase == Won(k) && n == W.attempt + 1
    case ConflictAbort(n, _) => W.phase == Aborted && n == W.attempt + 1
    case UnknownOutcome(k, n) => W.phase == Unknown(k) && n == W.attempt + 1
    case Raised(_, pending) => W.phase == Stopped(pending)
  }

  /** Every marker create of writer w but k is dead: someone else has that generation for good. */
  ghost predicate OthersLost(s: State, w: nat, k: Option<Key>) {
    forall j :: j in s.proposed && j in s.sent && s.sent[j].owner == w && k != Some(j) ==> IsLost(s, j)
  }

  /** What the outcome says about the bucket. */
  ghost predicate Settled(c: Config, s: State, w: nat, o: CommitOutcome)
    requires w in s.writers
  {
    match o
    case Committed(k, _) =>
      && IsCommitted(s, k) && OthersLost(s, w, Some(k)) && k in s.sent && s.sent[k].owner == w
      && (k.gen > 0 ==> DataAt(s, k.gen) == c.Run(s.writers[w].changes, DataAt(s, k.gen - 1)))
    case ConflictAbort(_, _) => OthersLost(s, w, None)
    case UnknownOutcome(k, _) => OthersLost(s, w, Some(k))
    case Raised(_, pending) => OthersLost(s, w, pending)
  }

  lemma ReachedIsSettled(c: Config, s: State, w: nat, o: CommitOutcome)
    requires LakeCommit.Inv(c, s) && w in s.writers && Reached(s.writers[w], o)
    ensures Settled(c, s, w, o)
  {
    assert LakeCommit.WriterOk(c, s, w);
    if o.Committed? { assert LakeCommit.DerivedOk(c, s, o.key); }
  }

  /** Every outcome means in every later state what it meant when it was returned. */
  lemma OutcomeStandsForever(c: Config, ss: seq<State>, es: seq<Event>, i: nat, j: nat, w: nat, o: CommitOutcome)
    requires IsRun(c, ss, es) && i <= j < |ss| && w in ss[i].writers && Reached(ss[i].writers[w], o)
    ensures w in ss[j].writers && Settled(c, ss[j], w, o)
  {
    LakeTheorems.TerminalForever(c, ss, es, i, j, w);
    LakeTheorems.RunKeepsInv(c, ss, es, j);
    ReachedIsSettled(c, ss[j], w, o);
  }

  predicate Replayable(changes: Rebase.Changeset, policy: Rebase.ConflictPolicy) {
    policy == Rebase.ReplayAll || Rebase.BlindAppendsOnly(changes)
  }

  /** An abort is due only when the rules refuse a replay of the lost attempt, or when the last upload failed. */
  predicate Due(W: Writer, o: CommitOutcome) {
    o.ConflictAbort? ==>
      if o.lost then !Rebase.DecideRebase(W.changes, W.policy, o.attempts, W.maxAttempts).Replay?
      else o.attempts >= W.maxAttempts
  }

  // --- planning ------------------------------------------------------------------------------------------

  /** This writer's record, as long as nobody else touches it. */
  function Mine(s: State, a: Actor): Writer
    requires a.AWriter? && a.id in s.writers
  {
    s.writers[a.id]
  }

  ghost predicate Ready(b: Bucket)
    reads b
  {
    b.Valid() && b.me.AWriter? && b.me.id in b.s.writers
  }

  /** About to publish `work` as generation `target`, whose predecessor is committed. */
  ghost predicate AtBase(s: State, W: Writer, target: nat, work: Bytes) {
    W.phase == Based(target, work) && target > 0 && target - 1 in s.markers
  }

  function NewAttempt(me: nat, target: nat, id: nat, body: Payload, novel: set<Pack>): Attempt {
    Attempt(me, Key(target, id), body, novel, {}, map[], {}, {})
  }

  method FreshId(used: set<nat>) returns (id: nat)
    ensures id !in used
  {
    id := 0;
    var rest := used;
    while rest != {}
      invariant forall u :: u in used && u !in rest ==> u < id
      decreases |rest|
    {
      var u :| u in rest;
      if u >= id { id := u + 1; }
      rest := rest - {u};
    }
  }

  /** Any other error: the loop stops where it is, which concerns nobody else. */
  method Raise(b: Bucket)
    requires Ready(b) && !Mine(b.s, b.me).phase.Won? && !Mine(b.s, b.me).phase.Aborted?
              && !Mine(b.s, b.me).phase.Unknown?
    modifies b
    ensures Ready(b) && b.Onward() && b.states == old(b.states) + [b.s] && b.hints == old(b.hints)
    ensures var W := Mine(old(b.s), b.me);
            && Mine(b.s, b.me) == W.(phase := Stopped(CurrentKey(W.phase)))
            && (W.phase.Sent? ==> W.phase.a.key in b.s.dropped)
    ensures b.s.markers == old(b.s).markers && b.s.live == old(b.s).live && b.s.packs == old(b.s).packs
    ensures b.s.sent == old(b.s).sent
  {
    QuitWrites(b.s, b.me.id);
    b.Write(Quit);
  }

  lemma QuitWrites(s: State, w: nat)
    requires WriterEnabled(s, w, Quit)
    ensures var t := WriterWrites(s, w, Quit);
            t.markers == s.markers && t.live == s.live && t.packs == s.packs && t.sent == s.sent
  {
  }

  lemma BaseIsReadable(c: Config, ss: seq<State>, es: seq<Event>, g: nat)
    requires IsRun(c, ss, es) && g in ss[|es|].markers && ss[|es|].markers[g].chunked
    ensures var s := ss[|es|];
            KeyOf(s, g) in s.sent && s.sent[KeyOf(s, g)].body.Chunked?
                && WellFormedPayload(s.sent[KeyOf(s, g)].body)
  {
    LakeTheorems.RunKeepsInv(c, ss, es, |es|);
    assert LakeCommit.SentOk(ss[|es|], KeyOf(ss[|es|], g));
  }

  /** The base's manifest as dedup source, if the base is chunked. */
  ghost predicate BaseOf(s: State, target: nat, base: Option<Chunk.Manifest>) {
    && target > 0 && target - 1 in s.markers
    && var k := KeyOf(s, target - 1);
       if s.markers[target - 1].chunked
       then k in s.live && k in s.sent && base.Some? && s.sent[k].body == Chunked(base.value)
           && Chunk.CutAtOffsets(base.value)
       else base.None?
  }

  /** Fails when the base's manifest is gone. */
  method ReadBase(b: Bucket, target: nat) returns (r: Result<Option<Chunk.Manifest>, Cause>)
    requires Ready(b) && target > 0 && target - 1 in b.s.markers
    ensures match r
            case Ok(base) => BaseOf(b.s, target, base)
            case Err(x) => LostBase(b.s, b.faulty, target - 1, x)
  {
    if !b.s.markers[target - 1].chunked { return Ok(None); }
    var fails: bool := *;
    if fails && b.faulty { return Err(RequestFailed); }
    BaseIsReadable(b.c, b.states, b.events, target - 1);
    var k := KeyOf(b.s, target - 1);
    if k !in b.s.live { return Err(ManifestGone(target - 1)); }
    return Ok(Some(b.s.sent[k].body.manifest));
  }

  /** A build of this work with this base as dedup source, at a chunk size that the base pins if it can. */
  ghost predicate BuiltFrom(work: Bytes, base: Option<Chunk.Manifest>, packTarget: nat, m: Chunk.Manifest,
                            novel: set<Pack>)
  {
    && (base.Some? ==> Chunk.CutAtOffsets(base.value))
    && exists packs :: BuiltAs(work, base, packTarget, m, packs) && novel == BuildManifest.Novel(packs)
  }

  ghost predicate BuiltAs(work: Bytes, base: Option<Chunk.Manifest>, packTarget: nat, m: Chunk.Manifest,
                          packs: seq<(Pack, Bytes)>)
  {
    && m.chunkSize > 0 && BuildManifest.LeastDoubling(|work|, BuildManifest.StartSize(base), m.chunkSize)
    && BuildManifest.Built(work, BuildManifest.BaseIndex(base, m.chunkSize), packTarget, m, packs)
  }

  /**
   * What is planned on a chunked base. The base pins the chunk size as long as the payload fits; then every chunk that
   * the base payload has on its grid is an entry of the base, and the novel packs hold exactly the other chunks, in
   * file order, with no pack closed early. The base payload itself ships nothing.
   */
  lemma PlanDedups(work: Bytes, base: Chunk.Manifest, packTarget: nat, m: Chunk.Manifest, novel: set<Pack>)
    requires BuiltFrom(work, Some(base), packTarget, m, novel)
    ensures m.chunkSize > 0
    ensures |work| <= base.chunkSize * BuildManifest.MAX_ENTRIES ==> m.chunkSize == base.chunkSize
    ensures m.chunkSize == base.chunkSize ==>
              var chunks, was := Chunk.Chunks(work, m.chunkSize), Chunk.Chunks(Chunk.Data(base), m.chunkSize);
              && |m.entries| == |chunks|
              && (forall i :: 0 <= i < |chunks| ==>
                    if chunks[i] in was then m.entries[i] in base.entries else m.entries[i].pack in novel)
              && BuildManifest.HoldExactly(novel, BuildManifest.FreshChunks(chunks, was, |chunks|), packTarget)
              && (work == Chunk.Data(base) ==> novel == {})
  {
    var packs :| BuiltAs(work, Some(base), packTarget, m, packs) && novel == BuildManifest.Novel(packs);
    if |work| <= base.chunkSize * BuildManifest.MAX_ENTRIES {
      BuildManifest.BasePinsSize(|work|, base, m.chunkSize);
    }
    if m.chunkSize == base.chunkSize { BuildManifest.DedupsOn(work, base, packTarget, m, packs); }
  }

  /** The payload for this work: raw below the threshold, else a manifest built on the base. */
  method MakePayload(b: Bucket, policy: TransportPolicy, target: nat, work: Bytes, base: Option<Chunk.Manifest>,
                     id: nat)
    returns (body: Payload, novel: set<Pack>)
    requires Ready(b) && AtBase(b.s, Mine(b.s, b.me), target, work) && BaseOf(b.s, target, base) && id !in b.s.used
    ensures WriterEnabled(b.s, b.me.id, Plan(id, body, novel)) && body.Data() == work
    ensures body.Chunked? <==> policy.chunkThreshold.Some? && |work| >= policy.chunkThreshold.value
    ensures if body.Chunked? then BuiltFrom(work, base, policy.packTarget, body.manifest, novel) else novel == {}
  {
    if policy.chunkThreshold.Some? && |work| >= policy.chunkThreshold.value {
      var m, packs := BuildManifest.BuildManifest(work, base, None, policy.packTarget);
      LakeTransport.BuildIsAPlan(b.s, Mine(b.s, b.me).phase, base, policy.packTarget, id, m, packs);
      BuildManifest.BuiltMeansPayload(work, base, policy.packTarget, m, packs);
      assert BuiltAs(work, base, policy.packTarget, m, packs);
      return Chunked(m), BuildManifest.Novel(packs);
    }
    return Whole(work), {};
  }

  /** The writer stopped by x while publishing on generation `base`, with no marker create of its own undecided. */
  ghost predicate StoppedOn(b: Bucket, W: Writer, base: int, x: Cause)
    requires Ready(b)
    reads b
  {
    Mine(b.s, b.me) == W.(phase := Stopped(None)) && LostBase(b.s, b.faulty, base, x)
  }

  /** Reads the base, cuts and packs the work, and draws an identifier. */
  method PlanPublish(b: Bucket, policy: TransportPolicy, target: nat, work: Bytes) returns (e: Option<Cause>)
    requires Ready(b) && AtBase(b.s, Mine(b.s, b.me), target, work)
    modifies b
    ensures Ready(b) && b.Onward()
    ensures match e
            case None =>
              && Mine(b.s, b.me) == Mine(old(b.s), b.me).(phase := Mine(b.s, b.me).phase)
              && Mine(b.s, b.me).phase.Publishing?
              && Planned(Mine(b.s, b.me).phase.a, b.me.id, target, work, policy)
              && BuiltOnBase(b.s, Mine(b.s, b.me).phase.a, target, work, policy) && target <= MAX_GENERATION
            case Some(x) => StoppedOn(b, Mine(old(b.s), b.me), target - 1, x)
  {
    ghost var i := |b.states| - 1;
    b.Interfere();
    LakeTheorems.MarkersStay(b.c, b.states, b.events, i, |b.events|);
    if target > MAX_GENERATION {
      Raise(b);
      return Some(NoRoom);
    }
    var base := ReadBase(b, target);
    if base.Err? {
      Raise(b);
      return Some(base.error);
    }
    MakePlan(b, policy, target, work, base.value);
    return None;
  }

  /** Draws an identifier, cuts and packs. */
  method MakePlan(b: Bucket, policy: TransportPolicy, target: nat, work: Bytes, base: Option<Chunk.Manifest>)
    requires Ready(b) && AtBase(b.s, Mine(b.s, b.me), target, work) && BaseOf(b.s, target, base)
    modifies b
    ensures Ready(b) && b.Onward()
    ensures Mine(b.s, b.me) == Mine(old(b.s), b.me).(phase := Mine(b.s, b.me).phase)
    ensures Mine(b.s, b.me).phase.Publishing?
    ensures Planned(Mine(b.s, b.me).phase.a, b.me.id, target, work, policy)
    ensures BuiltOnBase(b.s, Mine(b.s, b.me).phase.a, target, work, policy)
  {
    var id := FreshId(b.s.used.Keys);
    var body, novel := MakePayload(b, policy, target, work, base, id);
    PlanWrites(b.s, b.me.id, Plan(id, body, novel));
    BaseIsManifest(b.s, target, base);
    b.Write(Plan(id, body, novel));
  }

  lemma PlanWrites(s: State, w: nat, u: WriterEvent)
    requires WriterEnabled(s, w, u) && u.Plan?
    ensures var t := WriterWrites(s, w, u); t.markers == s.markers && t.sent == s.sent
  {
  }

  lemma BaseIsManifest(s: State, target: nat, base: Option<Chunk.Manifest>)
    requires BaseOf(s, target, base)
    ensures BaseManifest(s, target) == base
  {
  }

  /** The attempt's payload is built on the base of this very generation; a raw one has no packs. */
  ghost predicate BuiltOnBase(s: State, a: Attempt, target: nat, work: Bytes, policy: TransportPolicy) {
    && target > 0 && target - 1 in s.markers
    && if a.body.Chunked?
       then BuiltFrom(work, BaseManifest(s, target), policy.packTarget, a.body.manifest, a.novel)
       else a.novel == {}
  }

  ghost function BaseManifest(s: State, target: nat): Option<Chunk.Manifest>
    requires target > 0 && target - 1 in s.markers
  {
    var k := KeyOf(s, target - 1);
    if s.markers[target - 1].chunked && k in s.sent && s.sent[k].body.Chunked? then Some(s.sent[k].body.manifest)
    else None
  }

  /** A fresh attempt at this generation, chunked exactly when the policy says so, that stands for the work. */
  predicate Planned(a: Attempt, me: nat, target: nat, work: Bytes, policy: TransportPolicy) {
    && a == NewAttempt(me, target, a.key.id, a.body, a.novel) && a.body.Data() == work
    && (a.body.Chunked? <==> policy.chunkThreshold.Some? && |work| >= policy.chunkThreshold.value)
  }

  // --- packs ---------------------------------------------------------------------------------------------------

  /** The writer with this attempt under way. */
  function Publisher(W: Writer, a: Attempt): Writer {
    W.(phase := Publishing(a))
  }

  /** Create-only uploads of all novel packs. */
  method PutPacks(b: Bucket, ghost W: Writer, ghost a: Attempt) returns (e: Option<Cause>)
    requires Ready(b) && Mine(b.s, b.me) == Publisher(W, a) && a.put == {}
    modifies b
    ensures Ready(b) && b.Onward()
    ensures match e
            case None => Mine(b.s, b.me) == Publisher(W, a.(put := a.novel))
            case Some(x) => StoppedOn(b, W, a.key.gen - 1, x)
  {
    var todo := Mine(b.s, b.me).phase.a.novel;
    ghost var put: set<Pack> := {};
    while todo != {}
      invariant Ready(b) && b.Onward()
      invariant Mine(b.s, b.me) == Publisher(W, a.(put := put)) && Split(a.novel, todo, put)
      decreases |todo|
    {
      var p :| p in todo;
      e := PutOne(b, W, a, put, p);
      if e.Some? { return; }
      todo, put := todo - {p}, put + {p};
    }
    assert put == a.novel;
    e := None;
  }

  ghost predicate Split(all: set<Pack>, todo: set<Pack>, done: set<Pack>) {
    todo !! done && forall p :: p in all <==> p in todo || p in done
  }

  method PutOne(b: Bucket, ghost W: Writer, ghost a: Attempt, ghost put: set<Pack>, p: Pack) returns (e: Option<Cause>)
    requires Ready(b) && Mine(b.s, b.me) == Publisher(W, a.(put := put)) && p in a.novel - put
    modifies b
    ensures Ready(b) && b.Onward()
    ensures match e
            case None => Mine(b.s, b.me) == Publisher(W, a.(put := put + {p}))
            case Some(x) => StoppedOn(b, W, a.key.gen - 1, x)
  {
    b.Interfere();
    var fails: bool := *;
    if fails && b.faulty {
      Raise(b);
      return Some(RequestFailed);
    }
    b.Write(PutPack(p));
    return None;
  }

  /** The attempt with its refreshes so far. */
  function Refreshing(a: Attempt, refreshed: map<Pack, nat>, clean: set<Pack>): Attempt {
    a.(refreshed := refreshed, clean := clean)
  }

  /** Every novel pack is overwritten, so that its modification time is young when the manifest goes out. */
  method RefreshPacks(b: Bucket, ghost W: Writer, ghost a: Attempt) returns (e: Option<Cause>, ghost a': Attempt)
    requires Ready(b) && Mine(b.s, b.me) == Publisher(W, a) && a.put == a.novel && a.refreshed == map[]
    modifies b
    ensures Ready(b) && b.Onward()
    ensures a' == Refreshing(a, a'.refreshed, a'.clean)
    ensures match e
            case None => Mine(b.s, b.me) == Publisher(W, a') && a'.refreshed.Keys == a.novel
            case Some(x) => StoppedOn(b, W, a.key.gen - 1, x)
  {
    var todo := Mine(b.s, b.me).phase.a.novel;
    a' := a;
    while todo != {}
      invariant Ready(b) && b.Onward()
      invariant Mine(b.s, b.me) == Publisher(W, a') && a' == Refreshing(a, a'.refreshed, a'.clean)
      invariant Split(a.novel, todo, a'.refreshed.Keys)
      decreases |todo|
    {
      var p :| p in todo;
      e, a' := RefreshOne(b, W, a', p);
      if e.Some? { return; }
      todo := todo - {p};
    }
    e := None;
  }

  method RefreshOne(b: Bucket, ghost W: Writer, ghost a: Attempt, p: Pack)
    returns (e: Option<Cause>, ghost a': Attempt)
    requires Ready(b) && Mine(b.s, b.me) == Publisher(W, a) && a.put == a.novel && p in a.novel - a.refreshed.Keys
    modifies b
    ensures Ready(b) && b.Onward()
    ensures a' == Refreshing(a, a'.refreshed, a'.clean)
    ensures match e
            case None => Mine(b.s, b.me) == Publisher(W, a') && a'.refreshed.Keys == a.refreshed.Keys + {p}
            case Some(x) => StoppedOn(b, W, a.key.gen - 1, x)
  {
    b.Interfere();
    a' := a;
    var fails: bool := *;
    if fails && b.faulty {
      Raise(b);
      return Some(RequestFailed), a';
    }
    b.Write(Refresh(p));
    a' := Mine(b.s, b.me).phase.a;
    return None, a';
  }

  /** Every inherited pack must be there now; one that is not stops the commit. */
  method CheckPacks(b: Bucket, ghost W: Writer, ghost a: Attempt) returns (e: Option<Cause>)
    requires Ready(b) && Mine(b.s, b.me) == Publisher(W, a) && a.put == a.novel && a.checked == {}
    modifies b
    ensures Ready(b) && b.Onward()
    ensures match e
            case None => Mine(b.s, b.me) == Publisher(W, a.(checked := a.body.Packs() - a.novel))
            case Some(x) => StoppedOn(b, W, a.key.gen - 1, x)
  {
    var todo := Mine(b.s, b.me).phase.a.body.Packs() - Mine(b.s, b.me).phase.a.novel;
    ghost var checked: set<Pack> := {};
    while todo != {}
      invariant Ready(b) && b.Onward()
      invariant Mine(b.s, b.me) == Publisher(W, a.(checked := checked))
                && Split(a.body.Packs() - a.novel, todo, checked)
      decreases |todo|
    {
      var p :| p in todo;
      e := CheckOne(b, W, a, checked, p);
      if e.Some? { return; }
      todo, checked := todo - {p}, checked + {p};
    }
    assert checked == a.body.Packs() - a.novel;
    e := None;
  }

  /** An inherited pack is the base's. */
  lemma InheritedIsBases(c: Config, ss: seq<State>, es: seq<Event>, w: nat, p: Pack)
    requires IsRun(c, ss, es) && w in ss[|es|].writers && ss[|es|].writers[w].phase.Publishing?
    requires p in ss[|es|].writers[w].phase.a.body.Packs() - ss[|es|].writers[w].phase.a.novel
    ensures var s, g := ss[|es|], ss[|es|].writers[w].phase.a.key.gen;
            g > 0 && g - 1 in s.markers && p in PacksOf(s, KeyOf(s, g - 1))
  {
    LakeTheorems.RunKeepsInv(c, ss, es, |es|);
    InheritedIsBasesIn(c, ss[|es|], w, p);
  }

  lemma InheritedIsBasesIn(c: Config, s: State, w: nat, p: Pack)
    requires LakeCommit.Writers(c, s) && w in s.writers && s.writers[w].phase.Publishing?
    requires p in s.writers[w].phase.a.body.Packs() - s.writers[w].phase.a.novel
    ensures var g := s.writers[w].phase.a.key.gen; g > 0 && g - 1 in s.markers && p in PacksOf(s, KeyOf(s, g - 1))
  {
    assert LakeCommit.WriterOk(c, s, w);
  }

  method CheckOne(b: Bucket, ghost W: Writer, ghost a: Attempt, ghost checked: set<Pack>, p: Pack)
    returns (e: Option<Cause>)
    requires Ready(b) && Mine(b.s, b.me) == Publisher(W, a.(checked := checked)) && a.put == a.novel
    requires p in a.body.Packs() - a.novel - checked
    modifies b
    ensures Ready(b) && b.Onward()
    ensures match e
            case None => Mine(b.s, b.me) == Publisher(W, a.(checked := checked + {p}))
            case Some(x) => StoppedOn(b, W, a.key.gen - 1, x)
  {
    b.Interfere();
    InheritedIsBases(b.c, b.states, b.events, b.me.id, p);
    var base := Mine(b.s, b.me).phase.a.key.gen - 1;
    var fails: bool := *;
    if (fails && b.faulty) || p !in b.s.packs {
      e := Some(if p in b.s.packs then RequestFailed else PackGone(base, p));
      Raise(b);
      return;
    }
    b.Write(Check(p));
    return None;
  }

  // --- the payload -------------------------------------------------------------------------------------------

  datatype PublishOutcome = Published | NotLanded | GivenUp | Broken(cause: Cause)

  /** Everything an upload of this attempt must have done before. */
  ghost predicate Prepared(a: Attempt) {
    a.put == a.novel && a.refreshed.Keys == a.novel && a.checked == a.body.Packs() - a.novel
  }

  lemma LiveHasLanded(c: Config, ss: seq<State>, es: seq<Event>)
    requires IsRun(c, ss, es)
    ensures ss[|es|].live <= ss[|es|].landed
  {
    LakeTheorems.RunKeepsInv(c, ss, es, |es|);
  }

  /** The writer after an upload that did not land. */
  function NotThere(W: Writer, a: Attempt): Writer {
    if W.attempt + 1 >= W.maxAttempts then W.(phase := Aborted) else Retry(W, Based(a.key.gen, a.body.Data()))
  }

  datatype Upload = Arrived | Missed | NoAnswer

  /**
   * Create-only PUT of the payload; an ambiguous outcome is settled by one GET. The PUT may be answered by an error and
   * still land, and the GET may fail: then the loop stops.
   */
  method PutPayload(b: Bucket, ghost W: Writer, ghost a: Attempt) returns (u: Upload)
    requires Ready(b) && Mine(b.s, b.me) == Publisher(W, a) && Prepared(a)
    modifies b
    ensures Ready(b) && b.Onward()
    ensures match u
            case Arrived => Mine(b.s, b.me) == W.(phase := Landed(a))
            case Missed => Mine(b.s, b.me) == NotThere(W, a) && a.key in b.s.dropped
            case NoAnswer => Mine(b.s, b.me) == W.(phase := Stopped(None)) && a.key in b.s.dropped && b.faulty
    ensures b.quiet ==> u.Arrived?
  {
    b.Write(Send);
    LiveHasLanded(b.c, b.states, b.events);
    var answered := b.AwaitPut(Mine(b.s, b.me).phase.a.key);
    if Mine(b.s, b.me).phase.a.key in b.s.landed && answered {
      b.Write(Ack);
      return Arrived;
    }
    u := ResolveUpload(b, W, a);
  }

  /** The GET that settles an upload, or the error that ends it. */
  method ResolveUpload(b: Bucket, ghost W: Writer, ghost a: Attempt) returns (u: Upload)
    requires Ready(b) && Mine(b.s, b.me) == W.(phase := Sent(a))
    modifies b
    ensures Ready(b) && b.Onward()
    ensures match u
            case Arrived => Mine(b.s, b.me) == W.(phase := Landed(a))
            case Missed => Mine(b.s, b.me) == NotThere(W, a) && a.key in b.s.dropped
            case NoAnswer => Mine(b.s, b.me) == W.(phase := Stopped(None)) && a.key in b.s.dropped && b.faulty
  {
    b.Interfere();
    var fails: bool := *;
    if fails && b.faulty {
      Raise(b);
      return NoAnswer;
    }
    LiveHasLanded(b.c, b.states, b.events);
    if Mine(b.s, b.me).phase.a.key in b.s.live {
      b.Write(Ack);
      return Arrived;
    }
    b.Write(Drop);
    return Missed;
  }

  /** A readable generation stays readable while nothing goes, so publishing on it cannot lose it. */
  lemma NothingLost(s: State, t: State, g: nat, x: Cause)
    requires g in s.markers && KeyOf(s, g) in s.sent && !Unreadable(s, g) && Kept(s, t)
    ensures LostBase(t, false, g, x) ==> x.NoRoom? && g >= MAX_GENERATION
  {
  }

  lemma MarkedIsSent(c: Config, ss: seq<State>, es: seq<Event>, i: nat, g: nat)
    requires IsRun(c, ss, es) && i < |ss| && g in ss[i].markers
    ensures KeyOf(ss[i], g) in ss[i].sent
  {
    LakeTheorems.RunKeepsInv(c, ss, es, i);
  }

  /** Plan, packs, payload: one attempt to publish `work` as generation `target`. */
  method PublishResolved(b: Bucket, policy: TransportPolicy, target: nat, work: Bytes)
    returns (o: PublishOutcome, ghost a: Attempt)
    requires Ready(b) && AtBase(b.s, Mine(b.s, b.me), target, work)
    modifies b
    ensures Ready(b) && b.Along()
    ensures var W, W' := Mine(old(b.s), b.me), Mine(b.s, b.me);
            match o
            case Published =>
              W' == W.(phase := Landed(a)) && a.key.gen == target <= MAX_GENERATION && a.body.Data() == work
            case NotLanded => W.attempt + 1 < W.maxAttempts && W' == Retry(W, Based(target, work))
            case GivenUp => W.attempt + 1 >= W.maxAttempts && W' == W.(phase := Aborted)
            case Broken(x) => StoppedOn(b, W, target - 1, x)
    ensures b.quiet && !Unreadable(old(b.s), target - 1) && target <= MAX_GENERATION ==>
              o.Published? && b.s.markers == old(b.s).markers && b.hint == old(b.hint)
  {
    ghost var W, s, n := Mine(b.s, b.me), b.s, |b.events|;
    b.SetMark();
    var e;
    e, a := Prepare(b, policy, target, work);
    if e.Some? {
      StillThere(b, s, n, target - 1, e.value);
      return Broken(e.value), a;
    }
    var u := PutPayload(b, W, a);
    if b.quiet { KeptSince(b.c, b.states, b.events, n, |b.events|); }
    match u {
      case Arrived => return Published, a;
      case NoAnswer => return Broken(RequestFailed), a;
      case Missed => return if Mine(b.s, b.me).phase.Aborted? then GivenUp else NotLanded, a;
    }
  }

  /** On a quiet bucket a base that could be read when publishing began cannot have been lost since. */
  lemma StillThere(b: Bucket, s: State, n: nat, g: nat, x: Cause)
    requires b.Valid() && n <= |b.events| && b.states[n] == s && g in s.markers && LostBase(b.s, b.faulty, g, x)
    requires b.quiet ==> b.mark == n
    ensures b.quiet && !Unreadable(s, g) ==> x.NoRoom? && g >= MAX_GENERATION
  {
    if b.quiet && !Unreadable(s, g) {
      KeptSince(b.c, b.states, b.events, n, |b.events|);
      MarkedIsSent(b.c, b.states, b.events, n, g);
      NothingLost(s, b.s, g, x);
    }
  }

  /** Everything up to the payload: plan, upload the packs, refresh and check them. */
  method Prepare(b: Bucket, policy: TransportPolicy, target: nat, work: Bytes)
    returns (e: Option<Cause>, ghost a: Attempt)
    requires Ready(b) && AtBase(b.s, Mine(b.s, b.me), target, work)
    modifies b
    ensures Ready(b) && b.Onward()
    ensures var W := Mine(old(b.s), b.me);
            match e
            case None =>
              && Mine(b.s, b.me) == Publisher(W, a) && Prepared(a)
              && a.key.gen == target <= MAX_GENERATION && a.body.Data() == work
            case Some(x) => StoppedOn(b, W, target - 1, x)
  {
    ghost var W := Mine(b.s, b.me);
    e := PlanPublish(b, policy, target, work);
    if e.Some? { return e, NewAttempt(b.me.id, target, 0, Whole(work), {}); }
    a := Mine(b.s, b.me).phase.a;
    e, a := PublishPacks(b, W, a);
  }

  /** Upload all novel packs, then refresh them and check the inherited ones right before the payload goes out. */
  method PublishPacks(b: Bucket, ghost W: Writer, ghost a: Attempt) returns (e: Option<Cause>, ghost a': Attempt)
    requires Ready(b) && Mine(b.s, b.me) == Publisher(W, a)
    requires a.put == {} && a.refreshed == map[] && a.checked == {}
    modifies b
    ensures Ready(b) && b.Onward()
    ensures a'.key == a.key && a'.body == a.body
    ensures match e
            case None => Mine(b.s, b.me) == Publisher(W, a') && Prepared(a')
            case Some(x) => StoppedOn(b, W, a.key.gen - 1, x)
  {
    a' := a;
    e := PutPacks(b, W, a);
    if e.Some? { return; }
    e, a' := RefreshPacks(b, W, a.(put := a.novel));
    if e.Some? { return; }
    e := CheckPacks(b, W, a');
    if e.Some? { return; }
    a' := a'.(checked := a.body.Packs() - a.novel);
  }

  // --- the marker ----------------------------------------------------------------------------------------------

  datatype MarkerOutcome = WonIt | LostIt | Exhausted | Unanswered

  function AtLeast1(n: int): nat {
    if n < 1 then 1 else n
  }

  /** The writer after losing its generation: ready to replay, or aborted. */
  function Losing(W: Writer): Writer {
    if Rebase.DecideRebase(W.changes, W.policy, W.attempt + 1, W.maxAttempts).Replay?
    then Retry(W, Idle).(replayed := true)
    else W.(phase := Aborted)
  }

  /** What became of the marker create of attempt a. */
  ghost predicate AfterMarker(b: Bucket, W: Writer, a: Attempt, o: MarkerOutcome)
    requires Ready(b)
    reads b
  {
    match o
    case WonIt => Mine(b.s, b.me) == W.(phase := Won(a.key)) && IsCommitted(b.s, a.key)
    case LostIt => Mine(b.s, b.me) == Losing(W) && IsLost(b.s, a.key)
    case Exhausted => Mine(b.s, b.me) == W.(phase := Unknown(a.key))
    case Unanswered => Mine(b.s, b.me) == W.(phase := Stopped(Some(a.key))) && b.faulty
  }

  /**
   * Creates the marker and finds out what became of it: winning and losing are facts that never change again.
   * Running out of attempts decides nothing, nor does a request that fails: the create may still land.
   */
  method CreateMarkerResolving(b: Bucket, ghost W: Writer, a: Attempt) returns (o: MarkerOutcome, puts: nat)
    requires Ready(b) && Mine(b.s, b.me) == W.(phase := Landed(a)) && a.key.gen <= MAX_GENERATION
    modifies b
    ensures Ready(b) && b.Along() && AfterMarker(b, W, a, o)
    ensures puts <= AtLeast1(W.maxAttempts - W.attempt)
    ensures o.Exhausted? ==> puts == AtLeast1(W.maxAttempts - W.attempt)
    ensures b.quiet && a.key.gen !in old(b.s).markers ==> o.WonIt? && puts == 1 && Top(b.s) == Top(old(b.s)) + 1
  {
    b.Write(Propose);
    puts := 0;
    while true
      invariant Ready(b) && b.Along()
      invariant Mine(b.s, b.me) == W.(phase := Creating(a, puts)) && (puts > 0 ==> W.attempt + puts < W.maxAttempts)
      invariant b.quiet && a.key.gen !in old(b.s).markers ==> puts == 0 && b.s.markers == old(b.s).markers
      decreases W.maxAttempts - W.attempt - puts
    {
      var found := PutMarker(b, W, a, puts);
      puts := puts + 1;
      if found.Some? { return found.value, puts; }
    }
  }

  /** One create and, unless it was acknowledged, one GET; None if there is no marker yet and another create is due. */
  method PutMarker(b: Bucket, ghost W: Writer, a: Attempt, tries: nat) returns (o: Option<MarkerOutcome>)
    requires Ready(b) && Mine(b.s, b.me) == W.(phase := Creating(a, tries)) && a.key.gen <= MAX_GENERATION
    modifies b
    ensures Ready(b) && b.Along()
    ensures match o
            case None =>
              W.attempt + tries + 1 < W.maxAttempts && Mine(b.s, b.me) == W.(phase := Creating(a, tries + 1))
            case Some(x) => AfterMarker(b, W, a, x) && (x.Exhausted? ==> W.attempt + tries + 1 >= W.maxAttempts)
    ensures b.quiet && a.key.gen !in old(b.s).markers ==> o == Some(WonIt) && Top(b.s) == Top(old(b.s)) + 1
  {
    CreatingIsProposed(b.c, b.states, b.events, b.me.id);
    var answered := b.AwaitCreate(a.key);
    if answered && IsCommitted(b.s, a.key) {
      b.Write(Win);
      return Some(WonIt);
    }
    b.Interfere();
    var fails: bool := *;
    if fails && b.faulty {
      Raise(b);
      return Some(Unanswered);
    }
    o := SettleMarker(b, W, a, tries);
  }

  lemma CreatingIsProposed(c: Config, ss: seq<State>, es: seq<Event>, w: nat)
    requires IsRun(c, ss, es) && w in ss[|es|].writers && ss[|es|].writers[w].phase.Creating?
    ensures ss[|es|].writers[w].phase.a.key in ss[|es|].proposed
  {
    LakeTheorems.RunKeepsInv(c, ss, es, |es|);
    assert LakeCommit.WriterOk(c, ss[|es|], w);
  }

  /** What the marker says by now. */
  method SettleMarker(b: Bucket, ghost W: Writer, a: Attempt, tries: nat) returns (o: Option<MarkerOutcome>)
    requires Ready(b) && Mine(b.s, b.me) == W.(phase := Creating(a, tries)) && a.key.gen <= MAX_GENERATION
    modifies b
    ensures Ready(b) && b.Along()
    ensures match o
            case None =>
              W.attempt + tries + 1 < W.maxAttempts && Mine(b.s, b.me) == W.(phase := Creating(a, tries + 1))
            case Some(x) => AfterMarker(b, W, a, x) && (x.Exhausted? ==> W.attempt + tries + 1 >= W.maxAttempts)
  {
    var found := Root.ResolveMarker(b, a.key.gen, a.key.id);
    o := Conclude(b, W, a, tries, found);
  }

  method Conclude(b: Bucket, ghost W: Writer, a: Attempt, tries: nat, found: Root.Outcome)
    returns (o: Option<MarkerOutcome>)
    requires Ready(b) && Mine(b.s, b.me) == W.(phase := Creating(a, tries))
    requires found == Root.OutcomeOf(b.s, a.key.gen, a.key.id)
    modifies b
    ensures Ready(b) && b.Along()
    ensures match o
            case None =>
              W.attempt + tries + 1 < W.maxAttempts && Mine(b.s, b.me) == W.(phase := Creating(a, tries + 1))
            case Some(x) => AfterMarker(b, W, a, x) && (x.Exhausted? ==> W.attempt + tries + 1 >= W.maxAttempts)
  {
    LeavesMarkers(b.c, b.s, b.me.id);
    match found {
      case Absent =>
        b.Write(Absent);
        return if Mine(b.s, b.me).phase.Unknown? then Some(Exhausted) else None;
      case Won =>
        b.Write(Win);
        return Some(WonIt);
      case Lost =>
        b.Write(Lose);
        return Some(LostIt);
    }
  }

  lemma LeavesMarkers(c: Config, s: State, w: nat)
    ensures forall u :: WriterEnabled(s, w, u) ==> DoWriter(c, s, w, u).markers == s.markers
  {
    forall u | WriterEnabled(s, w, u) ensures DoWriter(c, s, w, u).markers == s.markers {
      LakeCommit.WriterFrame(c, s, w, u);
    }
  }

  // --- the loop -------------------------------------------------------------------------------------------------

  /** Statement by statement, in recorded order, on a fresh copy. */
  method Reexecute(c: Config, changes: Rebase.Changeset, body: Bytes) returns (work: Bytes)
    ensures work == c.Run(changes, body)
  {
    work := body;
    for i := 0 to |changes|
      invariant work == c.Run(changes[..i], body)
    {
      assert changes[..i + 1][..i] == changes[..i];
      work := c.exec(changes[i], work);
    }
    assert changes[..|changes|] == changes;
  }

  /**
   * A head that could be fetched, from the bucket or from the local cache; up to n heads are resolved in turn. On a
   * quiet bucket it is the head, if the head can be fetched and the hint is not too far behind to find it.
   */
  method FetchCurrentBase(b: Bucket, n: nat) returns (r: Result<nat, Cause>)
    requires b.Valid() && b.s.markers.Keys != {}
    modifies b
    ensures b.Browsed() && old(b.hints) <= b.hints
    ensures match r
            case Ok(g) => g in b.s.markers && Root.HeadSince(b.states, b.hints, |old(b.states)| - 1, g)
            case Err(x) =>
              && (x.RequestFailed? || x.HeadsVanished?)
              && Caused(b.states, b.hints, b.faulty, |old(b.states)| - 1, n, x)
    ensures b.quiet && n > 0 && EasilyFetched(old(b.s), old(b.hint)) ==> r == Ok(Top(b.s) - 1)
  {
    var heads: seq<nat> := [];
    while |heads| < n
      invariant b.Browsed() && old(b.hints) <= b.hints && b.s.markers.Keys != {} && |heads| <= n
      invariant forall g :: g in heads ==> VanishedHead(b.states, b.hints, |old(b.states)| - 1, g)
      invariant b.quiet && EasilyFetched(old(b.s), old(b.hint)) ==> heads == []
    {
      ghost var x, hints := b.Now(), b.hints;
      var found, g := FetchHead(b);
      BrowsedTwice(b.me, b.quiet, old(b.Now()), x, b.Now());
      VanishedMore(x.states, b.states, hints, b.hints, |old(b.states)| - 1, heads, g, found == Some(false));
      match found {
        case Some(true) => return Ok(g);
        case Some(false) => heads := heads + [g];
        case None => return Err(RequestFailed);
      }
    }
    return Err(HeadsVanished(heads));
  }

  /** The head can be fetched, and from the hint it can be found. */
  predicate EasilyFetched(s: State, hint: Option<nat>) {
    Top(s) > 0 && !Unreadable(s, Top(s) - 1) && Root.ProbesToHead(Root.Lag(Top(s), hint), 1) <= Root.PROBE_CAP
  }

  /** Resolves a head, then fetches it: it may have left the bucket in between. None if a request fails. */
  method FetchHead(b: Bucket) returns (found: Option<bool>, g: nat)
    requires b.Valid() && b.s.markers.Keys != {}
    modifies b
    ensures b.Browsed() && old(b.hints) <= b.hints && b.s.markers.Keys != {}
    ensures g in b.s.markers && Root.HeadSince(b.states, b.hints, |old(b.states)| - 1, g)
    ensures found == None ==> b.faulty
    ensures found == Some(false) ==> Vanished(b.states, |old(b.states)| - 1, g)
    ensures b.quiet && EasilyFetched(old(b.s), old(b.hint)) ==> found == Some(true) && g == Top(b.s) - 1
  {
    Root.DenseNow(b.c, b.states, b.events, |b.events|, 0);
    var head, exact := Root.ResolveHead(b);
    g := head.value.generation;
    ghost var x := b.Now();
    b.Wait();
    BrowsedTwice(b.me, b.quiet, old(b.Now()), x, b.Now());
    Root.DenseNow(b.c, b.states, b.events, |b.events|, g);
    Root.HeadStays(x.states, b.states, b.hints, b.hints, |old(b.states)| - 1, |old(b.states)| - 1, g);
    var fails: bool, cached: bool := *, *;
    if fails && b.faulty { return None, g; }
    if !cached && Unreadable(b.s, g) {
      assert Unreadable(b.states[|b.states| - 1], g);
      return Some(false), g;
    }
    return Some(true), g;
  }

  lemma VanishedStays(states: seq<State>, later: seq<State>, hints: set<nat>, more: set<nat>, from: nat,
                      heads: seq<nat>)
    requires states <= later && hints <= more && forall g :: g in heads ==> VanishedHead(states, hints, from, g)
    ensures forall g :: g in heads ==> VanishedHead(later, more, from, g)
  {
    forall g | g in heads ensures VanishedHead(later, more, from, g) {
      var i :| from <= i < |states| && Unreadable(states[i], g);
      assert later[i] == states[i];
      Root.HeadStays(states, later, hints, more, from, from, g);
    }
  }

  /** One head later, which was found since, and may have vanished since. */
  lemma VanishedMore(states: seq<State>, later: seq<State>, hints: set<nat>, more: set<nat>, from: nat,
                     heads: seq<nat>, g: nat, gone: bool)
    requires states <= later && hints <= more && from < |states|
    requires forall h :: h in heads ==> VanishedHead(states, hints, from, h)
    requires Root.HeadSince(later, more, |states| - 1, g) && (gone ==> Vanished(later, |states| - 1, g))
    ensures Root.HeadSince(later, more, from, g)
    ensures forall h :: h in (if gone then heads + [g] else heads) ==> VanishedHead(later, more, from, h)
  {
    VanishedStays(states, later, hints, more, from, heads);
    Root.HeadStays(later, later, more, more, |states| - 1, from, g);
    if gone { var i :| |states| - 1 <= i < |later| && Unreadable(later[i], g); }
  }

  lemma CausedStays(states: seq<State>, later: seq<State>, hints: set<nat>, faulty: bool, from: nat, n: nat, x: Cause)
    requires states != [] && states <= later && (x.RequestFailed? || x.HeadsVanished?)
    requires Caused(states, hints, faulty, from, n, x)
    ensures Caused(later, hints, faulty, from, n, x)
  {
    if x.HeadsVanished? { VanishedStays(states, later, hints, hints, from, x.heads); }
  }

  lemma CausedSince(states: seq<State>, hints: set<nat>, faulty: bool, from: nat, earlier: nat, n: nat, x: Cause)
    requires states != [] && earlier <= from && Caused(states, hints, faulty, from, n, x)
    ensures Caused(states, hints, faulty, earlier, n, x)
  {
    if x.HeadsVanished? {
      forall g | g in x.heads ensures VanishedHead(states, hints, earlier, g) {
        assert VanishedHead(states, hints, from, g);
        var i :| from <= i < |states| && Unreadable(states[i], g);
        Root.HeadStays(states, states, hints, hints, from, earlier, g);
      }
    }
  }

  /**
   * Re-derives the work on the head as it is found after the loss, not on the generation that was lost: a stale writer
   * does not burn one attempt per generation of lag.
   */
  method ReplayOntoHead(b: Bucket) returns (e: Option<Cause>, target: nat, work: Bytes)
    requires Ready(b) && Mine(b.s, b.me).phase.Idle? && b.s.markers.Keys != {}
    modifies b
    ensures Ready(b) && b.Along()
    ensures var W := Mine(old(b.s), b.me);
            match e
            case None =>
              && Mine(b.s, b.me) == W.(phase := Based(target, work)) && AtBase(b.s, Mine(b.s, b.me), target, work)
              && Root.HeadSince(b.states, b.hints, |old(b.states)| - 1, target - 1)
            case Some(x) =>
              && Mine(b.s, b.me) == W.(phase := Stopped(None)) && (x.RequestFailed? || x.HeadsVanished?)
              && Caused(b.states, b.hints, b.faulty, |old(b.states)| - 1, W.maxAttempts, x)
  {
    var r := FetchCurrentBase(b, Mine(b.s, b.me).maxAttempts);
    ghost var before := b.states;
    match r {
      case Err(x) =>
        Raise(b);
        CausedStays(before, b.states, b.hints, b.faulty, |old(b.states)| - 1, Mine(b.s, b.me).maxAttempts, x);
        return Some(x), 0, [];
      case Ok(g) =>
        work := Reexecute(b.c, Mine(b.s, b.me).changes, DataAt(b.s, g));
        b.Write(Fetch(g));
        Root.HeadStays(before, b.states, b.hints, b.hints, |old(b.states)| - 1, |old(b.states)| - 1, g);
        return None, g + 1, work;
    }
  }

  datatype Phase = Attempting(target: nat, work: Bytes) | Finished(outcome: CommitOutcome)

  /** Where the loop stands, in terms of the writer's record. */
  ghost predicate PhaseOk(s: State, W: Writer, ph: Phase) {
    match ph
    case Attempting(target, work) => AtBase(s, W, target, work) && W.attempt < AtLeast1(W.maxAttempts)
    case Finished(o) => Reached(W, o) && Due(W, o) && (!o.Raised? ==> o.attempts <= AtLeast1(W.maxAttempts))
  }

  /** What no step of the loop changes. */
  ghost predicate SameJob(W: Writer, W': Writer) {
    W'.changes == W.changes && W'.policy == W.policy && W'.maxAttempts == W.maxAttempts
  }

  /** An error while publishing on generation `base`, in fetching a head, or in the marker create of `pending`. */
  ghost predicate ErrorOk(b: Bucket, W: Writer, from: nat, base: int, o: CommitOutcome)
    requires b.states != []
    reads b
  {
    o.Raised? ==>
      && Caused(b.states, b.hints, b.faulty, from, W.maxAttempts, o.cause)
      && (o.pending.Some? ==> o.cause.RequestFailed?)
      && (o.cause.ManifestGone? || o.cause.PackGone? ==> o.cause.base == base)
      && (o.cause.HeadsVanished? ==> Replayable(W.changes, W.policy))
  }

  /** A new target is the successor of a head read since state `from`. */
  ghost predicate TargetOk(states: seq<State>, hints: set<nat>, W: Writer, from: int, first: nat, target: nat) {
    || target == first
    || (target > 0 && Replayable(W.changes, W.policy) && Root.HeadSince(states, hints, from, target - 1))
  }

  /** Two moves of the target make one. */
  lemma Retargeted(states: seq<State>, later: seq<State>, hints: set<nat>, more: set<nat>, W: Writer, from: int,
                   after: int, first: nat, target: nat, next: nat)
    requires TargetOk(states, hints, W, from, first, target) && TargetOk(later, more, W, after, target, next)
    requires states <= later && hints <= more && from <= after
    ensures TargetOk(later, more, W, from, first, next)
  {
    if next != target {
      Root.HeadStays(later, later, more, more, after, from, next - 1);
    } else if target != first {
      Root.HeadStays(states, later, hints, more, from, from, target - 1);
    }
  }

  /** One attempt at generation `target`. Undisturbed, on a readable head, it wins with one create. */
  method Advance(b: Bucket, policy: TransportPolicy, target: nat, work: Bytes) returns (ph: Phase, puts: nat)
    requires Ready(b) && PhaseOk(b.s, Mine(b.s, b.me), Attempting(target, work))
    modifies b
    ensures Ready(b) && PhaseOk(b.s, Mine(b.s, b.me), ph) && b.Along()
    ensures var W, W' := Mine(old(b.s), b.me), Mine(b.s, b.me);
            && SameJob(W, W') && puts <= AtLeast1(W.maxAttempts - W.attempt)
            && (ph.Attempting? ==>
                W'.attempt == W.attempt + 1 && TargetOk(b.states, b.hints, W, |old(b.states)| - 1, target, ph.target))
            && (ph.Finished? && !ph.outcome.Raised? ==> W'.attempt == W.attempt)
            && (ph.Finished? ==> ErrorOk(b, W, |old(b.states)| - 1, target - 1, ph.outcome))
            && (ph.Finished? && ph.outcome.Committed? ==> ph.outcome.key.gen == target)
    ensures b.quiet && Undisturbed(old(b.s), target) ==> WonAtOnce(b, ph, target) && puts == 1
  {
    ghost var W, i := Mine(b.s, b.me), |b.states| - 1;
    var attempt := Mine(b.s, b.me).attempt;
    ghost var a;
    var published;
    published, a := PublishResolved(b, policy, target, work);
    LakeTheorems.MarkersStay(b.c, b.states, b.events, i, |b.events|);
    match published {
      case Broken(x) =>
        BrokenIsCaused(b, W, i, target - 1, x);
        return Finished(Raised(x, None)), 0;
      case NotLanded => return Attempting(target, work), 0;
      case GivenUp => return Finished(ConflictAbort(attempt + 1, false)), 0;
      case Published =>
    }
    ghost var before := b.states;
    ph, puts := Contend(b, W, Mine(b.s, b.me).phase.a);
    ContendedSince(b, W, |before| - 1, i, target, ph);
  }

  lemma BrokenIsCaused(b: Bucket, W: Writer, from: nat, base: nat, x: Cause)
    requires Ready(b) && base in b.s.markers && LostBase(b.s, b.faulty, base, x)
    ensures ErrorOk(b, W, from, base, Raised(x, None))
  {
    LakeTheorems.MarkersDenseAndForever(b.c, b.states, b.events, |b.events|, |b.events|);
  }

  lemma ContendedSince(b: Bucket, W: Writer, from: nat, earlier: nat, target: nat, ph: Phase)
    requires b.states != [] && earlier <= from
    requires ph.Attempting? ==> TargetOk(b.states, b.hints, W, from, target, ph.target)
    requires ph.Finished? ==> ErrorOk(b, W, from, target - 1, ph.outcome)
    ensures ph.Attempting? ==> TargetOk(b.states, b.hints, W, earlier, target, ph.target)
    ensures ph.Finished? ==> ErrorOk(b, W, earlier, target - 1, ph.outcome)
  {
    match ph {
      case Attempting(next, _) =>
        if next != target { Root.HeadStays(b.states, b.states, b.hints, b.hints, from, earlier, next - 1); }
      case Finished(o) =>
        if o.Raised? { CausedSince(b.states, b.hints, b.faulty, from, earlier, W.maxAttempts, o.cause); }
    }
  }

  /** The next generation is `target`, and its base can be fetched. */
  predicate Undisturbed(s: State, target: nat) {
    0 < target == Top(s) <= MAX_GENERATION && !Unreadable(s, target - 1)
  }

  ghost predicate WonAtOnce(b: Bucket, ph: Phase, target: nat)
    reads b
  {
    && ph.Finished? && ph.outcome.Committed? && ph.outcome.key.gen == target
    && Top(b.s) == target + 1 && b.hint == Some(target)
  }

  /** The published payload contends for its generation. */
  method Contend(b: Bucket, ghost W: Writer, a: Attempt) returns (ph: Phase, puts: nat)
    requires Ready(b) && Mine(b.s, b.me) == W.(phase := Landed(a)) && W.attempt < AtLeast1(W.maxAttempts)
    requires a.key.gen <= MAX_GENERATION
    modifies b
    ensures Ready(b) && PhaseOk(b.s, Mine(b.s, b.me), ph) && b.Along()
    ensures var W' := Mine(b.s, b.me);
            && SameJob(W, W') && puts <= AtLeast1(W.maxAttempts - W.attempt)
            && (ph.Attempting? ==>
                W'.attempt == W.attempt + 1 && TargetOk(b.states, b.hints, W, |old(b.states)| - 1, a.key.gen, ph.target)
                && (ph.target > a.key.gen || Root.FarFromHint(b.hints, ph.target - 1)))
            && (ph.Finished? && !ph.outcome.Raised? ==> W'.attempt == W.attempt)
            && (ph.Finished? ==> ErrorOk(b, W, |old(b.states)| - 1, a.key.gen - 1, ph.outcome))
            && (ph.Finished? && ph.outcome.Committed? ==> ph.outcome.key.gen == a.key.gen)
    ensures b.quiet && a.key.gen == Top(old(b.s)) ==> WonAtOnce(b, ph, a.key.gen) && puts == 1
  {
    var attempt := Mine(b.s, b.me).attempt;
    Root.DenseNow(b.c, b.states, b.events, |b.events|, a.key.gen);
    var o;
    o, puts := CreateMarkerResolving(b, W, a);
    match o {
      case WonIt =>
        b.WriteHint(a.key.gen);
        return Finished(CommitOutcome.Committed(a.key, attempt + 1)), puts;
      case Exhausted => return Finished(UnknownOutcome(a.key, attempt + 1)), puts;
      case Unanswered => return Finished(Raised(RequestFailed, Some(a.key))), puts;
      case LostIt =>
    }
    ghost var lost := b.states;
    ph := AfterLoss(b, W, a.key.gen, attempt);
    ContendedSince(b, W, |lost| - 1, |old(b.states)| - 1, a.key.gen, ph);
  }

  /** The generation is lost: abort, if the rules say so, or go on from the head. */
  method AfterLoss(b: Bucket, ghost W: Writer, ghost g: nat, attempt: nat) returns (ph: Phase)
    requires Ready(b) && Mine(b.s, b.me) == Losing(W) && g in b.s.markers
    requires attempt == W.attempt < AtLeast1(W.maxAttempts)
    modifies b
    ensures Ready(b) && PhaseOk(b.s, Mine(b.s, b.me), ph) && b.Along()
    ensures var W' := Mine(b.s, b.me);
            && SameJob(W, W') && (ph.Attempting? ==>
                W'.attempt == W.attempt + 1 && TargetOk(b.states, b.hints, W, |old(b.states)| - 1, g, ph.target)
                && (ph.target > g || Root.FarFromHint(b.hints, ph.target - 1)))
            && (ph.Finished? && !ph.outcome.Raised? ==> W'.attempt == W.attempt)
            && (ph.Finished? ==> !ph.outcome.Committed? && ErrorOk(b, W, |old(b.states)| - 1, g - 1, ph.outcome))
  {
    Rebase.ReplayCondition(W.changes, W.policy, W.attempt + 1, W.maxAttempts);
    if Mine(b.s, b.me).phase.Aborted? { return Finished(ConflictAbort(attempt + 1, true)); }
    ph := Replay(b, g);
  }

  /** The loser goes on from a head beyond generation g. */
  method Replay(b: Bucket, ghost g: nat) returns (ph: Phase)
    requires Ready(b) && Mine(b.s, b.me).phase.Idle? && g in b.s.markers && b.s.markers.Keys != {}
    requires Mine(b.s, b.me).attempt < AtLeast1(Mine(b.s, b.me).maxAttempts)
    requires Replayable(Mine(b.s, b.me).changes, Mine(b.s, b.me).policy)
    modifies b
    ensures Ready(b) && PhaseOk(b.s, Mine(b.s, b.me), ph) && b.Along()
    ensures var W := Mine(old(b.s), b.me);
            && Mine(b.s, b.me) == W.(phase := Mine(b.s, b.me).phase)
            && (ph.Attempting? ==>
                TargetOk(b.states, b.hints, W, |old(b.states)| - 1, g, ph.target)
                && (ph.target > g || Root.FarFromHint(b.hints, ph.target - 1)))
            && (ph.Finished? ==>
                ph.outcome.Raised? && ErrorOk(b, W, |old(b.states)| - 1, g - 1, ph.outcome))
  {
    ghost var from := |b.states| - 1;
    var e, target, work := ReplayOntoHead(b);
    ph := if e.Some? then Finished(Raised(e.value, None)) else Attempting(target, work);
    PastTheLost(b.c, b.states, b.events, b.hints, from, g, target, e.None?);
  }

  /** A head found after generation g was taken is g or later. */
  lemma PastTheLost(c: Config, ss: seq<State>, es: seq<Event>, hints: set<nat>, from: nat, g: nat, target: nat,
                    found: bool)
    requires IsRun(c, ss, es) && from < |ss| && g in ss[from].markers
    requires found ==> target > 0 && Root.HeadSince(ss, hints, from, target - 1)
    ensures found ==> target > g || Root.FarFromHint(hints, target - 1)
  {
    if found && Root.WasHead(ss, from, target - 1) {
      var i: nat :| from <= i < |ss| && Top(ss[i]) == target - 1 + 1;
      LakeTheorems.MarkersDenseAndForever(c, ss, es, from, i);
    }
  }

  /** m + (m - 1) + ... + (m - a + 1), each at least 1: marker creates over the first a attempts. */
  function MarkerBudget(a: nat, m: nat): nat {
    if a == 0 then 0 else MarkerBudget(a - 1, m) + AtLeast1(m - (a - 1))
  }

  lemma {:induction false} BudgetIsTriangular(a: nat, m: nat)
    requires a <= m
    ensures 2 * MarkerBudget(a, m) == 2 * (a * m) - a * (a - 1)
  {
    if a > 0 {
      BudgetIsTriangular(a - 1, m);
    }
  }

  lemma {:induction false} BudgetGrows(a: nat, b: nat, m: nat)
    requires a <= b
    ensures MarkerBudget(a, m) <= MarkerBudget(b, m)
  {
    if a < b { BudgetGrows(a, b - 1, m); }
  }

  lemma RunBudget(m: nat)
    ensures m >= 1 ==> 2 * MarkerBudget(AtLeast1(m), m) == m * (m + 1)
  {
    if m >= 1 { BudgetIsTriangular(m, m); }
  }

  /** Attempts and marker creates so far are within bounds. */
  ghost predicate WithinBudget(W: Writer, ph: Phase, puts: nat) {
    puts <= MarkerBudget(if ph.Attempting? then W.attempt else AtLeast1(W.maxAttempts), W.maxAttempts)
  }

  lemma OneMoreAttempt(W: Writer, ph: Phase, W': Writer, next: Phase, puts: nat, more: nat)
    requires ph.Attempting? && WithinBudget(W, ph, puts) && SameJob(W, W') && W.attempt < AtLeast1(W.maxAttempts)
    requires more <= AtLeast1(W.maxAttempts - W.attempt) && (next.Attempting? ==> W'.attempt == W.attempt + 1)
    ensures WithinBudget(W', next, puts + more)
  {
    BudgetGrows(W.attempt + 1, AtLeast1(W.maxAttempts), W.maxAttempts);
  }

  /**
   * The loop ends, after at most max(1, m) attempts and m (m + 1) / 2 marker creates for m >= 1. Committed: that
   * generation is this writer's for good, its payload the changeset run on its predecessor, which is the first base or
   * a head found since. ConflictAbort: none is or will be, and the rules or exhaustion call for it. Raised: the base
   * named has lost its manifest or the pack named, each of maxAttempts heads was unreadable in turn, no generation is
   * left, or a request failed; only a failed request leaves a create undecided. In all cases every create but the one
   * named is dead. Undisturbed, on a readable head, it commits the next generation at once.
   */
  method RunCommit(b: Bucket, policy: TransportPolicy, target: nat, work: Bytes) returns (r: CommitOutcome, puts: nat)
    requires Ready(b) && AtBase(b.s, Mine(b.s, b.me), target, work) && Mine(b.s, b.me).attempt == 0
    modifies b
    ensures Ready(b) && Reached(Mine(b.s, b.me), r) && Settled(b.c, b.s, b.me.id, r) && Due(Mine(b.s, b.me), r)
    ensures b.Along()
    ensures var W := Mine(old(b.s), b.me);
            && SameJob(W, Mine(b.s, b.me))
            && (r.Raised? || 1 <= r.attempts <= AtLeast1(W.maxAttempts))
            && (r.Committed? ==> TargetOk(b.states, b.hints, W, |old(b.states)| - 1, target, r.key.gen))
            && (W.maxAttempts >= 1 ==> 2 * puts <= W.maxAttempts * (W.maxAttempts + 1))
    ensures r.Raised? ==>
              RaisedOk(b.states, b.hints, b.faulty, Mine(old(b.s), b.me), |old(b.states)| - 1, target, r.cause,
                       r.pending)
    ensures b.quiet && Undisturbed(old(b.s), target) ==>
              && r.Committed? && r.key.gen == target && r.attempts == 1 && puts == 1
              && Top(b.s) == target + 1 && b.hint == Some(target)
  {
    ghost var W0 := Mine(b.s, b.me);
    RunBudget(W0.maxAttempts);
    var ph;
    ph, puts := Attempts(b, policy, target, work);
    r := ph.outcome;
    LastWord(b.states, b.hints, b.faulty, W0, |old(b.states)| - 1, target, r);
    SettledNow(b.c, b.states, b.events, b.me.id, r);
  }

  /** One attempt after the other until one ends the loop. */
  method Attempts(b: Bucket, policy: TransportPolicy, target: nat, work: Bytes) returns (ph: Phase, puts: nat)
    requires Ready(b) && AtBase(b.s, Mine(b.s, b.me), target, work) && Mine(b.s, b.me).attempt == 0
    modifies b
    ensures Ready(b) && b.Along() && PhaseOk(b.s, Mine(b.s, b.me), ph) && ph.Finished?
    ensures SameJob(Mine(old(b.s), b.me), Mine(b.s, b.me)) && WithinBudget(Mine(b.s, b.me), ph, puts)
    ensures ph in Standing(b.states, b.hints, b.faulty, Mine(old(b.s), b.me), |old(b.states)| - 1, target)
    ensures b.quiet && Undisturbed(old(b.s), target) ==>
              WonAtOnce(b, ph, target) && puts == 1 && Mine(b.s, b.me).attempt == 0
  {
    ph, puts := Attempting(target, work), 0;
    ghost var W0 := Mine(b.s, b.me);
    while ph.Attempting?
      invariant Ready(b) && b.Along() && PhaseOk(b.s, Mine(b.s, b.me), ph) && SameJob(W0, Mine(b.s, b.me))
      invariant WithinBudget(Mine(b.s, b.me), ph, puts)
      invariant ph in Standing(b.states, b.hints, b.faulty, W0, |old(b.states)| - 1, target)
      invariant b.quiet && Undisturbed(old(b.s), target) ==>
        if ph.Attempting? then b.s == old(b.s) && ph.target == target && puts == 0
        else WonAtOnce(b, ph, target) && puts == 1 && Mine(b.s, b.me).attempt == 0
      decreases if ph.Attempting? then AtLeast1(W0.maxAttempts) - Mine(b.s, b.me).attempt else -1
    {
      ghost var W, before, states, hints := Mine(b.s, b.me), ph, b.states, b.hints;
      var more;
      ph, more := Advance(b, policy, ph.target, ph.work);
      OneMoreAttempt(W, before, Mine(b.s, b.me), ph, puts, more);
      MovedOn(b, states, hints, W0, |old(b.states)| - 1, target, before, ph);
      puts := puts + more;
    }
  }

  /** Where the loop may stand, as far as the target and errors are concerned. */
  ghost function Standing(states: seq<State>, hints: set<nat>, faulty: bool, W: Writer, from: nat,
                          first: nat): iset<Phase>
  {
    iset ph: Phase | StandsOk(states, hints, faulty, W, from, first, ph)
  }

  ghost predicate StandsOk(states: seq<State>, hints: set<nat>, faulty: bool, W: Writer, from: nat, first: nat,
                           ph: Phase)
  {
    match ph
    case Attempting(target, _) => TargetOk(states, hints, W, from, first, target)
    case Finished(Committed(k, _)) => TargetOk(states, hints, W, from, first, k.gen)
    case Finished(Raised(x, pending)) => RaisedOk(states, hints, faulty, W, from, first, x, pending)
    case _ => true
  }

  /** What an error of the whole loop says. */
  ghost predicate RaisedOk(states: seq<State>, hints: set<nat>, faulty: bool, W: Writer, from: nat, first: nat,
                           x: Cause, pending: Option<Key>)
  {
    && states != [] && Caused(states, hints, faulty, from, W.maxAttempts, x) && (pending.Some? ==> x.RequestFailed?)
    && (x.ManifestGone? || x.PackGone? ==> TargetOk(states, hints, W, from, first, x.base + 1))
    && (x.HeadsVanished? ==> Replayable(W.changes, W.policy))
  }

  /** One attempt later: the target or the error in terms of the whole loop. */
  lemma MovedOn(b: Bucket, states: seq<State>, hints: set<nat>, W: Writer, from: nat, first: nat, before: Phase,
                ph: Phase)
    requires states != [] && states <= b.states && hints <= b.hints && from < |states|
    requires before.Attempting? && before in Standing(states, hints, b.faulty, W, from, first)
    requires ph.Attempting? ==> TargetOk(b.states, b.hints, W, |states| - 1, before.target, ph.target)
    requires ph.Finished? ==> ErrorOk(b, W, |states| - 1, before.target - 1, ph.outcome)
    requires ph.Finished? && ph.outcome.Committed? ==> ph.outcome.key.gen == before.target
    ensures ph in Standing(b.states, b.hints, b.faulty, W, from, first)
  {
    Retargeted(states, b.states, hints, b.hints, W, from, |states| - 1, first, before.target,
               if ph.Attempting? then ph.target else before.target);
    if ph.Finished? && ph.outcome.Raised? {
      CausedSince(b.states, b.hints, b.faulty, |states| - 1, from, W.maxAttempts, ph.outcome.cause);
    }
  }

  /** What the last word of the loop says. */
  lemma LastWord(states: seq<State>, hints: set<nat>, faulty: bool, W: Writer, from: nat, first: nat, o: CommitOutcome)
    requires Finished(o) in Standing(states, hints, faulty, W, from, first)
    ensures o.Committed? ==> TargetOk(states, hints, W, from, first, o.key.gen)
    ensures o.Raised? ==> RaisedOk(states, hints, faulty, W, from, first, o.cause, o.pending)
  {
  }

  lemma SettledNow(c: Config, ss: seq<State>, es: seq<Event>, w: nat, o: CommitOutcome)
    requires IsRun(c, ss, es) && w in ss[|es|].writers && Reached(ss[|es|].writers[w], o)
    ensures Settled(c, ss[|es|], w, o)
  {
    LakeTheorems.RunKeepsInv(c, ss, es, |es|);
    ReachedIsSettled(c, ss[|es|], w, o);
  }
}

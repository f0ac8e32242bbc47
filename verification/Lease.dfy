/**
 * The TTL lease as a step machine: any number of lease objects, each acting through conditional writes of one object in
 * the bucket, some of which land long after their sender gave up on them.
 */
module LeaseProtocol {
  import opened Wrappers
  import Chunk
  import ObjectStore

  type Holder = nat

  /** What a holder may do with what it observed. */
  datatype LeaseState = Vacant | HeldByOther(secondsLeft: int) | Acquirable(etag: nat)

  /** One read of the lease; the holder of an unparsable body is None and its ttl 0. */
  datatype Observed = Observed(holder: Option<Holder>, secondsLeft: int, etag: nat)

  function ClassifyLease(observed: Option<Observed>, me: Holder): LeaseState {
    match observed
    case None => Vacant
    case Some(o) => if o.holder != Some(me) && o.secondsLeft > 0 then HeldByOther(o.secondsLeft) else Acquirable(o.etag)
  }

  /** One write of the lease object, at a time of the store's clock. Its etag is its number, counting from 1. */
  datatype Write = Write(holder: Option<Holder>, ttl: nat, at: nat, author: Option<nat>)

  /** A conditional write on the wire: it may land whenever version `etag` is current, 0 meaning no object at all. */
  datatype Request = Request(c: nat, holder: Holder, etag: nat, ttl: nat)

  /** A lease object in some process; `seen` is the version it last read, `now` its probe of the store's clock. */
  datatype Client = Client(holder: Holder, ttl: nat, etag: Option<nat>, seen: Option<nat>, now: Option<nat>)

  datatype State = State(clock: nat, writes: seq<Write>, clients: map<nat, Client>, wire: set<Request>)

  /** `heard` is false when no response arrives: the request is on the wire and may land later, or never. */
  datatype Event =
    | Tick(d: nat)
    | Garble                          // something else overwrites the object with rubbish
    | Late(q: Request)
    | Join(c: nat, holder: Holder, ttl: nat)
    | Create(c: nat, heard: bool)
    | Get(c: nat)
    | Probe(c: nat)
    | TakeOver(c: nat, heard: bool)
    | Renew(c: nat, heard: bool)
    | Release(c: nat, heard: bool)

  // --- etags and version numbers --------------------------------------------------------------------

  /** How many of the store's writes up to etag e went to this key. */
  function Version(history: seq<(string, Chunk.Bytes)>, key: string, e: nat): nat
    requires e < |history|
  {
    if e == 0 then 0 else Version(history, key, e - 1) + (if history[e].0 == key then 1 else 0)
  }

  lemma {:induction false} VersionGrows(history: seq<(string, Chunk.Bytes)>, key: string, e: nat, f: nat)
    requires e <= f < |history|
    ensures Version(history, key, e) <= Version(history, key, f)
  {
    if e < f { VersionGrows(history, key, e, f - 1); }
  }

  /**
   * Numbering the writes of one key stands for the store's etags, which count the writes of all keys: a conditional
   * write compares etags for equality, and two etags of that key are equal exactly when their numbers are.
   */
  lemma NumbersStandForEtags(store: ObjectStore.InMemoryObjectStore, key: string, e: nat, f: nat)
    requires store.Valid() && 0 < e < |store.history| && 0 < f < |store.history|
    requires store.history[e].0 == key && store.history[f].0 == key
    ensures e == f <==> Version(store.history, key, e) == Version(store.history, key, f)
  {
    if e < f { VersionGrows(store.history, key, e, f - 1); }
    if f < e { VersionGrows(store.history, key, f, e - 1); }
  }

  // --- steps ------------------------------------------------------------------------------------

  function Observation(s: State, c: nat): Option<Observed>
    requires c in s.clients
  {
    var k := s.clients[c];
    if k.seen.None? || k.now.None? || k.seen.value == 0 || k.seen.value > |s.writes| then None
    else
      var w := s.writes[k.seen.value - 1];
      Some(Observed(w.holder, w.ttl - (k.now.value - w.at), k.seen.value))
  }

  predicate Enabled(s: State, e: Event) {
    match e
    case Tick(_) => true
    case Garble => true
    case Late(q) => q in s.wire && q.etag == |s.writes|
    case Join(c, _, _) => c !in s.clients
    case Create(c, _) => c in s.clients
    case Get(c) => c in s.clients && s.writes != []
    case Probe(c) => c in s.clients && s.clients[c].seen.Some?
    case TakeOver(c, _) => c in s.clients && ClassifyLease(Observation(s, c), s.clients[c].holder).Acquirable?
    case Renew(c, _) => c in s.clients && s.clients[c].etag.Some?
    case Release(c, _) => c in s.clients && s.clients[c].etag.Some?
  }

  /** A conditional write takes effect only on the version it names. */
  function Apply(s: State, q: Request): State {
    if q.etag == |s.writes| then s.(writes := s.writes + [Write(Some(q.holder), q.ttl, s.clock, Some(q.c))]) else s
  }

  function WithClient(s: State, c: nat, k: Client): State {
    s.(clients := s.clients[c := k])
  }

  /** The request of client c on version `etag`. */
  function RequestOf(s: State, c: nat, etag: nat, ttl: nat): Request
    requires c in s.clients
  {
    Request(c, s.clients[c].holder, etag, ttl)
  }

  /** A heard request takes effect or is refused, and the client's etag becomes this; an unheard one is on its way. */
  function Sent(s: State, q: Request, heard: bool, accepted: Option<nat>, refused: Option<nat>): State
    requires q.c in s.clients
  {
    if !heard then s.(wire := s.wire + {q})
    else WithClient(Apply(s, q), q.c, s.clients[q.c].(etag := if q.etag == |s.writes| then accepted else refused))
  }

  function Do(s: State, e: Event): State
    requires Enabled(s, e)
  {
    match e
    case Tick(d) => s.(clock := s.clock + d)
    case Garble => s.(writes := s.writes + [Write(None, 0, s.clock, None)])
    case Late(q) => Apply(s, q)
    case Join(c, holder, ttl) => WithClient(s, c, Client(holder, ttl, None, None, None))
    case Get(c) => WithClient(s, c, s.clients[c].(seen := Some(|s.writes|), now := None))
    case Probe(c) => WithClient(s, c, s.clients[c].(now := Some(s.clock)))
    case Create(c, heard) =>
      Sent(s, RequestOf(s, c, 0, s.clients[c].ttl), heard, Some(|s.writes| + 1), s.clients[c].etag)
    case TakeOver(c, heard) =>
      var q := RequestOf(s, c, s.clients[c].seen.value, s.clients[c].ttl);
      Sent(s, q, heard, Some(|s.writes| + 1), s.clients[c].etag)
    case Renew(c, heard) =>
      Sent(s, RequestOf(s, c, s.clients[c].etag.value, s.clients[c].ttl), heard, Some(|s.writes| + 1), None)
    case Release(c, heard) =>
      Sent(s, RequestOf(s, c, s.clients[c].etag.value, 0), heard, None, None)
  }

  // --- the invariant ------------------------------------------------------------------------------------

  /** Who may write over w at this time: its own holder always, another one once the ttl has run out. */
  predicate MayFollow(w: Write, holder: Holder, time: nat) {
    w.at <= time && (w.holder == Some(holder) || w.at + w.ttl <= time)
  }

  predicate Handover(w: Write, next: Write) {
    w.at <= next.at && (next.holder.Some? ==> MayFollow(w, next.holder.value, next.at))
  }

  predicate Legal(writes: seq<Write>, clock: nat) {
    && (forall i :: 0 < i < |writes| ==> Handover(writes[i - 1], writes[i]))
    && (writes != [] ==> writes[|writes| - 1].at <= clock)
  }

  /** A lease object's etag is one of its own writes; what it saw is a version that existed when it read the clock. */
  predicate ClientOk(s: State, c: nat)
    requires c in s.clients
  {
    var k := s.clients[c];
    && (k.etag.Some? ==> 0 < k.etag.value <= |s.writes|
                         && s.writes[k.etag.value - 1].author == Some(c)
                             && s.writes[k.etag.value - 1].holder == Some(k.holder))
    && (k.seen.Some? ==> 0 < k.seen.value <= |s.writes|)
    && (k.now.Some? ==> k.now.value <= s.clock)
  }

  /** Should this request land, it lands on a version its holder may write over. */
  predicate RequestOk(s: State, q: Request) {
    && q.c in s.clients && s.clients[q.c].holder == q.holder
    && (q.etag > 0 ==> q.etag <= |s.writes| && MayFollow(s.writes[q.etag - 1], q.holder, s.clock))
  }

  predicate Inv(s: State) {
    && Legal(s.writes, s.clock) && (forall w :: w in s.writes && w.holder.None? ==> w.ttl == 0)
    && (forall c :: c in s.clients ==> ClientOk(s, c))
    && (forall q :: q in s.wire ==> RequestOk(s, q))
  }

  lemma WriteKeepsLegal(writes: seq<Write>, clock: nat, w: Write)
    requires Legal(writes, clock) && w.at == clock
    requires writes != [] ==> Handover(writes[|writes| - 1], w)
    ensures Legal(writes + [w], clock)
  {
  }

  lemma ApplyKeepsLegal(s: State, q: Request)
    requires Inv(s) && RequestOk(s, q)
    ensures Legal(Apply(s, q).writes, s.clock)
  {
    if q.etag == |s.writes| { WriteKeepsLegal(s.writes, s.clock, Write(Some(q.holder), q.ttl, s.clock, Some(q.c))); }
  }

  /** The requests a step sends are all right. */
  lemma TakeOverIsOk(s: State, c: nat)
    requires Inv(s) && Enabled(s, TakeOver(c, true))
    ensures RequestOk(s, RequestOf(s, c, s.clients[c].seen.value, s.clients[c].ttl))
  {
    assert ClientOk(s, c);
    TimesBelowClock(s, s.clients[c].seen.value - 1);
  }

  lemma OwnVersionIsOk(s: State, c: nat, ttl: nat)
    requires Inv(s) && c in s.clients && s.clients[c].etag.Some?
    ensures RequestOk(s, RequestOf(s, c, s.clients[c].etag.value, ttl))
  {
    assert ClientOk(s, c);
    TimesBelowClock(s, s.clients[c].etag.value - 1);
  }

  lemma TimesBelowClock(s: State, i: nat)
    requires Legal(s.writes, s.clock) && i < |s.writes|
    ensures s.writes[i].at <= s.clock
  {
    TimesIncrease(s.writes, i, |s.writes| - 1);
  }

  lemma {:induction false} TimesIncrease(writes: seq<Write>, i: nat, j: nat)
    requires (forall k :: 0 < k < |writes| ==> Handover(writes[k - 1], writes[k])) && i <= j < |writes|
    ensures writes[i].at <= writes[j].at
  {
    if i < j {
      TimesIncrease(writes, i, j - 1);
      assert Handover(writes[j - 1], writes[j]);
    }
  }

  /** The request behind an event, if it sends one or lands one. */
  function Behind(s: State, e: Event): Option<Request>
    requires Enabled(s, e)
  {
    match e
    case Late(q) => Some(q)
    case Create(c, _) => Some(RequestOf(s, c, 0, s.clients[c].ttl))
    case TakeOver(c, _) => Some(RequestOf(s, c, s.clients[c].seen.value, s.clients[c].ttl))
    case Renew(c, _) => Some(RequestOf(s, c, s.clients[c].etag.value, s.clients[c].ttl))
    case Release(c, _) => Some(RequestOf(s, c, s.clients[c].etag.value, 0))
    case _ => None
  }

  lemma BehindIsOk(s: State, e: Event)
    requires Inv(s) && Enabled(s, e) && Behind(s, e).Some?
    ensures RequestOk(s, Behind(s, e).value)
  {
    match e {
      case TakeOver(c, _) => TakeOverIsOk(s, c);
      case Renew(c, _) => OwnVersionIsOk(s, c, s.clients[c].ttl);
      case Release(c, _) => OwnVersionIsOk(s, c, 0);
      case _ =>
    }
  }

  lemma StepKeepsLegal(s: State, e: Event)
    requires Inv(s) && Enabled(s, e)
    ensures Legal(Do(s, e).writes, Do(s, e).clock)
  {
    if Behind(s, e).Some? {
      BehindIsOk(s, e);
      ApplyKeepsLegal(s, Behind(s, e).value);
    } else if e.Garble? {
      WriteKeepsLegal(s.writes, s.clock, Write(None, 0, s.clock, None));
    }
  }

  /** Writes only accumulate, at most one at a time, and holders never change. */
  lemma StepGrows(s: State, e: Event)
    requires Enabled(s, e)
    ensures s.writes <= Do(s, e).writes && |Do(s, e).writes| <= |s.writes| + 1 && s.clock <= Do(s, e).clock
    ensures forall c :: c in s.clients ==> c in Do(s, e).clients && Do(s, e).clients[c].holder == s.clients[c].holder
  {
  }

  lemma GrowthKeepsClient(s: State, s': State, c: nat)
    requires c in s.clients && c in s'.clients && s'.clients[c] == s.clients[c] && ClientOk(s, c)
    requires s.writes <= s'.writes && s.clock <= s'.clock
    ensures ClientOk(s', c)
  {
  }

  lemma OwnStepKeepsClient(s: State, e: Event, c: nat)
    requires Enabled(s, e) && c in s.clients && Do(s, e).clients[c] != s.clients[c] && ClientOk(s, c)
    requires s.clock <= Do(s, e).clock
    ensures ClientOk(Do(s, e), c)
  {
  }

  lemma StepKeepsClient(s: State, e: Event, c: nat)
    requires Inv(s) && Enabled(s, e) && c in Do(s, e).clients
    ensures ClientOk(Do(s, e), c)
  {
    StepGrows(s, e);
    if c in s.clients {
      assert ClientOk(s, c);
      if Do(s, e).clients[c] == s.clients[c] {
        GrowthKeepsClient(s, Do(s, e), c);
      } else {
        OwnStepKeepsClient(s, e, c);
      }
    }
  }

  lemma GrowthKeepsRequest(s: State, s': State, q: Request)
    requires RequestOk(s, q) && s.writes <= s'.writes && s.clock <= s'.clock
    requires q.c in s'.clients && s'.clients[q.c].holder == q.holder
    ensures RequestOk(s', q)
  {
  }

  lemma StepKeepsWire(s: State, e: Event, q: Request)
    requires Inv(s) && Enabled(s, e) && q in Do(s, e).wire
    ensures RequestOk(Do(s, e), q)
  {
    StepGrows(s, e);
    if q !in s.wire { BehindIsOk(s, e); }
    GrowthKeepsRequest(s, Do(s, e), q);
  }

  lemma StepKeepsInv(s: State, e: Event)
    requires Inv(s) && Enabled(s, e)
    ensures Inv(Do(s, e))
  {
    StepKeepsLegal(s, e);
    forall c | c in Do(s, e).clients ensures ClientOk(Do(s, e), c) { StepKeepsClient(s, e, c); }
    forall q | q in Do(s, e).wire ensures RequestOk(Do(s, e), q) { StepKeepsWire(s, e, q); }
  }

  // --- runs -------------------------------------------------------------------------------------------------

  const Start := State(0, [], map[], {})

  ghost predicate IsRun(ss: seq<State>, es: seq<Event>) {
    && |ss| == |es| + 1 && ss[0] == Start
    && forall i :: 0 <= i < |es| ==> StepAt(ss, es, i)
  }

  ghost predicate StepAt(ss: seq<State>, es: seq<Event>, i: nat)
    requires i < |es| && |ss| == |es| + 1
  {
    Enabled(ss[i], es[i]) && ss[i + 1] == Do(ss[i], es[i])
  }

  lemma {:induction false} RunKeepsInv(ss: seq<State>, es: seq<Event>, i: nat)
    requires IsRun(ss, es) && i < |ss|
    ensures Inv(ss[i])
  {
    if i > 0 {
      RunKeepsInv(ss, es, i - 1);
      assert StepAt(ss, es, i - 1);
      StepKeepsInv(ss[i - 1], es[i - 1]);
    }
  }

  lemma {:induction false} WritesGrow(ss: seq<State>, es: seq<Event>, i: nat, j: nat)
    requires IsRun(ss, es) && i <= j < |ss|
    ensures ss[i].writes <= ss[j].writes && ss[i].clock <= ss[j].clock
  {
    if i < j {
      WritesGrow(ss, es, i, j - 1);
      assert StepAt(ss, es, j - 1);
      StepGrows(ss[j - 1], es[j - 1]);
    }
  }

  /** Nobody needs to wait for this holder: nothing there, its own, rubbish, or run out. */
  predicate Free(s: State, me: Holder) {
    s.writes == [] || var w := s.writes[|s.writes| - 1]; w.holder == Some(me) || w.at + w.ttl <= s.clock
  }

  /**
   * What the classification is for: in every run, whichever way a write reaches the store and however late, at the
   * moment it lands the lease is free for its holder. A live lease of someone else is never overwritten by a lease
   * object.
   */
  lemma OnlyFreeLeasesAreTaken(ss: seq<State>, es: seq<Event>, i: nat)
    requires IsRun(ss, es) && i < |es| && |ss[i].writes| < |ss[i + 1].writes|
    requires ss[i + 1].writes[|ss[i].writes|].holder.Some?
    ensures Free(ss[i], ss[i + 1].writes[|ss[i].writes|].holder.value)
  {
    assert StepAt(ss, es, i);
    RunKeepsInv(ss, es, i);
    if Behind(ss[i], es[i]).Some? { BehindIsOk(ss[i], es[i]); }
  }

  /** At most one lease object holds the current etag. */
  lemma AtMostOneHolds(ss: seq<State>, es: seq<Event>, i: nat, c: nat, d: nat)
    requires IsRun(ss, es) && i < |ss| && c in ss[i].clients && d in ss[i].clients
    requires ss[i].clients[c].etag == ss[i].clients[d].etag == Some(|ss[i].writes|)
    ensures c == d
  {
    RunKeepsInv(ss, es, i);
    assert ClientOk(ss[i], c) && ClientOk(ss[i], d);
  }

  /**
   * A holder that has been superseded can neither renew nor, by releasing, touch its successor's lease: nothing is
   * written now, and what may be on the wire names a version that will never be current again.
   */
  lemma SupersededIsPowerless(ss: seq<State>, es: seq<Event>, i: nat, j: nat, c: nat, heard: bool)
    requires IsRun(ss, es) && i <= j < |ss| && c in ss[i].clients && c in ss[j].clients
    requires ss[i].clients[c].etag.Some? && ss[i].clients[c].etag.value < |ss[i].writes|
    requires ss[j].clients[c].etag == ss[i].clients[c].etag
    ensures Do(ss[j], Renew(c, heard)).writes == ss[j].writes && Do(ss[j], Release(c, heard)).writes == ss[j].writes
    ensures heard ==> Do(ss[j], Renew(c, heard)).clients[c].etag == None
    ensures forall q: Request :: q.etag <= ss[i].clients[c].etag.value ==> !Enabled(ss[j], Late(q))
  {
    WritesGrow(ss, es, i, j);
  }

  /**
   * Exclusion: the interval a holder gets from its last write never overlaps a later holder's, on the store's clock. It
   * takes distinct holder ids, and that the write right after the holder's last one is not rubbish.
   */
  lemma LiveIntervalsDisjoint(ss: seq<State>, es: seq<Event>, i: nat, a: nat, b: nat)
    requires IsRun(ss, es) && i < |ss| && a < b < |ss[i].writes|
    requires var ws := ss[i].writes; ws[a + 1].holder.Some? && ws[a + 1].holder != ws[a].holder
    ensures ss[i].writes[a].at + ss[i].writes[a].ttl <= ss[i].writes[b].at
  {
    RunKeepsInv(ss, es, i);
    assert Handover(ss[i].writes[a + 1 - 1], ss[i].writes[a + 1]);
    TimesIncrease(ss[i].writes, a + 1, b);
  }

  /** A run, played on from state s. */
  ghost predicate PlayedOn(s: State, es: seq<Event>, t: State)
    decreases |es|
  {
    if es == [] then s == t else Enabled(s, es[0]) && PlayedOn(Do(s, es[0]), es[1..], t)
  }

  /** Which it must not be: after rubbish over a live lease any newcomer can take over at once. */
  lemma RubbishEndsExclusion(s: State, newcomer: nat, holder: Holder) returns (es: seq<Event>, t: State)
    requires Inv(s) && |s.writes| >= 2 && newcomer !in s.clients
    requires s.writes[|s.writes| - 1].holder.None?
    requires var w := s.writes[|s.writes| - 2]; w.holder.Some? && w.holder.value != holder && s.clock < w.at + w.ttl
    ensures PlayedOn(s, es, t) && |t.writes| == |s.writes| + 1 && s.writes <= t.writes
    ensures var w, next := t.writes[|s.writes| - 2], t.writes[|s.writes|];
            next.holder == Some(holder) != w.holder && next.at < w.at + w.ttl
  {
    var n := |s.writes|;
    TimesBelowClock(s, n - 1);
    assert s.writes[n - 1] in s.writes;
    var s1 := Do(s, Join(newcomer, holder, 100));
    var s2 := Do(s1, Get(newcomer));
    var s3 := Do(s2, Probe(newcomer));
    t := Do(s3, TakeOver(newcomer, true));
    es := [Join(newcomer, holder, 100), Get(newcomer), Probe(newcomer), TakeOver(newcomer, true)];
    assert PlayedOn(t, [], t);
    assert es[1..][1..][1..] == [TakeOver(newcomer, true)];
    assert PlayedOn(s3, es[1..][1..][1..], t);
    assert PlayedOn(s2, es[1..][1..], t);
    assert PlayedOn(s1, es[1..], t);
  }

  /** With equal holder ids there is no exclusion: the second object takes over a lease live for 100 more seconds. */
  lemma SameHolderTakesOver() returns (ss: seq<State>, es: seq<Event>)
    ensures IsRun(ss, es)
    ensures var s := ss[|es|];
            && |s.writes| == 2 && s.writes[0].author == Some(0) && s.writes[1].author == Some(1)
            && s.writes[1].at < s.writes[0].at + s.writes[0].ttl
            && 1 in s.clients && s.clients[1].etag == Some(2)
  {
    var s1 := Do(Start, Join(0, 7, 100));
    var s2 := Do(s1, Create(0, true));
    var s3 := Do(s2, Join(1, 7, 100));
    var s4 := Do(s3, Get(1));
    var s5 := Do(s4, Probe(1));
    var s6 := Do(s5, TakeOver(1, true));
    ss := [Start, s1, s2, s3, s4, s5, s6];
    es := [Join(0, 7, 100), Create(0, true), Join(1, 7, 100), Get(1), Probe(1), TakeOver(1, true)];
  }

  // --- the lease object ------------------------------------------------------------------------------------

  /** Writes by c after the first n are late landings of requests that were on this wire. */
  predicate OnlyLate(writes: seq<Write>, n: nat, c: nat, wire: set<Request>) {
    forall i :: n <= i < |writes| && writes[i].author == Some(c) ==>
      exists q :: q in wire && q.c == c && q.etag == i && writes[i].holder == Some(q.holder) && writes[i].ttl == q.ttl
  }

  predicate SameRequests(before: set<Request>, after: set<Request>, c: nat) {
    (forall q :: q in before && q.c == c ==> q in after) && (forall q :: q in after && q.c == c ==> q in before)
  }

  /** What everyone but lease object c, and its own late requests, may do between two of its store operations. */
  predicate Others(s: State, t: State, c: nat) {
    && Inv(t) && s.writes <= t.writes && s.clock <= t.clock
    && c in s.clients && c in t.clients && t.clients[c] == s.clients[c]
    && SameRequests(s.wire, t.wire, c) && OnlyLate(t.writes, |s.writes|, c, s.wire)
  }

  datatype Reply = Accepted | Refused | NoReply

  class Bucket {
    const quiet: bool  // nobody else acts and every response arrives
    var s: State

    constructor (quiet: bool, s: State)
      ensures this.quiet == quiet && this.s == s
    {
      this.quiet, this.s := quiet, s;
    }

    method Interfere(c: nat)
      requires Inv(s) && c in s.clients
      modifies this
      ensures Others(old(s), s, c) && (quiet ==> s == old(s))
    {
      var t: State := *;
      if !quiet && Others(s, t, c) { s := t; }
    }

    /** One conditional write, as event e if its response arrives. */
    method Put(c: nat, e: Event) returns (r: Reply)
      requires Inv(s) && c in s.clients && Enabled(s, e) && Conditional(e, c)
      modifies this
      ensures Inv(s) && c in s.clients && old(s).writes <= s.writes
      ensures PutOutcome(old(s), s, c, e, r)
      ensures quiet ==> !r.NoReply? && s.clock == old(s).clock
      ensures quiet ==> (r.Accepted? <==> Behind(old(s), e).value.etag == |old(s).writes|)
      ensures quiet && r.Refused? ==> s.writes == old(s).writes && s.wire == old(s).wire
    {
      Interfere(c);
      StillPossible(old(s), s, c, e);
      var answered: bool := *;
      if !quiet && !answered {
        UnansweredPut(old(s), s, c, e);
        s := Do(s, e.(heard := false));
        return NoReply;
      }
      AnsweredPut(old(s), s, c, e);
      r := if Behind(s, e).value.etag == |s.writes| then Accepted else Refused;
      s := Do(s, e);
    }

    /** GET, then a probe of the store's clock. */
    method Observe(c: nat) returns (o: Option<Observed>)
      requires Inv(s) && c in s.clients && s.writes != []
      modifies this
      ensures Inv(s) && old(s).writes <= s.writes && c in s.clients
      ensures OnlyLate(s.writes, |old(s).writes|, c, old(s).wire) && SameRequests(old(s).wire, s.wire, c)
      ensures s.clients[c] == old(s).clients[c].(seen := s.clients[c].seen, now := s.clients[c].now)
      ensures o.Some? && o == Observation(s, c) && s.clients[c].seen == Some(o.value.etag)
      ensures quiet ==> s.writes == old(s).writes && s.clock == old(s).clock && o.value.etag == |s.writes|
      ensures quiet ==> var w := s.writes[|s.writes| - 1];
                        o.value.holder == w.holder && o.value.secondsLeft == w.ttl - (s.clock - w.at)
    {
      Interfere(c);
      ghost var mid := s;
      StepKeepsInv(s, Get(c));
      s := Do(s, Get(c));
      Interfere(c);
      StepKeepsInv(s, Probe(c));
      s := Do(s, Probe(c));
      assert ClientOk(s, c);
      o := Observation(s, c);
    }
  }

  predicate Conditional(e: Event, c: nat) {
    e == Create(c, true) || e == TakeOver(c, true) || e == Renew(c, true) || e == Release(c, true)
  }

  /** The etag a lease object is left with: a failed renewal or release forgets it, a failed acquisition keeps it. */
  function EtagAfter(s: State, c: nat, e: Event, accepted: bool): Option<nat>
    requires c in s.clients
  {
    if e.Release? then None
    else if accepted then Some(|s.writes| + 1)
    else if e.Renew? then None
    else s.clients[c].etag
  }

  /** What a conditional write did, by its reply; without one it may still land. */
  predicate PutOutcome(s: State, t: State, c: nat, e: Event, r: Reply)
    requires c in s.clients && Conditional(e, c) && Enabled(s, e) && c in t.clients
  {
    var q := Behind(s, e).value;
    match r
    case Accepted =>
      && q.etag == |s.writes| && t.clients[c] == s.clients[c].(etag := EtagAfter(s, c, e, true))
      && t.writes == s.writes + [Write(Some(q.holder), q.ttl, t.clock, Some(c))] && SameRequests(s.wire, t.wire, c)
    case Refused =>
      && q.etag != |t.writes| && t.clients[c] == s.clients[c].(etag := EtagAfter(s, c, e, false))
      && OnlyLate(t.writes, |s.writes|, c, s.wire) && SameRequests(s.wire, t.wire, c)
    case NoReply =>
      && t.clients[c] == s.clients[c]
      && OnlyLate(t.writes, |s.writes|, c, s.wire) && SameRequests(s.wire + {q}, t.wire, c)
  }

  /** Others change nothing about a request that is about to be sent. */
  lemma StillPossible(s: State, t: State, c: nat, e: Event)
    requires Inv(s) && Others(s, t, c) && Conditional(e, c) && Enabled(s, e)
    ensures Enabled(t, e) && Enabled(t, e.(heard := false)) && Behind(t, e) == Behind(s, e)
    ensures Behind(t, e.(heard := false)) == Behind(s, e)
  {
    assert ClientOk(s, c);
  }

  lemma AnsweredPut(s: State, t: State, c: nat, e: Event)
    requires Inv(s) && Others(s, t, c) && Conditional(e, c) && Enabled(s, e) && Enabled(t, e)
              && Behind(t, e) == Behind(s, e)
    ensures Inv(Do(t, e)) && c in Do(t, e).clients
    ensures PutOutcome(s, Do(t, e), c, e, if Behind(s, e).value.etag == |t.writes| then Accepted else Refused)
  {
    StepKeepsInv(t, e);
    RequestNamesOldVersion(s, c, e);
    if Behind(s, e).value.etag == |t.writes| { AcceptedPut(s, t, c, e); } else { RefusedPut(s, t, c, e); }
  }

  lemma AcceptedPut(s: State, t: State, c: nat, e: Event)
    requires Others(s, t, c) && Conditional(e, c) && Enabled(s, e) && Enabled(t, e) && Behind(t, e) == Behind(s, e)
    requires Behind(s, e).value.etag == |t.writes| <= |s.writes|
    ensures c in Do(t, e).clients && PutOutcome(s, Do(t, e), c, e, Accepted)
  {
  }

  lemma RefusedPut(s: State, t: State, c: nat, e: Event)
    requires Others(s, t, c) && Conditional(e, c) && Enabled(s, e) && Enabled(t, e) && Behind(t, e) == Behind(s, e)
    requires Behind(s, e).value.etag != |t.writes|
    ensures c in Do(t, e).clients && PutOutcome(s, Do(t, e), c, e, Refused)
  {
  }

  lemma UnansweredPut(s: State, t: State, c: nat, e: Event)
    requires Inv(s) && Others(s, t, c) && Conditional(e, c) && Enabled(s, e)
    requires Enabled(t, e.(heard := false)) && Behind(t, e.(heard := false)) == Behind(s, e)
    ensures Inv(Do(t, e.(heard := false))) && c in Do(t, e.(heard := false)).clients
    ensures PutOutcome(s, Do(t, e.(heard := false)), c, e, NoReply)
  {
    StepKeepsInv(t, e.(heard := false));
  }

  /** A request names a version that already exists. */
  lemma RequestNamesOldVersion(s: State, c: nat, e: Event)
    requires Inv(s) && Conditional(e, c) && Enabled(s, e)
    ensures Behind(s, e).value.etag <= |s.writes|
  {
    BehindIsOk(s, e);
  }

  datatype Answer = Yes | No | Unclear

  /** Between two states of the bucket, c wrote nothing but late requests, and sent nothing. */
  ghost predicate Idle(s: State, t: State, c: nat) {
    s.writes <= t.writes && OnlyLate(t.writes, |s.writes|, c, s.wire) && SameRequests(s.wire, t.wire, c)
  }

  lemma IdleTwice(s: State, t: State, u: State, c: nat)
    requires Idle(s, t, c) && Idle(t, u, c)
    ensures Idle(s, u, c)
  {
    forall i | |s.writes| <= i < |u.writes| && u.writes[i].author == Some(c)
      ensures exists q :: q in s.wire && q.c == c && q.etag == i && u.writes[i].holder == Some(q.holder)
                && u.writes[i].ttl == q.ttl
    {
      if i < |t.writes| { assert t.writes[i] == u.writes[i]; }
    }
  }

  /** The lease object of one process: it remembers the etag of its last successful write. */
  class Lease {
    const id: nat
    const holder: Holder
    const ttl: nat
    var etag: Option<nat>

    constructor (id: nat, holder: Holder, ttl: nat)
      ensures this.id == id && this.holder == holder && this.ttl == ttl && etag == None
    {
      this.id, this.holder, this.ttl, this.etag := id, holder, ttl, None;
    }

    /** The machine knows this object by its id. */
    predicate Mirrors(s: State)
      reads this
    {
      Inv(s) && id in s.clients && s.clients[id].holder == holder && s.clients[id].ttl == ttl
          && s.clients[id].etag == etag
    }

    /** What holding means: the current version is this object's own write. */
    predicate Holds(s: State)
      reads this
    {
      && etag == Some(|s.writes|) && s.writes != []
      && var w := s.writes[|s.writes| - 1]; w.holder == Some(holder) && w.author == Some(id)
    }

    /**
     * Yes iff this object now holds the lease; No wrote nothing. Undisturbed, it succeeds exactly when the lease is
     * free for this holder, so a crashed holder blocks others for one ttl and no longer.
     */
    method Acquire(b: Bucket) returns (a: Answer)
      requires Mirrors(b.s)
      modifies this, b
      ensures Mirrors(b.s) && old(b.s).writes <= b.s.writes
      ensures a.Yes? ==> Holds(b.s) && b.s.writes[|b.s.writes| - 1].ttl == ttl
      ensures a.No? ==> etag == old(etag) && Idle(old(b.s), b.s, id)
      ensures a.Unclear? ==> etag == old(etag)
      ensures b.quiet ==> !a.Unclear? && (a.Yes? <==> Free(old(b.s), holder))
    {
      var created := b.Put(id, Create(id, true));
      if created.Accepted? { etag := Some(1); }
      if !created.Refused? { return if created.Accepted? then Yes else Unclear; }
      a := TakeOverIfFree(b, old(b.s));
    }

    /** The second half of Acquire, once there is a lease object. */
    method TakeOverIfFree(b: Bucket, ghost s0: State) returns (a: Answer)
      requires Mirrors(b.s) && b.s.writes != [] && Idle(s0, b.s, id)
      requires b.quiet ==> b.s.writes == s0.writes && b.s.clock == s0.clock
      modifies this, b
      ensures Mirrors(b.s) && old(b.s).writes <= b.s.writes
      ensures a.Yes? ==> Holds(b.s) && b.s.writes[|b.s.writes| - 1].ttl == ttl
      ensures a.No? ==> etag == old(etag) && Idle(s0, b.s, id)
      ensures a.Unclear? ==> etag == old(etag)
      ensures b.quiet ==> !a.Unclear? && (a.Yes? <==> Free(s0, holder))
    {
      ghost var s1 := b.s;
      var observed := b.Observe(id);
      ghost var s2 := b.s;
      IdleTwice(s0, s1, s2, id);
      match ClassifyLease(observed, holder) {
        case Vacant => assert false;
        case HeldByOther(_) => return No;
        case Acquirable(seen) =>
          var taken := b.Put(id, Event.TakeOver(id, true));
          if taken.Refused? {
            IdleTwice(s0, s2, b.s, id);
            return No;
          }
          if taken.Accepted? { etag := Some(seen + 1); }
          return if taken.Accepted? then Yes else Unclear;
      }
    }

    /** Yes iff the lease was still this object's; then the ttl starts anew. No: the object knows it lost it. */
    method Renew(b: Bucket) returns (a: Answer)
      requires Mirrors(b.s)
      modifies this, b
      ensures Mirrors(b.s) && old(b.s).writes <= b.s.writes
      ensures a.Yes? ==> Holds(b.s) && old(etag) == Some(|b.s.writes| - 1) && b.s.writes[|b.s.writes| - 1].ttl == ttl
      ensures a.No? ==> etag == None && Idle(old(b.s), b.s, id) && old(etag) != Some(|b.s.writes|)
      ensures a.Unclear? ==> etag == old(etag)
      ensures b.quiet ==> !a.Unclear? && (a.Yes? <==> old(etag) == Some(|old(b.s).writes|))
    {
      if etag.None? { return No; }
      var current := etag.value;
      var r := b.Put(id, Event.Renew(id, true));
      match r {
        case Accepted =>
          etag := Some(current + 1);
          return Yes;
        case Refused =>
          etag := None;
          return No;
        case NoReply => return Unclear;
      }
    }

    /**
     * Gives up the lease if it is still this object's, by a body that has already run out; never touches a
     * successor's.
     */
    method Release(b: Bucket) returns (answered: bool)
      requires Mirrors(b.s)
      modifies this, b
      ensures Mirrors(b.s) && old(b.s).writes <= b.s.writes && etag == if answered then None else old(etag)
      ensures answered ==>
                || Idle(old(b.s), b.s, id)
                || (old(etag) == Some(|old(b.s).writes|)
                    && b.s.writes == old(b.s).writes + [Write(Some(holder), 0, b.s.clock, Some(id))])
      ensures b.quiet ==> answered
      ensures b.quiet && old(etag) == Some(|old(b.s).writes|) ==>
                |b.s.writes| == |old(b.s).writes| + 1 && forall other: Holder :: Free(b.s, other)
    {
      if etag.None? { return true; }
      var r := b.Put(id, Event.Release(id, true));
      if r.NoReply? { return false; }
      etag := None;
      return true;
    }
  }
}

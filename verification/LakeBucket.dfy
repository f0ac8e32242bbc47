/**
 * The bucket as one participant sees it: between any two of its operations everyone else may act. Every operation is an
 * event of the step machine, so a program over this bucket is a piece of a run and every theorem about runs applies.
 */
module LakeBucket {
  import opened Wrappers
  import opened Lake
  import opened LakeActors
  import LakeCommit
  import LakeTheorems

  /** The key formats have room for eight digits: no marker beyond this generation can be named. */
  const MAX_GENERATION := 99_999_999

  /** What this participant has deleted so far. */
  datatype Done = Done(keys: set<Key>, packs: set<Pack>)

  /**
   * The current state, and as history the whole run so far. `faulty` says whether requests may fail for no reason. On a
   * `quiet` bucket nobody else acts, every PUT lands at once and every request is answered. The hint is the advisory
   * object beside the markers: only head resolution reads it.
   */
  class Bucket {
    const c: Config
    const me: Actor
    const faulty: bool
    const quiet: bool
    var s: State
    var hint: Option<nat>
    ghost var states: seq<State>
    ghost var events: seq<Event>
    ghost var done: Done
    ghost var mark: nat             // since this step nothing a commit needs has gone, and no marker has come
    ghost var hints: set<nat>       // hints this participant has read
    ghost var lookups: nat          // markers this participant has read to find the head
    ghost var renewals: seq<bool>   // answers to this participant's lease renewals

    ghost predicate Valid()
      reads this
    {
      && IsRun(c, states, events) && states[|events|] == s && Top(s) <= MAX_GENERATION + 1
      && (quiet ==> !faulty) && (hint.Some? ==> hint.value <= MAX_GENERATION) && OnlyKeeps(events, mark)
    }

    constructor (c: Config, me: Actor, faulty: bool, quiet: bool)
      requires quiet ==> !faulty
      ensures Valid() && this.c == c && this.me == me && this.faulty == faulty && this.quiet == quiet
      ensures s == Empty && hint == None && done == Done({}, {}) && hints == {} && lookups == 0 && renewals == []
    {
      this.c, this.me, this.faulty, this.quiet, s, hint := c, me, faulty, quiet, Empty, None;
      states, events, done, mark, hints, lookups, renewals := [Empty], [], Done({}, {}), 0, {}, 0, [];
    }

    /** All there is to know about the bucket at this moment. */
    ghost function Now(): Moment
      reads this
    {
      Moment(s, states, events, done, hint, mark, renewals)
    }

    /** This participant only looked: others may have acted, but not on a quiet bucket. */
    twostate predicate Browsed()
      reads this
    {
      Valid() && (old(Now()), Now()) in Browsing(me, quiet)
    }

    /** History goes on, and on a quiet bucket no marker has come. */
    twostate predicate Onward()
      reads this
    {
      Along() && (quiet ==> mark == old(mark) && hint == old(hint))
    }

    twostate predicate Along()
      reads this
    {
      old(states) <= states && old(hints) <= hints
    }

    /** From here on. */
    ghost method SetMark()
      requires Valid()
      modifies this`mark
      ensures Valid() && mark == |events|
    {
      mark := |events|;
    }

    /** One event happens. */
    method Play(e: Event)
      requires Valid() && Enabled(c, s, e) && Nameable(e)
      modifies this`s, this`states, this`events, this`done, this`mark
      ensures Valid() && s == Do(c, old(s), e) && states == old(states) + [s]
      ensures Keeps(e) ==> mark == old(mark)
      ensures done == if IsBy(e, me) && e.Collecting? then Deleting(old(done), old(s), e.r, e.v) else old(done)
    {
      LandsInRange(c, states, events, e);
      if IsBy(e, me) && e.Collecting? { done := Deleting(done, s, e.r, e.v); }
      if !Keeps(e) { mark := |events| + 1; }
      s := Do(c, s, e);
      ExtendsRun(c, states, events, e);
      states, events := states + [s], events + [e];
    }

    /** Anyone else acts, any number of times. */
    method Interfere()
      requires Valid()
      modifies this`s, this`states, this`events, this`mark, this`done, this`hint
      ensures Valid() && done == old(done) && old(states) <= states
      ensures Untouched(old(s), s, me)
      ensures quiet ==> Now() == old(Now())
    {
      if quiet { return; }
      var n: int := *;
      for i := 0 to if n < 0 then 0 else n
        invariant Valid() && done == old(done) && old(states) <= states
        invariant Untouched(old(s), s, me)
      {
        Rival();
      }
    }

    /** Someone else acts, or puts another hint. */
    method Rival()
      requires Valid() && !quiet
      modifies this`s, this`states, this`events, this`mark, this`done, this`hint
      ensures Valid() && done == old(done) && old(states) <= states
      ensures Untouched(old(s), s, me)
    {
      hint := *;
      if hint.Some? && hint.value > MAX_GENERATION { hint := None; }
      var e: Event := *;
      if Enabled(c, s, e) && !IsBy(e, me) && Nameable(e) {
        OthersLeave(c, s, e, me);
        Play(e);
      }
    }

    /** Time passes, as far as this participant is concerned. */
    method Wait()
      requires Valid()
      modifies this`s, this`states, this`events, this`mark, this`done, this`hint
      ensures Browsed() && LakeTheorems.Extends(old(s), s)
    {
      ghost var i := |states| - 1;
      Interfere();
      LakeTheorems.TopGrows(c, states, events, i, |events|);
      LakeTheorems.MarkersStay(c, states, events, i, |events|);
    }

    /** A payload PUT is under way: it may land, now or later, and may be answered. */
    method AwaitPut(k: Key) returns (answered: bool)
      requires Valid() && k in s.sent
      modifies this`s, this`states, this`events, this`mark, this`done, this`hint
      ensures Valid() && done == old(done) && old(states) <= states
      ensures Untouched(old(s), s, me)
      ensures quiet ==> answered && hint == old(hint) && mark == old(mark)
      ensures quiet ==> if k in old(s).live then s == old(s) else k in s.landed
    {
      answered := *;
      if quiet {
        answered := true;
        if k !in s.live { Lands(Deliver(k)); }
      } else {
        Interfere();
      }
    }

    /** A marker create is under way. */
    method AwaitCreate(k: Key) returns (answered: bool)
      requires Valid() && k in s.proposed
      modifies this`s, this`states, this`events, this`mark, this`done, this`hint
      ensures Valid() && done == old(done) && old(states) <= states
      ensures Untouched(old(s), s, me)
      ensures quiet ==> answered && hint == old(hint)
      ensures quiet && k.gen !in old(s).markers && k.gen <= MAX_GENERATION ==>
                IsCommitted(s, k) && s.markers.Keys == old(s).markers.Keys + {k.gen}
    {
      answered := *;
      if quiet {
        answered := true;
        if k.gen !in s.markers && k.gen <= MAX_GENERATION {
          LandingCommits(s, k);
          Lands(Land(k));
        }
      } else {
        Interfere();
      }
    }

    /** The store serves what was on the wire. */
    method Lands(x: StoreEvent)
      requires Valid() && StoreEnabled(s, x) && Nameable(Store(x))
      modifies this`s, this`states, this`events, this`mark, this`done
      ensures Valid() && done == old(done) && old(states) <= states && s == DoStore(old(s), x)
      ensures x.Deliver? ==> mark == old(mark)
      ensures Untouched(old(s), s, me)
    {
      OthersLeave(c, s, Store(x), me);
      Play(Store(x));
    }

    /** This collector's next move. */
    method Act(v: GcEvent)
      requires Valid() && me.ACollector? && GcEnabled(c, s, me.id, v)
      modifies this`s, this`states, this`events, this`mark, this`done
      ensures Valid() && me.id in s.runners && s.runners[me.id] == RunnerAfter(c, old(s), me.id, v)
      ensures s.ledger == DoRunner(c, old(s), me.id, v).ledger
      ensures !v.Sweep? ==> s.live == old(s).live
      ensures done == Deleting(old(done), old(s), me.id, v) && states == old(states) + [s]
    {
      OnlySweepRemoves(c, s, me.id, v);
      MoveOfRunner(c, s, me.id, v);
      Play(Collecting(me.id, v));
    }

    /** This writer's next move. */
    method Write(u: WriterEvent)
      requires Valid() && me.AWriter? && WriterEnabled(s, me.id, u)
      modifies this`s, this`states, this`events, this`mark, this`done
      ensures Valid() && me.id in s.writers && s.writers[me.id] == WriterAfter(c, old(s), me.id, u)
      ensures s == DoWriter(c, old(s), me.id, u) && mark == old(mark)
      ensures done == old(done) && states == old(states) + [s]
    {
      MoveOfWriter(c, s, me.id, u);
      Play(Writing(me.id, u));
    }

    /** The advisory hint; missing, unreadable and absurd ones read as None. */
    method ReadHint() returns (h: Option<nat>)
      requires Valid()
      modifies this
      ensures Browsed() && h == hint && lookups == old(lookups)
      ensures hints == old(hints) + if h.Some? then {h.value} else {}
    {
      Wait();
      h := hint;
      if h.Some? { hints := hints + {h.value}; }
    }

    /** Best effort: a failure is swallowed. */
    method WriteHint(g: nat)
      requires Valid() && g <= MAX_GENERATION
      modifies this`hint
      ensures Valid() && (quiet ==> hint == Some(g))
    {
      var fails: bool := *;
      if quiet || !fails { hint := Some(g); }
    }

    /** Renews the maintenance lease; on a quiet bucket nobody can have taken it. */
    method RenewLease() returns (ok: bool)
      requires Valid()
      modifies this`s, this`states, this`events, this`mark, this`done, this`hint, this`renewals
      ensures Valid() && done == old(done) && old(states) <= states
      ensures Untouched(old(s), s, me)
      ensures quiet ==> ok && s == old(s) && states == old(states) && hint == old(hint) && mark == old(mark)
      ensures renewals == old(renewals) + [ok]
    {
      Interfere();
      ok := *;
      ok := ok || quiet;
      renewals := renewals + [ok];
    }
  }

  lemma LandingCommits(s: State, k: Key)
    requires StoreEnabled(s, Land(k))
    ensures var t := DoStore(s, Land(k)); IsCommitted(t, k) && t.markers.Keys == s.markers.Keys + {k.gen}
  {
  }

  datatype Moment = Moment(s: State, states: seq<State>, events: seq<Event>, done: Done, hint: Option<nat>, mark: nat,
                           renewals: seq<bool>)

  /** The history is a run that ends in the current state, and since the mark nothing a commit needs has gone. */
  ghost function Sane(c: Config, quiet: bool, faulty: bool): iset<Moment> {
    iset m: Moment |
      && IsRun(c, m.states, m.events) && m.states[|m.events|] == m.s && Top(m.s) <= MAX_GENERATION + 1
      && OnlyKeeps(m.events, m.mark) && (quiet ==> !faulty) && (m.hint.Some? ==> m.hint.value <= MAX_GENERATION)
  }

  /** Moments between which this participant did nothing. */
  ghost function Browsing(me: Actor, quiet: bool): iset<(Moment, Moment)> {
    iset p: (Moment, Moment) |
      && Untouched(p.0.s, p.1.s, me) && Top(p.0.s) <= Top(p.1.s)
      && p.0.states <= p.1.states && p.0.done == p.1.done && p.0.renewals == p.1.renewals
      && (quiet ==> p.0 == p.1)
  }

  lemma BrowsedTwice(me: Actor, quiet: bool, x: Moment, y: Moment, z: Moment)
    requires (x, y) in Browsing(me, quiet) && (y, z) in Browsing(me, quiet)
    ensures (x, z) in Browsing(me, quiet)
  {
  }

  /** Writers take nothing away, nor does a payload that lands. */
  predicate Keeps(e: Event) {
    e.Writing? || (e.Store? && e.x.Deliver?)
  }

  ghost predicate OnlyKeeps(es: seq<Event>, from: nat) {
    from <= |es| && forall k :: from <= k < |es| ==> Keeps(es[k])
  }

  lemma {:induction false} KeptSince(c: Config, ss: seq<State>, es: seq<Event>, from: nat, n: nat)
    requires IsRun(c, ss, es) && OnlyKeeps(es, from) && from <= n <= |es|
    ensures Kept(ss[from], ss[n])
  {
    if from < n {
      KeptSince(c, ss, es, from, n - 1);
      RunStepKeeps(c, ss, es, n - 1);
      KeptTwice(ss[from], ss[n - 1], ss[n]);
    }
  }

  lemma RunStepKeeps(c: Config, ss: seq<State>, es: seq<Event>, i: nat)
    requires IsRun(c, ss, es) && i < |es| && Keeps(es[i])
    ensures Kept(ss[i], ss[i + 1])
  {
    assert StepAt(c, ss, es, i);
    LakeTheorems.RunKeepsInv(c, ss, es, i);
    StepKeeps(c, ss[i], es[i]);
  }

  lemma StepKeeps(c: Config, s: State, e: Event)
    requires Enabled(c, s, e) && Keeps(e) && LakeCommit.Inv(c, s)
    ensures Kept(s, Do(c, s, e))
  {
    if e.Writing? { WriterKeeps(c, s, e.w, e.u); }
  }

  lemma KeptTwice(s: State, t: State, u: State)
    requires Kept(s, t) && Kept(t, u)
    ensures Kept(s, u)
  {
  }

  /** A marker can only be created under a key that can be written down. */
  predicate Nameable(e: Event) {
    e.Store? && e.x.Land? ==> e.x.k.gen <= MAX_GENERATION
  }

  /** Markers are dense, so a nameable one keeps their number in range. */
  lemma LandsInRange(c: Config, ss: seq<State>, es: seq<Event>, e: Event)
    requires IsRun(c, ss, es) && Top(ss[|es|]) <= MAX_GENERATION + 1 && Enabled(c, ss[|es|], e) && Nameable(e)
    ensures Top(Do(c, ss[|es|], e)) <= MAX_GENERATION + 1
  {
    LakeTheorems.TopStep(c, ss[|es|], e);
    if e.Store? && e.x.Land? {
      LakeTheorems.MarkerIsNext(c, ss, es, e.x.k);
    } else {
      LakeTheorems.OnlyLandingsAdd(c, ss[|es|], e);
    }
  }

  /** The history after collector r's move. */
  ghost function Deleting(d: Done, s: State, r: nat, v: GcEvent): Done {
    if v.Sweep? then d.(keys := d.keys + {v.k})
    else if v.Delete? && r in s.runners && s.runners[r].doomed.Some?
    then d.(packs := d.packs + {s.runners[r].doomed.value})
    else d
  }

  lemma OnlySweepRemoves(c: Config, s: State, r: nat, v: GcEvent)
    requires GcEnabled(c, s, r, v)
    ensures !v.Sweep? ==> DoRunner(c, s, r, v).live == s.live
  {
  }

  lemma ExtendsRun(c: Config, ss: seq<State>, es: seq<Event>, e: Event)
    requires IsRun(c, ss, es) && Enabled(c, ss[|es|], e)
    ensures IsRun(c, ss + [Do(c, ss[|es|], e)], es + [e])
  {
    var tt, fs := ss + [Do(c, ss[|es|], e)], es + [e];
    forall i | 0 <= i < |fs| ensures StepAt(c, tt, fs, i) {
      if i < |es| {
        assert StepAt(c, ss, es, i);
        assert tt[i] == ss[i] && tt[i + 1] == ss[i + 1] && fs[i] == es[i];
      }
    }
  }
}

/** Every step moves at most the record of the participant that takes it. */
module LakeActors {
  import opened Lake
  import LakeCommit

  datatype Actor = AWriter(id: nat) | ACollector(id: nat)

  predicate IsBy(e: Event, a: Actor) {
    match a
    case AWriter(w) => e.Writing? && e.w == w
    case ACollector(r) => e.Collecting? && e.r == r
  }

  /** The actor's own record did not change. */
  ghost predicate Untouched(s: State, t: State, a: Actor) {
    match a
    case AWriter(w) => (w in s.writers <==> w in t.writers) && (w in s.writers ==> t.writers[w] == s.writers[w])
    case ACollector(r) => (r in s.runners <==> r in t.runners) && (r in s.runners ==> t.runners[r] == s.runners[r])
  }

  /** Nothing a reader or a commit needs has changed or gone. */
  ghost predicate Kept(s: State, t: State) {
    && t.markers == s.markers && s.live <= t.live && s.packs.Keys <= t.packs.Keys
    && forall k :: k in s.sent ==> k in t.sent && t.sent[k] == s.sent[k]
  }

  lemma WriterKeeps(c: Config, s: State, w: nat, u: WriterEvent)
    requires WriterEnabled(s, w, u) && LakeCommit.Inv(c, s)
    ensures Kept(s, DoWriter(c, s, w, u))
  {
    if w in s.writers { assert LakeCommit.WriterOk(c, s, w); }
    LakeCommit.WriterHasDelta(c, s, w, u);
    WriterKeepsPacks(c, s, w, u);
  }

  lemma WriterKeepsPacks(c: Config, s: State, w: nat, u: WriterEvent)
    requires WriterEnabled(s, w, u)
    ensures s.packs.Keys <= DoWriter(c, s, w, u).packs.Keys
  {
  }

  lemma OthersLeave(c: Config, s: State, e: Event, a: Actor)
    requires Enabled(c, s, e) && !IsBy(e, a)
    ensures Untouched(s, Do(c, s, e), a)
  {
    match e {
      case Store(x) => StoreLeavesRecords(s, x);
      case Writing(w, u) =>
        LakeCommit.OnlyOwnRecord(c, s, w, u);
        LakeCommit.WriterFrame(c, s, w, u);
      case Collecting(r, v) =>
        OnlyOwnRunner(c, s, r, v);
        LakeCommit.GcFrame(c, s, r, v);
    }
  }

  lemma StoreLeavesRecords(s: State, x: StoreEvent)
    requires StoreEnabled(s, x)
    ensures DoStore(s, x).runners == s.runners && DoStore(s, x).writers == s.writers
  {
  }

  lemma OnlyOwnRunner(c: Config, s: State, r: nat, v: GcEvent)
    requires GcEnabled(c, s, r, v)
    ensures DoRunner(c, s, r, v).runners == s.runners[r := RunnerAfter(c, s, r, v)]
  {
  }

  lemma MoveOfRunner(c: Config, s: State, r: nat, v: GcEvent)
    requires GcEnabled(c, s, r, v)
    ensures r in Do(c, s, Collecting(r, v)).runners && Do(c, s, Collecting(r, v)).runners[r] == RunnerAfter(c, s, r, v)
  {
    OnlyOwnRunner(c, s, r, v);
  }

  lemma MoveOfWriter(c: Config, s: State, w: nat, u: WriterEvent)
    requires WriterEnabled(s, w, u)
    ensures w in Do(c, s, Writing(w, u)).writers && Do(c, s, Writing(w, u)).writers[w] == WriterAfter(c, s, w, u)
  {
    LakeCommit.OnlyOwnRecord(c, s, w, u);
  }
}

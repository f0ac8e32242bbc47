/** A transaction: SQL against a private copy, recorded so that it can be run again elsewhere, then committed. */
module Session {
  import opened Wrappers
  import Lake
  import Rebase
  import LakeBucket
  import Root
  import Commit

  /** The private copy and the recording made along the way. */
  class Transaction {
    const c: Lake.Config
    const base: Lake.Bytes
    var work: Lake.Bytes
    var recorded: Rebase.Changeset

    /** The copy is what the recording makes of the base. */
    ghost predicate Valid()
      reads this
    {
      work == c.Run(recorded, base)
    }

    constructor (c: Lake.Config, base: Lake.Bytes)
      ensures Valid() && this.c == c && this.base == base && recorded == []
    {
      this.c, this.base, work, recorded := c, base, base, [];
    }

    /** Only a statement that executed is recorded; a failing one leaves the copy alone. */
    method Sql(statement: Rebase.Statement, executes: bool) returns (ok: bool)
      requires Valid()
      modifies this
      ensures Valid() && ok == executes
      ensures recorded == if ok then old(recorded) + [statement] else old(recorded)
    {
      if !executes { return false; }
      work := c.exec(statement, work);
      assert (recorded + [statement])[..|recorded|] == recorded;
      recorded := recorded + [statement];
      return true;
    }
  }

  /**
   * Fetch a head, run the script, commit. Committed means: one generation holds exactly the recorded statements applied
   * to the generation before it, and that one was the head at some moment of the call, unless a hint far behind led
   * there. The script is not run at all only if no head could be fetched. Undisturbed, on a head that can be found and
   * fetched, the next generation is committed at the first attempt.
   */
  method Transact(b: LakeBucket.Bucket, policy: Commit.TransportPolicy, script: seq<(Rebase.Statement, bool)>,
                  onConflict: Rebase.ConflictPolicy, maxAttempts: nat)
    returns (r: Commit.CommitOutcome, recorded: Rebase.Changeset)
    requires b.Valid() && b.me.AWriter? && b.me.id !in b.s.writers && b.s.markers.Keys != {}
    modifies b
    ensures b.Valid() && b.me.id in b.s.writers && b.s.writers[b.me.id].changes == recorded
    ensures Commit.Reached(b.s.writers[b.me.id], r) && Commit.Settled(b.c, b.s, b.me.id, r)
    ensures r.Raised? ==> Commit.Caused(b.states, b.hints, b.faulty, |old(b.states)| - 1, maxAttempts, r.cause)
    ensures r.Committed? ==> r.key.gen > 0 && Root.HeadSince(b.states, b.hints, |old(b.states)| - 1, r.key.gen - 1)
    ensures recorded == Executed(script, |script|)
            || (recorded == [] && r.Raised? && (r.cause.RequestFailed? || r.cause.HeadsVanished?))
    ensures b.quiet && maxAttempts > 0 && Commit.EasilyFetched(old(b.s), old(b.hint))
            && Lake.Top(old(b.s)) <= LakeBucket.MAX_GENERATION ==>
              && r.Committed? && r.key.gen == Lake.Top(old(b.s)) && r.attempts == 1
              && Lake.Top(b.s) == Lake.Top(old(b.s)) + 1 && b.hint == Some(r.key.gen)
  {
    ghost var from := |b.states| - 1;
    var fetched := Commit.FetchCurrentBase(b, maxAttempts);
    if fetched.Err? {
      recorded, r := [], Commit.Raised(fetched.error, None);
      GiveUp(b, onConflict, maxAttempts, fetched.error, from);
      return;
    }
    var g, work := fetched.value, [];
    recorded, work := RunScript(b.c, Lake.DataAt(b.s, g), script);
    r := CommitOn(b, policy, g, work, recorded, onConflict, maxAttempts, from);
  }

  /** The recorded changeset is committed on the head that was fetched. */
  method CommitOn(b: LakeBucket.Bucket, policy: Commit.TransportPolicy, g: nat, work: Lake.Bytes,
                  recorded: Rebase.Changeset, onConflict: Rebase.ConflictPolicy, maxAttempts: nat, ghost from: nat)
    returns (r: Commit.CommitOutcome)
    requires b.Valid() && b.me.AWriter? && b.me.id !in b.s.writers && g in b.s.markers && from < |b.states|
    requires work == b.c.Run(recorded, Lake.DataAt(b.s, g)) && Root.HeadSince(b.states, b.hints, from, g)
    modifies b
    ensures b.Valid() && b.me.id in b.s.writers && b.s.writers[b.me.id].changes == recorded
    ensures Commit.Reached(b.s.writers[b.me.id], r) && Commit.Settled(b.c, b.s, b.me.id, r)
    ensures from < |b.states|
    ensures r.Raised? ==> Commit.Caused(b.states, b.hints, b.faulty, from, maxAttempts, r.cause)
    ensures r.Committed? ==> r.key.gen > 0 && Root.HeadSince(b.states, b.hints, from, r.key.gen - 1)
    ensures b.quiet && Commit.Undisturbed(old(b.s), g + 1) ==>
              && r.Committed? && r.key.gen == g + 1 && r.attempts == 1
              && Lake.Top(b.s) == g + 2 && b.hint == Some(g + 1)
  {
    ghost var states, hints := b.states, b.hints;
    Start(b, g, work, recorded, onConflict, maxAttempts);
    ghost var puts;
    ghost var later := |b.states| - 1;
    r, puts := Commit.RunCommit(b, policy, g + 1, work);
    if r.Raised? { Commit.CausedSince(b.states, b.hints, b.faulty, later, from, maxAttempts, r.cause); }
    if r.Committed? { BuiltOnHead(states, b.states, hints, b.hints, from, later, g, r.key.gen); }
  }

  /** Whether on the first base or after a replay, the winner's base was a head. */
  lemma BuiltOnHead(states: seq<Lake.State>, now: seq<Lake.State>, hints: set<nat>, more: set<nat>, from: nat,
                    later: nat, g: nat, won: nat)
    requires Root.HeadSince(states, hints, from, g) && states <= now && hints <= more && from <= later
    requires won == g + 1 || (won > 0 && Root.HeadSince(now, more, later, won - 1))
    ensures won > 0 && Root.HeadSince(now, more, from, won - 1)
  {
    if won == g + 1 {
      Root.HeadStays(states, now, hints, more, from, from, g);
    } else {
      Root.HeadStays(now, now, more, more, later, from, won - 1);
    }
  }

  /** The writer's record, before the commit loop. */
  method Start(b: LakeBucket.Bucket, g: nat, ghost work: Lake.Bytes, recorded: Rebase.Changeset,
               onConflict: Rebase.ConflictPolicy, maxAttempts: nat)
    requires b.Valid() && b.me.AWriter? && b.me.id !in b.s.writers && g in b.s.markers
    requires work == b.c.Run(recorded, Lake.DataAt(b.s, g))
    modifies b
    ensures b.Valid() && b.Onward() && b.me.id in b.s.writers && b.s == old(b.s).(writers := b.s.writers)
    ensures b.s.writers[b.me.id]
              == Lake.Writer(recorded, onConflict, maxAttempts, 0, false, Lake.Based(g + 1, work))
  {
    b.Write(Lake.Begin(recorded, onConflict, maxAttempts));
    b.Write(Lake.Fetch(g));
  }

  /** No base could be fetched, and nothing was run. */
  method GiveUp(b: LakeBucket.Bucket, onConflict: Rebase.ConflictPolicy, maxAttempts: nat, x: Commit.Cause,
                ghost from: nat)
    requires b.Valid() && b.me.AWriter? && b.me.id !in b.s.writers && (x.RequestFailed? || x.HeadsVanished?)
    requires Commit.Caused(b.states, b.hints, b.faulty, from, maxAttempts, x)
    modifies b
    ensures b.Valid() && b.me.id in b.s.writers && b.s.writers[b.me.id].changes == []
    ensures var r := Commit.Raised(x, None);
            Commit.Reached(b.s.writers[b.me.id], r) && Commit.Settled(b.c, b.s, b.me.id, r)
    ensures Commit.Caused(b.states, b.hints, b.faulty, from, maxAttempts, x)
  {
    ghost var before := b.states;
    b.Write(Lake.Begin([], onConflict, maxAttempts));
    Commit.Raise(b);
    Commit.CausedStays(before, b.states, b.hints, b.faulty, from, maxAttempts, x);
    Commit.SettledNow(b.c, b.states, b.events, b.me.id, Commit.Raised(x, None));
  }

  method RunScript(c: Lake.Config, body: Lake.Bytes, script: seq<(Rebase.Statement, bool)>)
    returns (recorded: Rebase.Changeset, work: Lake.Bytes)
    ensures recorded == Executed(script, |script|) && work == c.Run(recorded, body)
  {
    var t := new Transaction(c, body);
    for i := 0 to |script|
      invariant fresh(t) && t.Valid() && t.recorded == Executed(script, i)
    {
      var ok := t.Sql(script[i].0, script[i].1);
    }
    return t.recorded, t.work;
  }

  /** The statements of the script that executed. */
  function Executed(script: seq<(Rebase.Statement, bool)>, n: nat): Rebase.Changeset
    requires n <= |script|
  {
    if n == 0 then [] else Executed(script, n - 1) + (if script[n - 1].1 then [script[n - 1].0] else [])
  }
}

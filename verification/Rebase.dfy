/** The replay-or-abort table consulted when a commit loses its generation. */
module Rebase {
  datatype StatementClass = BlindAppend | StateDependentDml | Ddl | Read

  datatype Statement = Statement(sql: string, class_: StatementClass)

  type Changeset = seq<Statement>

  datatype ConflictPolicy = AppendOnlyReplay | ReplayAll | AbortAll

  datatype Decision = Replay | Abort(reason: Reason)

  datatype Reason = Exhausted | ContainsDdl | PolicyAborts | EmptyChangeset | StateDependent | MixesReads

  predicate Has(cs: Changeset, c: StatementClass) {
    exists i :: 0 <= i < |cs| && cs[i].class_ == c
  }

  /** Attempt exhaustion and DDL abort before any policy can say replay. */
  function DecideRebase(cs: Changeset, policy: ConflictPolicy, attempt: nat, maxAttempts: nat): Decision {
    if attempt >= maxAttempts then Abort(Exhausted)
    else if Has(cs, Ddl) then Abort(ContainsDdl)
    else if policy == AbortAll then Abort(PolicyAborts)
    else if cs == [] then Abort(EmptyChangeset)
    else if Has(cs, StateDependentDml) && policy != ReplayAll then Abort(StateDependent)
    else if Has(cs, Read) && policy != ReplayAll then Abort(MixesReads)
    else Replay
  }

  /** Every statement writes without looking at the lake, and there is at least one. */
  predicate BlindAppendsOnly(cs: Changeset) {
    cs != [] && forall i :: 0 <= i < |cs| ==> cs[i].class_ == BlindAppend
  }

  /** What replays: under the default policy blind appends and nothing else; under replay-all anything without DDL. */
  lemma ReplayCondition(cs: Changeset, policy: ConflictPolicy, attempt: nat, maxAttempts: nat)
    ensures DecideRebase(cs, policy, attempt, maxAttempts) == Replay
       <==> && attempt < maxAttempts
            && match policy
               case AppendOnlyReplay => BlindAppendsOnly(cs)
               case ReplayAll => cs != [] && !Has(cs, Ddl)
               case AbortAll => false
  {
    if BlindAppendsOnly(cs) {
      assert !Has(cs, Ddl) && !Has(cs, StateDependentDml) && !Has(cs, Read);
    } else if cs != [] {
      var i :| 0 <= i < |cs| && cs[i].class_ != BlindAppend;
      assert Has(cs, cs[i].class_);
    }
  }

  /** No policy replays DDL or an exhausted attempt, and adding a statement never turns an abort into a replay. */
  lemma ReplayIsMonotone(cs: Changeset, extra: Statement, policy: ConflictPolicy, attempt: nat, maxAttempts: nat)
    requires cs != []
    requires DecideRebase(cs + [extra], policy, attempt, maxAttempts) == Replay
    ensures DecideRebase(cs, policy, attempt, maxAttempts) == Replay
    ensures !Has(cs + [extra], Ddl) && attempt < maxAttempts && policy != AbortAll
  {
    var ds := cs + [extra];
    forall c | Has(cs, c) ensures Has(ds, c) {
      var i :| 0 <= i < |cs| && cs[i].class_ == c;
      assert ds[i].class_ == c;
    }
  }
}

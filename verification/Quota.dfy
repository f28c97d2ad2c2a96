/** The create route's two guards, followed through whole runs. */
module Quota {
  import opened Lifecycle
  import opened Protocol
  import opened Invariants
  import opened Safety

  predicate NamesDistinct(rows: Table, owner: string) {
    forall i, j :: i in ActiveOf(rows, owner) && j in ActiveOf(rows, owner) && rows[i].name == rows[j].name ==> i == j
  }

  /** Active rows exceed the quota by at most the revivals and the races; without either active names are distinct. */
  predicate Bounded(c: Config, s: State, owner: string) {
    && |ActiveOf(s.rows, owner)| <= c.quota + s.revived[owner] + s.raced[owner]
    && (s.revived[owner] == 0 == s.raced[owner] ==> NamesDistinct(s.rows, owner))
  }

  lemma SubsetSize<T>(a: set<T>, b: set<T>)
    requires a <= b
    ensures |a| <= |b|
  {
    assert b == a + (b - a);
  }

  /** Owners and names are fixed, and no row turned active: the bound can only loosen. */
  lemma FewerActive(c: Config, s: State, s': State, owner: string)
    requires Bounded(c, s, owner) && s'.revived == s.revived && s'.raced == s.raced
    requires forall id :: id in s'.rows ==> id in s.rows && s'.rows[id].owner == s.rows[id].owner
                                            && s'.rows[id].name == s.rows[id].name
                                            && (Terminal(s.rows[id].status) ==> Terminal(s'.rows[id].status))
    ensures Bounded(c, s', owner)
  {
    assert ActiveOf(s'.rows, owner) <= ActiveOf(s.rows, owner);
    SubsetSize(ActiveOf(s'.rows, owner), ActiveOf(s.rows, owner));
  }

  /** Writing one row: an active row more is paid for by a revival. */
  lemma WriteBounded(c: Config, s: State, env: EnvId, row: Row, owner: string)
    requires Bounded(c, s, owner) && env in s.rows
    requires row.owner == s.rows[env].owner && row.name == s.rows[env].name
    ensures Bounded(c, Write(s, env, row), owner)
  {
    var s' := Write(s, env, row);
    var before, after := ActiveOf(s.rows, owner), ActiveOf(s'.rows, owner);
    if Terminal(s.rows[env].status) && !Terminal(row.status) && row.owner == owner {
      assert after == before + {env} && env !in before;
    } else {
      assert after <= before;
      SubsetSize(after, before);
    }
  }

  lemma CommitBounded(c: Config, s: State, env: EnvId, owner: string)
    requires Bounded(c, s, owner) && RowsOk(s) && Enabled(c, s, CreateCommit(env))
    ensures Bounded(c, Apply(c, s, CreateCommit(env)), owner)
  {
    var row := s.inserting[env];
    if CreateAllowed(c, s.rows, row.owner, row.name) {
      InsertBounded(c, s, Apply(c, s, CreateCommit(env)), env, row, owner);
    } else {
      RaceBounded(c, s, Apply(c, s, CreateCommit(env)), env, row, owner);
    }
  }

  lemma InsertBounded(c: Config, s: State, s': State, env: EnvId, row: Row, owner: string)
    requires Bounded(c, s, owner) && env !in s.rows && CreateAllowed(c, s.rows, row.owner, row.name)
    requires s'.rows == s.rows[env := row] && s'.revived == s.revived && s'.raced == s.raced && row.status == Pending
    ensures Bounded(c, s', owner)
  {
    var before, after := ActiveOf(s.rows, owner), ActiveOf(s'.rows, owner);
    if row.owner == owner {
      assert after == before + {env} && env !in before;
      forall i | i in before
        ensures s.rows[i].name != row.name
      {
        assert i !in ActiveNamed(s.rows, owner, row.name);
      }
    } else {
      assert after == before;
    }
  }

  lemma RaceBounded(c: Config, s: State, s': State, env: EnvId, row: Row, owner: string)
    requires Bounded(c, s, owner) && env !in s.rows && row.status == Pending
    requires s'.rows == s.rows[env := row] && s'.revived == s.revived && s'.raced == s.raced + multiset{row.owner}
    ensures Bounded(c, s', owner)
  {
    var before, after := ActiveOf(s.rows, owner), ActiveOf(s'.rows, owner);
    if row.owner == owner {
      assert after == before + {env} && env !in before;
      assert s'.raced[owner] == s.raced[owner] + 1;
    } else {
      assert after == before;
      assert s'.raced[owner] == s.raced[owner];
    }
  }

  lemma CommitStepBounded(c: Config, s: State, step: Step, owner: string)
    requires Bounded(c, s, owner) && RowsOk(s) && step.CreateCommit? && Enabled(c, s, step)
    ensures Bounded(c, Apply(c, s, step), owner)
  {
    CommitBounded(c, s, step.env, owner);
  }

  lemma OneRowBounded(c: Config, s: State, s': State, env: EnvId, owner: string)
    requires Bounded(c, s, owner)
    requires SameRows(s, s') ||
             (s'.raced == s.raced && env in s.rows && env in s'.rows && s'.rows == Write(s, env, s'.rows[env]).rows
              && s'.revived == Write(s, env, s'.rows[env]).revived
              && s'.rows[env].owner == s.rows[env].owner && s'.rows[env].name == s.rows[env].name)
    ensures Bounded(c, s', owner)
  {
    if s'.rows != s.rows || s'.revived != s.revived {
      WriteBounded(c, s, env, s'.rows[env], owner);
    }
  }

  lemma SweepBounded(c: Config, s: State, step: Step, owner: string)
    requires Enabled(c, s, step) && Bounded(c, s, owner) && (step.ReapClaim? || step.Recover?)
    ensures Bounded(c, Apply(c, s, step), owner)
  {
    FewerActive(c, s, Apply(c, s, step), owner);
  }

  lemma BoundedStep(c: Config, s: State, step: Step, owner: string)
    requires RowsOk(s) && Enabled(c, s, step) && Bounded(c, s, owner)
    ensures Bounded(c, Apply(c, s, step), owner)
  {
    if WritesRow(step) {
      TaskBounded(c, s, step, owner);
    } else if step.CreateCommit? {
      CommitStepBounded(c, s, step, owner);
    } else if step.ReapClaim? || step.Recover? {
      SweepBounded(c, s, step, owner);
    } else {
      RestBounded(c, s, step, owner);
    }
  }

  lemma TaskBounded(c: Config, s: State, step: Step, owner: string)
    requires Enabled(c, s, step) && Bounded(c, s, owner) && WritesRow(step)
    ensures Bounded(c, Apply(c, s, step), owner)
  {
    RowWritten(c, s, step);
    OneRowBounded(c, s, Apply(c, s, step), EnvOf(s.workers[step.tid]), owner);
  }

  lemma RestBounded(c: Config, s: State, step: Step, owner: string)
    requires Enabled(c, s, step) && Bounded(c, s, owner) && !WritesRows(step)
    ensures Bounded(c, Apply(c, s, step), owner)
  {
    RowsUntouched(c, s, step);
    FewerActive(c, s, Apply(c, s, step), owner);
  }

  /**
   * In every state of every run an owner's active rows number at most the quota, plus the terminal rows of that
   * owner that task starts and late commits have made active again, plus the creates of that owner that another
   * one overtook; with none of either, the quota holds outright and no two active rows share a name.
   */
  lemma {:induction false} QuotaHolds(c: Config, states: seq<State>, steps: seq<Step>, i: nat, owner: string)
    requires Run(c, states, steps) && i < |states|
    ensures |ActiveOf(states[i].rows, owner)| <= c.quota + states[i].revived[owner] + states[i].raced[owner]
    ensures states[i].revived[owner] == 0 == states[i].raced[owner] ==>
              |ActiveOf(states[i].rows, owner)| <= c.quota && NamesDistinct(states[i].rows, owner)
  {
    BoundedInRun(c, states, steps, i, owner);
  }

  lemma {:induction false} BoundedInRun(c: Config, states: seq<State>, steps: seq<Step>, i: nat, owner: string)
    requires Run(c, states, steps) && i < |states|
    ensures Bounded(c, states[i], owner)
  {
    if i == 0 {
      BoundedInit(c, states[0], owner);
    } else {
      BoundedInRun(c, states, steps, i - 1, owner);
      BoundedNext(c, states, steps, i - 1, owner);
    }
  }

  lemma BoundedNext(c: Config, states: seq<State>, steps: seq<Step>, i: nat, owner: string)
    requires Run(c, states, steps) && i < |steps| && Bounded(c, states[i], owner)
    ensures Bounded(c, states[i + 1], owner)
  {
    InvAt(c, states, steps, i);
    assert StepAt(c, states, steps, i);
    BoundedStepOf(c, states[i], steps[i], states[i + 1], owner);
  }

  lemma BoundedInit(c: Config, s: State, owner: string)
    requires Init(s)
    ensures Bounded(c, s, owner)
  {
    assert ActiveOf(s.rows, owner) == {};
  }

  lemma BoundedStepOf(c: Config, s: State, step: Step, s': State, owner: string)
    requires RowsOk(s) && StepOf(c, s, step, s') && Bounded(c, s, owner)
    ensures Bounded(c, s', owner)
  {
    BoundedStep(c, s, step, owner);
  }

  /** A task is about to start on, or to finish launching, a row of the owner's that is stopped or failed. */
  predicate Revives(s: State, step: Step, owner: string) {
    && (step.ProvisionLoad? || step.TeardownLoad? || step.ProvisionCommit?) && IsTask(s, step.tid)
    && var env := EnvOf(s.workers[step.tid]);
    && env in s.rows && s.rows[env].owner == owner && Terminal(s.rows[env].status)
  }

  /** Those steps, and no others, are the revivals counted along a run. */
  lemma RevivalsCounted(c: Config, s: State, step: Step, owner: string)
    requires Enabled(c, s, step)
    ensures Apply(c, s, step).revived[owner] == s.revived[owner] + if Revives(s, step, owner) then 1 else 0
  {
    if WritesRow(step) {
      TaskRevivals(c, s, step, owner);
    } else if step.CreateCommit? || step.ReapClaim? || step.Recover? {
      TableRevivals(c, s, step);
    } else {
      RowsUntouched(c, s, step);
    }
  }

  lemma TaskRevivals(c: Config, s: State, step: Step, owner: string)
    requires Enabled(c, s, step) && WritesRow(step)
    ensures Apply(c, s, step).revived[owner] == s.revived[owner] + if Revives(s, step, owner) then 1 else 0
  {
    if step.ProvisionLoad? || step.TeardownLoad? {
      StartRevivals(c, s, step, owner);
    } else {
      EndRevivals(c, s, step, owner);
    }
  }

  lemma StartRevivals(c: Config, s: State, step: Step, owner: string)
    requires Enabled(c, s, step) && (step.ProvisionLoad? || step.TeardownLoad?)
    ensures Apply(c, s, step).revived[owner] == s.revived[owner] + if Revives(s, step, owner) then 1 else 0
  {
  }

  lemma EndRevivals(c: Config, s: State, step: Step, owner: string)
    requires Enabled(c, s, step) && (step.ProvisionCommit? || step.TeardownCommit? || step.MarkFailed?)
    ensures Apply(c, s, step).revived[owner] == s.revived[owner] + if Revives(s, step, owner) then 1 else 0
  {
  }

  lemma TableRevivals(c: Config, s: State, step: Step)
    requires Enabled(c, s, step) && (step.CreateCommit? || step.ReapClaim? || step.Recover?)
    ensures Apply(c, s, step).revived == s.revived
  {
  }

  /** A create of the owner's is about to commit. */
  predicate Inserts(s: State, step: Step, owner: string) {
    step.CreateCommit? && step.env in s.inserting && s.inserting[step.env].owner == owner
  }

  /** Creates are overtaken when they commit after their guards stopped holding. */
  lemma RacesCounted(c: Config, s: State, step: Step, owner: string)
    requires Enabled(c, s, step)
    ensures Apply(c, s, step).raced[owner] == s.raced[owner] +
              if Inserts(s, step, owner) && !CreateAllowed(c, s.rows, owner, s.inserting[step.env].name) then 1 else 0
  {
    if WritesRow(step) {
      RowWritten(c, s, step);
    } else if !WritesRows(step) {
      RowsUntouched(c, s, step);
    } else {
      TableRaces(c, s, step, owner);
    }
  }

  lemma TableRaces(c: Config, s: State, step: Step, owner: string)
    requires Enabled(c, s, step) && (step.CreateCommit? || step.ReapClaim? || step.Recover?)
    ensures Apply(c, s, step).raced[owner] == s.raced[owner] +
              if Inserts(s, step, owner) && !CreateAllowed(c, s.rows, owner, s.inserting[step.env].name) then 1 else 0
  {
  }

  /**
   * The quota is not a hard limit of the code: from a table within it, a step exceeds it exactly when the owner is
   * at the limit, and either a create of theirs commits all the same, its guards having held before, or a task
   * starts, or launches late, on one of the owner's terminal rows.
   */
  lemma ExceededExactly(c: Config, s: State, step: Step, owner: string)
    requires RowsOk(s) && Enabled(c, s, step) && |ActiveOf(s.rows, owner)| <= c.quota
    ensures |ActiveOf(Apply(c, s, step).rows, owner)| > c.quota <==>
            |ActiveOf(s.rows, owner)| == c.quota && (Revives(s, step, owner) || Inserts(s, step, owner))
  {
    if WritesRow(step) {
      RevivalsCounted(c, s, step, owner);
      TaskCount(c, s, step, owner);
    } else if step.CreateCommit? {
      CommitCount(c, s, step.env, owner);
    } else if step.ReapClaim? || step.Recover? {
      SweepCount(c, s, step, owner);
    } else {
      RowsUntouched(c, s, step);
    }
  }

  // ---- Names ---------------------------------------------------------------

  /** The name of the row that the step is about to revive, or to insert, is in use by an active row of the owner's. */
  predicate TakesUsedName(s: State, step: Step, owner: string) {
    || (Revives(s, step, owner) && ActiveNamed(s.rows, owner, s.rows[EnvOf(s.workers[step.tid])].name) != {})
    || (Inserts(s, step, owner) && ActiveNamed(s.rows, owner, s.inserting[step.env].name) != {})
  }

  /**
   * Nor are names unique: from a table in which no two active rows of the owner's share a name, a step makes two
   * share one exactly when it revives a row, or commits a create, whose name an active row has.
   */
  lemma SharedNameExactly(c: Config, s: State, step: Step, owner: string)
    requires RowsOk(s) && Enabled(c, s, step) && NamesDistinct(s.rows, owner)
    ensures NamesDistinct(Apply(c, s, step).rows, owner) <==> !TakesUsedName(s, step, owner)
  {
    if WritesRow(step) {
      TaskNames(c, s, step, owner);
    } else if step.CreateCommit? {
      CommitNames(c, s, step, owner);
    } else {
      OtherNames(c, s, step, owner);
    }
  }

  lemma CommitNames(c: Config, s: State, step: Step, owner: string)
    requires RowsOk(s) && Enabled(c, s, step) && step.CreateCommit? && NamesDistinct(s.rows, owner)
    ensures NamesDistinct(Apply(c, s, step).rows, owner) <==> !TakesUsedName(s, step, owner)
  {
    InsertNames(s.rows, step.env, s.inserting[step.env], owner);
  }

  lemma OtherNames(c: Config, s: State, step: Step, owner: string)
    requires Enabled(c, s, step) && !WritesRow(step) && !step.CreateCommit? && NamesDistinct(s.rows, owner)
    ensures NamesDistinct(Apply(c, s, step).rows, owner) && !TakesUsedName(s, step, owner)
  {
    if step.ReapClaim? || step.Recover? {
      SweepNames(c, s, step, owner);
    } else {
      RestNames(c, s, step, owner);
    }
  }

  lemma RestNames(c: Config, s: State, step: Step, owner: string)
    requires Enabled(c, s, step) && !WritesRows(step) && NamesDistinct(s.rows, owner)
    ensures NamesDistinct(Apply(c, s, step).rows, owner) && !TakesUsedName(s, step, owner)
  {
    RowsUntouched(c, s, step);
  }

  lemma TaskNames(c: Config, s: State, step: Step, owner: string)
    requires Enabled(c, s, step) && WritesRow(step) && NamesDistinct(s.rows, owner)
    ensures NamesDistinct(Apply(c, s, step).rows, owner) <==> !TakesUsedName(s, step, owner)
  {
    var s', env := Apply(c, s, step), EnvOf(s.workers[step.tid]);
    RowWritten(c, s, step);
    RevivalsCounted(c, s, step, owner);
    if s'.rows != s.rows {
      WriteNames(s, s', env, owner);
    }
  }

  /** One row is written: names stay distinct unless it turns active beside another of its name. */
  lemma WriteNames(s: State, s': State, env: EnvId, owner: string)
    requires NamesDistinct(s.rows, owner) && env in s.rows && env in s'.rows
    requires s'.rows == Write(s, env, s'.rows[env]).rows && s'.revived == Write(s, env, s'.rows[env]).revived
    requires s'.rows[env].owner == s.rows[env].owner && s'.rows[env].name == s.rows[env].name
    ensures NamesDistinct(s'.rows, owner) <==>
            !(s'.revived[owner] > s.revived[owner] && ActiveNamed(s.rows, owner, s.rows[env].name) != {})
  {
    if s'.revived[owner] > s.revived[owner] {
      NewNames(s.rows, s'.rows, env, owner);
    } else {
      assert ActiveOf(s'.rows, owner) <= ActiveOf(s.rows, owner);
    }
  }

  /** One more row of the owner's is active. */
  lemma NewNames(rows: Table, rows': Table, env: EnvId, owner: string)
    requires NamesDistinct(rows, owner) && env in rows' && env !in ActiveOf(rows, owner) && env in ActiveOf(rows', owner)
    requires forall id :: id in rows && id != env ==> id in rows' && rows'[id] == rows[id]
    requires forall id :: id in rows' && id != env ==> id in rows
    ensures NamesDistinct(rows', owner) <==> ActiveNamed(rows, owner, rows'[env].name) == {}
  {
    if ActiveNamed(rows, owner, rows'[env].name) != {} {
      var i :| i in ActiveNamed(rows, owner, rows'[env].name);
      assert i in ActiveOf(rows', owner) && rows'[i].name == rows'[env].name && i != env;
    } else {
      forall i | i in ActiveOf(rows', owner) && i != env
        ensures rows'[i].name != rows'[env].name
      {
        assert i !in ActiveNamed(rows, owner, rows'[env].name);
      }
    }
  }

  lemma InsertNames(rows: Table, env: EnvId, row: Row, owner: string)
    requires NamesDistinct(rows, owner) && env !in rows && row.status == Pending
    ensures NamesDistinct(rows[env := row], owner) <==> !(row.owner == owner && ActiveNamed(rows, owner, row.name) != {})
  {
    if row.owner == owner {
      NewNames(rows, rows[env := row], env, owner);
    } else {
      assert ActiveOf(rows[env := row], owner) == ActiveOf(rows, owner);
    }
  }

  lemma SweepNames(c: Config, s: State, step: Step, owner: string)
    requires Enabled(c, s, step) && (step.ReapClaim? || step.Recover?) && NamesDistinct(s.rows, owner)
    ensures NamesDistinct(Apply(c, s, step).rows, owner) && !TakesUsedName(s, step, owner)
  {
    assert ActiveOf(Apply(c, s, step).rows, owner) <= ActiveOf(s.rows, owner);
  }

  // ---- Counting ------------------------------------------------------------

  lemma TaskCount(c: Config, s: State, step: Step, owner: string)
    requires Enabled(c, s, step) && WritesRow(step)
    ensures var n, n' := s.revived[owner], Apply(c, s, step).revived[owner];
            var k, k' := |ActiveOf(s.rows, owner)|, |ActiveOf(Apply(c, s, step).rows, owner)|;
            (n' > n && k' == k + 1) || (n' == n && k' <= k)
  {
    RowWritten(c, s, step);
    OneRowCount(s, Apply(c, s, step), EnvOf(s.workers[step.tid]), owner);
  }

  lemma OneRowCount(s: State, s': State, env: EnvId, owner: string)
    requires SameRows(s, s') ||
             (s'.raced == s.raced && env in s.rows && env in s'.rows && s'.rows == Write(s, env, s'.rows[env]).rows
              && s'.revived == Write(s, env, s'.rows[env]).revived
              && s'.rows[env].owner == s.rows[env].owner && s'.rows[env].name == s.rows[env].name)
    ensures s'.revived[owner] > s.revived[owner] ==> |ActiveOf(s'.rows, owner)| == |ActiveOf(s.rows, owner)| + 1
    ensures s'.revived[owner] == s.revived[owner] ==> |ActiveOf(s'.rows, owner)| <= |ActiveOf(s.rows, owner)|
    ensures s'.revived[owner] >= s.revived[owner]
  {
    var before, after := ActiveOf(s.rows, owner), ActiveOf(s'.rows, owner);
    if s'.revived[owner] > s.revived[owner] {
      assert after == before + {env} && env !in before;
    } else {
      assert after <= before;
      SubsetSize(after, before);
    }
  }

  lemma CommitCount(c: Config, s: State, env: EnvId, owner: string)
    requires RowsOk(s) && Enabled(c, s, CreateCommit(env))
    ensures |ActiveOf(Apply(c, s, CreateCommit(env)).rows, owner)| ==
            |ActiveOf(s.rows, owner)| + if s.inserting[env].owner == owner then 1 else 0
  {
    InsertCount(s.rows, env, s.inserting[env], owner);
  }

  lemma InsertCount(rows: Table, env: EnvId, row: Row, owner: string)
    requires env !in rows && row.status == Pending
    ensures |ActiveOf(rows[env := row], owner)| == |ActiveOf(rows, owner)| + if row.owner == owner then 1 else 0
  {
    var before, after := ActiveOf(rows, owner), ActiveOf(rows[env := row], owner);
    assert after == if row.owner == owner then before + {env} else before;
  }

  lemma SweepCount(c: Config, s: State, step: Step, owner: string)
    requires Enabled(c, s, step) && (step.ReapClaim? || step.Recover?)
    ensures var s' := Apply(c, s, step);
            s'.revived == s.revived && |ActiveOf(s'.rows, owner)| <= |ActiveOf(s.rows, owner)|
  {
    var s' := Apply(c, s, step);
    assert ActiveOf(s'.rows, owner) <= ActiveOf(s.rows, owner);
    SubsetSize(ActiveOf(s'.rows, owner), ActiveOf(s.rows, owner));
  }
}

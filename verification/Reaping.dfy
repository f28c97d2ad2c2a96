/** The reaper in whole runs: nobody is claimed early, and only the claimed are torn down. */
module Reaping {
  import opened Lifecycle
  import opened Worlds
  import opened Protocol
  import opened Invariants
  import opened Safety

  // ---- Not before its time -------------------------------------------------

  /** The step launches the row that r is, and r expires its ttl later. */
  predicate Launches(s: State, step: Step, id: EnvId, r: Row) {
    && step.ProvisionCommit? && step.tid in s.workers && s.workers[step.tid].Provision?
    && s.workers[step.tid].attempt.env == id
    && r.startedAt == Some(s.now) && r.expiresAt == Some(s.now + r.ttl * 1_000_000)
  }

  /** Step j did. */
  ghost predicate LaunchedAt(states: seq<State>, steps: seq<Step>, j: nat, id: EnvId, r: Row)
    requires j < |steps| < |states|
  {
    Launches(states[j], steps[j], id, r)
  }

  lemma LaunchWrites(c: Config, s: State, step: Step, id: EnvId)
    requires Enabled(c, s, step) && step.ProvisionCommit?
    ensures step.tid in s.workers && s.workers[step.tid].Provision?
    ensures var s', env := Apply(c, s, step), s.workers[step.tid].attempt.env;
            && env in s'.rows && s'.rows == s.rows[env := s'.rows[env]]
            && s'.rows[env].startedAt == Some(s.now)
            && s'.rows[env].expiresAt == Some(s.now + s'.rows[env].ttl * 1_000_000)
  {
  }

  lemma LaunchNext(c: Config, states: seq<State>, steps: seq<Step>, i: nat, id: EnvId)
    requires Run(c, states, steps) && i < |steps| && id in states[i + 1].rows && states[i + 1].rows[id].status == Running
    ensures LaunchedAt(states, steps, i, id, states[i + 1].rows[id])
            || (id in states[i].rows && states[i].rows[id] == states[i + 1].rows[id])
  {
    InvAt(c, states, steps, i);
    assert StepAt(c, states, steps, i);
    LaunchOrStay(c, states[i], steps[i], states[i + 1], id);
  }

  lemma LaunchOrStay(c: Config, s: State, step: Step, s': State, id: EnvId)
    requires RowsOk(s) && StepOf(c, s, step, s') && id in s'.rows && s'.rows[id].status == Running
    ensures Launches(s, step, id, s'.rows[id]) || (id in s.rows && s.rows[id] == s'.rows[id])
  {
    if step.ProvisionCommit? {
      LaunchWrites(c, s, step, id);
    } else {
      StaysUp(c, s, step, s', id);
    }
  }

  lemma StaysUp(c: Config, s: State, step: Step, s': State, id: EnvId)
    requires RowsOk(s) && StepOf(c, s, step, s') && !step.ProvisionCommit? && id in s'.rows && s'.rows[id].status == Running
    ensures id in s.rows && s.rows[id] == s'.rows[id]
  {
    RunningStays(c, s, step, id);
  }

  /** Every running row of every run was launched in it, and expires its ttl after that. */
  lemma {:induction false} RunningWasLaunched(c: Config, states: seq<State>, steps: seq<Step>, i: nat, id: EnvId) returns (j: nat)
    requires Run(c, states, steps) && i < |states| && id in states[i].rows && states[i].rows[id].status == Running
    ensures j < i && LaunchedAt(states, steps, j, id, states[i].rows[id])
  {
    if i == 0 {
      assert false;
    } else {
      LaunchNext(c, states, steps, i - 1, id);
      if LaunchedAt(states, steps, i - 1, id, states[i].rows[id]) {
        j := i - 1;
      } else {
        j := RunningWasLaunched(c, states, steps, i - 1, id);
      }
    }
  }

  lemma ClaimNext(c: Config, states: seq<State>, steps: seq<Step>, i: nat)
    requires Run(c, states, steps) && i < |steps| && steps[i].ReapClaim?
    ensures states[i + 1].rows == ReapRows(states[i].rows, states[i].now)
  {
    assert StepAt(c, states, steps, i);
  }

  /**
   * Nobody is reaped early, or spared: in every run, a claim of the reaper's takes a running row exactly if at
   * least its ttl has passed since the step that launched it.
   */
  lemma ReapedExactlyAfterTtl(c: Config, states: seq<State>, steps: seq<Step>, i: nat, id: EnvId) returns (j: nat)
    requires Run(c, states, steps) && i < |steps| && steps[i].ReapClaim?
    requires id in states[i].rows && states[i].rows[id].status == Running
    ensures j < i && LaunchedAt(states, steps, j, id, states[i].rows[id])
    ensures id in states[i + 1].rows
    ensures states[i + 1].rows[id].status == Stopping <==>
            states[j].now + states[i].rows[id].ttl * 1_000_000 <= states[i].now
    ensures states[i + 1].rows[id].status != Stopping ==> states[i + 1].rows[id] == states[i].rows[id]
  {
    j := RunningWasLaunched(c, states, steps, i, id);
    ClaimNext(c, states, steps, i);
    ReapedExactly(states[i].rows, states[i].now, id);
  }

  // ---- Claimed before sent -------------------------------------------------

  /** What the reaper still has to send was all claimed by it, at step j. */
  ghost predicate ClaimedAt(states: seq<State>, steps: seq<Step>, j: nat, tid: TaskId, claimed: seq<EnvId>)
    requires j < |steps| < |states|
  {
    && steps[j].ReapClaim? && steps[j].tid == tid && |claimed| <= |steps[j].order|
    && claimed == steps[j].order[|steps[j].order| - |claimed|..]
    && forall id :: id in steps[j].order ==>
         && id in states[j].rows && states[j].rows[id].status == Running
         && id in states[j + 1].rows && states[j + 1].rows[id].status == Stopping
  }

  /** A step leaves a reaper alone, moves it on by one message, or begins it. */
  lemma ReaperMoves(c: Config, s: State, step: Step, tid: TaskId)
    requires Enabled(c, s, step) && tid in Apply(c, s, step).workers && Apply(c, s, step).workers[tid].Reap?
    ensures var claimed := Apply(c, s, step).workers[tid].claimed;
            || (tid in s.workers && s.workers[tid] == Reap(claimed))
            || (step == ReapSend(tid) && tid in s.workers && s.workers[tid].Reap? && s.workers[tid].claimed != []
                && claimed == s.workers[tid].claimed[1..])
            || (step.ReapClaim? && step.tid == tid && claimed == step.order)
  {
    if Passing(step) {
      PassingReaper(c, s, step, tid);
    } else if BySweep(step) {
      SweepReaper(c, s, step, tid);
    } else {
      OtherReaper(c, s, step, tid);
    }
  }

  lemma PassingReaper(c: Config, s: State, step: Step, tid: TaskId)
    requires Enabled(c, s, step) && Passing(step) && tid in Apply(c, s, step).workers && Apply(c, s, step).workers[tid].Reap?
    ensures var claimed := Apply(c, s, step).workers[tid].claimed;
            || (tid in s.workers && s.workers[tid] == Reap(claimed))
            || (step == ReapSend(tid) && tid in s.workers && s.workers[tid].Reap? && s.workers[tid].claimed != []
                && claimed == s.workers[tid].claimed[1..])
  {
    if step.Unwind? {
      UnwindReaper(s, step.tid, tid);
    }
  }

  lemma UnwindReaper(s: State, t: TaskId, tid: TaskId)
    requires IsTask(s, t) && (PhaseOf(s.workers[t]).Marked? || PhaseOf(s.workers[t]).Raised?)
    requires tid in DoUnwind(s, t).workers && DoUnwind(s, t).workers[tid].Reap?
    ensures tid in s.workers && s.workers[tid] == DoUnwind(s, t).workers[tid]
  {
  }

  lemma SweepReaper(c: Config, s: State, step: Step, tid: TaskId)
    requires Enabled(c, s, step) && BySweep(step) && tid in Apply(c, s, step).workers && Apply(c, s, step).workers[tid].Reap?
    ensures var claimed := Apply(c, s, step).workers[tid].claimed;
            || (tid in s.workers && s.workers[tid] == Reap(claimed))
            || (step.ReapClaim? && step.tid == tid && claimed == step.order)
  {
  }

  lemma OtherReaper(c: Config, s: State, step: Step, tid: TaskId)
    requires Enabled(c, s, step) && !Passing(step) && !BySweep(step)
    requires tid in Apply(c, s, step).workers && Apply(c, s, step).workers[tid].Reap?
    ensures tid in s.workers && s.workers[tid] == Apply(c, s, step).workers[tid]
  {
    if WritesRow(step) {
      WriterReaper(c, s, step, tid);
    }
  }

  lemma WriterReaper(c: Config, s: State, step: Step, tid: TaskId)
    requires Enabled(c, s, step) && WritesRow(step)
    requires tid in Apply(c, s, step).workers && Apply(c, s, step).workers[tid].Reap?
    ensures tid in s.workers && s.workers[tid] == Apply(c, s, step).workers[tid]
  {
    if step.MarkFailed? {
      MarkerReaper(s, step.tid, step.saved, step.text, tid);
    }
  }

  lemma MarkerReaper(s: State, t: TaskId, saved: bool, text: string, tid: TaskId)
    requires IsTask(s, t) && PhaseOf(s.workers[t]).Raised?
    requires tid in DoMarkFailed(s, t, saved, text).workers && DoMarkFailed(s, t, saved, text).workers[tid].Reap?
    ensures tid in s.workers && s.workers[tid] == DoMarkFailed(s, t, saved, text).workers[tid]
  {
  }

  lemma ReaperNext(c: Config, states: seq<State>, steps: seq<Step>, i: nat, tid: TaskId)
    requires Run(c, states, steps) && i < |steps| && tid in states[i + 1].workers && states[i + 1].workers[tid].Reap?
    ensures var claimed := states[i + 1].workers[tid].claimed;
            || (tid in states[i].workers && states[i].workers[tid] == Reap(claimed))
            || (tid in states[i].workers && states[i].workers[tid].Reap? && states[i].workers[tid].claimed != []
                && claimed == states[i].workers[tid].claimed[1..])
            || ClaimedAt(states, steps, i, tid, claimed)
  {
    assert StepAt(c, states, steps, i);
    ReaperMoves(c, states[i], steps[i], tid);
    if steps[i].ReapClaim? && steps[i].tid == tid {
      OrderIsClaimed(c, states[i], steps[i]);
    }
  }

  lemma OrderIsClaimed(c: Config, s: State, step: Step)
    requires Enabled(c, s, step) && step.ReapClaim?
    ensures forall id :: id in step.order ==>
              && id in s.rows && s.rows[id].status == Running
              && id in Apply(c, s, step).rows && Apply(c, s, step).rows[id].status == Stopping
  {
    forall id | id in step.order
      ensures id in ExpiredIds(s.rows, s.now)
    {
      assert id in ToSet(step.order);
    }
  }

  lemma {:induction false} ReaperClaimed(c: Config, states: seq<State>, steps: seq<Step>, i: nat, tid: TaskId) returns (j: nat)
    requires Run(c, states, steps) && i < |states| && tid in states[i].workers && states[i].workers[tid].Reap?
    ensures j < i && ClaimedAt(states, steps, j, tid, states[i].workers[tid].claimed)
  {
    if i == 0 {
      assert false;
    } else {
      ReaperNext(c, states, steps, i - 1, tid);
      if ClaimedAt(states, steps, i - 1, tid, states[i].workers[tid].claimed) {
        j := i - 1;
      } else {
        j := ReaperClaimed(c, states, steps, i - 1, tid);
      }
    }
  }

  /**
   * Claim before enqueue, in every run: what a reaper sends is one teardown, not yet retried, for the next of the
   * rows that it took itself, from RUNNING to STOPPING, in one committed claim before.
   */
  lemma SentAfterClaim(c: Config, states: seq<State>, steps: seq<Step>, i: nat) returns (j: nat)
    requires Run(c, states, steps) && i < |steps| && steps[i].ReapSend?
    ensures steps[i].tid in states[i].workers && states[i].workers[steps[i].tid].Reap?
    ensures var claimed := states[i].workers[steps[i].tid].claimed;
            && claimed != [] && states[i + 1].bag == states[i].bag + multiset{TeardownMsg(claimed[0], 0)}
            && j < i && ClaimedAt(states, steps, j, steps[i].tid, claimed) && claimed[0] in steps[j].order
            && steps[i].tid in states[i + 1].workers && states[i + 1].workers[steps[i].tid] == Reap(claimed[1..])
  {
    assert StepAt(c, states, steps, i);
    j := ReaperClaimed(c, states, steps, i, steps[i].tid);
    var claimed := states[i].workers[steps[i].tid].claimed;
    assert steps[j].order[|steps[j].order| - |claimed|] == claimed[0];
  }
}

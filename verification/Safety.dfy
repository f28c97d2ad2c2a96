/** What no run of the service can do, however its tasks interleave and wherever they are killed. */
module Safety {
  import opened Lifecycle
  import opened Worlds
  import opened Protocol
  import opened Invariants

  /** Every live attempt that has asked Docker for something did so less than a grace period ago. */
  predicate WithinGrace(c: Config, s: State) {
    forall t :: t in s.workers && s.workers[t].Provision? && s.workers[t].attempt.firstMade.Some? ==>
      s.now < s.workers[t].attempt.firstMade.value + c.grace
  }

  /** No reconcile pass is about to remove what a running row records. */
  predicate PassesSafe(s: State) {
    forall t, rid :: t in s.workers && s.workers[t].Reconcile? && rid in Doomed(s.workers[t]) ==> !Vouched(s, rid)
  }

  predicate Present(w: World, rid: ResId) {
    rid in w.containers || rid in w.networks
  }

  /** The resource belongs to an attempt under way, or a running row records it. */
  predicate Live(s: State, rid: ResId) {
    Vouched(s, rid) || exists t :: t in s.workers && rid in MadeBy(s.workers[t])
  }

  lemma LiveIsYoung(c: Config, s: State, t: TaskId, rid: ResId, cutoff: Time)
    requires Inv(c, s) && WithinGrace(c, s) && t in s.workers && rid in MadeBy(s.workers[t])
    requires cutoff <= s.now - c.grace
    ensures !BornBy(s, rid, cutoff)
  {
    assert WorkerOk(c, s, s.workers[t]);
    assert BornSince(s, rid, s.workers[t].attempt.firstMade);
  }

  /** Only the commit of a provision brings a running row to vouch for something new. */
  lemma NewlyVouched(c: Config, s: State, step: Step, rid: ResId)
    requires Inv(c, s) && Enabled(c, s, step) && Vouched(Apply(c, s, step), rid) && !Vouched(s, rid)
    ensures step.ProvisionCommit? && rid in MadeBy(s.workers[step.tid])
  {
    if step.ProvisionCommit? {
      assert WorkerOk(c, s, s.workers[step.tid]);
      VouchedByLaunch(s, step.tid, step.port, step.raised, rid);
    } else {
      NothingVouched(c, s, step, rid);
    }
  }

  lemma VouchedByLaunch(s: State, tid: TaskId, port: nat, raised: bool, rid: ResId)
    requires ProvisionAt(s, tid, Working) && AttemptOk(s, s.workers[tid].attempt)
    requires s.workers[tid].attempt.network.Some? && s.workers[tid].attempt.env in s.rows
    requires Vouched(DoProvisionCommit(s, tid, port, raised), rid) && !Vouched(s, rid)
    ensures rid in MadeBy(s.workers[tid])
  {
  }

  lemma NothingVouched(c: Config, s: State, step: Step, rid: ResId)
    requires RowsOk(s) && Enabled(c, s, step) && !step.ProvisionCommit? && Vouched(Apply(c, s, step), rid)
    ensures Vouched(s, rid)
  {
    var s' := Apply(c, s, step);
    var id :| id in s'.rows && s'.rows[id].status == Running && rid in Recorded(s'.rows[id]);
    RunningStays(c, s, step, id);
  }

  predicate WritesRows(step: Step) {
    step.CreateCommit? || step.ReapClaim? || step.Recover? || WritesRow(step)
  }

  predicate WritesRow(step: Step) {
    step.ProvisionLoad? || step.ProvisionCommit? || step.TeardownLoad? || step.TeardownCommit? || step.MarkFailed?
  }

  lemma RowsUntouched(c: Config, s: State, step: Step)
    requires Enabled(c, s, step) && !WritesRows(step)
    ensures SameRows(s, Apply(c, s, step))
  {
    if Passing(step) {
      PassingFrame(c, s, step);
    } else if ApiOrForeign(step) {
      ApiFrame(c, s, step);
    } else if BySweep(step) {
      SweepFrame(c, s, step);
    } else {
      TaskFrame(c, s, step);
    }
  }

  /** Resources may come; none goes. */
  predicate Grows(w: World, w': World) {
    w.containers.Keys <= w'.containers.Keys && w.networks.Keys <= w'.networks.Keys
  }

  predicate SamePasses(s: State, s': State) {
    forall t :: t in s'.workers && s'.workers[t].Reconcile? ==> t in s.workers && s.workers[t] == s'.workers[t]
  }

  predicate SameRows(s: State, s': State) {
    s'.rows == s.rows && s'.revived == s.revived && s'.raced == s.raced
  }

  lemma PassingFrame(c: Config, s: State, step: Step)
    requires Enabled(c, s, step) && Passing(step)
    ensures var s' := Apply(c, s, step);
            SameRows(s, s') && Grows(s.world, s'.world) && SamePasses(s, s')
  {
    if step.Unwind? {
      UnwindFrame(s, step.tid);
    } else if step.Deliver? {
      DeliverFrame(c, s, step);
    }
  }

  lemma DeliverFrame(c: Config, s: State, step: Step)
    requires Enabled(c, s, step) && step.Deliver?
    ensures var s' := Apply(c, s, step);
            SameRows(s, s') && Grows(s.world, s'.world) && SamePasses(s, s')
  {
  }

  lemma UnwindFrame(s: State, tid: TaskId)
    requires IsTask(s, tid) && (PhaseOf(s.workers[tid]).Marked? || PhaseOf(s.workers[tid]).Raised?)
    ensures var s' := DoUnwind(s, tid);
            SameRows(s, s') && Grows(s.world, s'.world) && SamePasses(s, s')
  {
  }

  lemma ApiFrame(c: Config, s: State, step: Step)
    requires Enabled(c, s, step) && ApiOrForeign(step)
    ensures var s' := Apply(c, s, step);
            (!step.CreateCommit? ==> SameRows(s, s')) && Grows(s.world, s'.world) && SamePasses(s, s')
  {
  }

  lemma SweepFrame(c: Config, s: State, step: Step)
    requires Enabled(c, s, step) && BySweep(step)
    ensures var s' := Apply(c, s, step);
            && (!WritesRows(step) ==> SameRows(s, s'))
            && Grows(s.world, s'.world)
            && (WritesRows(step) ==> SamePasses(s, s'))
  {
  }

  lemma TaskFrame(c: Config, s: State, step: Step)
    requires Enabled(c, s, step) && !Passing(step) && !ApiOrForeign(step) && !BySweep(step)
    ensures var s' := Apply(c, s, step);
            && (!WritesRow(step) ==> SameRows(s, s'))
            && (!step.RemoveNext? ==> Grows(s.world, s'.world) && SamePasses(s, s'))
  {
    if WritesRow(step) {
      WriterFrame(c, s, step);
    }
  }

  lemma WriterFrame(c: Config, s: State, step: Step)
    requires Enabled(c, s, step) && WritesRow(step)
    ensures Grows(s.world, Apply(c, s, step).world) && SamePasses(s, Apply(c, s, step))
  {
    if step.ProvisionLoad? || step.TeardownLoad? {
      StarterFrame(c, s, step);
    } else if step.MarkFailed? {
      MarkerFrame(c, s, step);
    } else if step.ProvisionCommit? {
      LauncherFrame(s, step.tid, step.port, step.raised);
    } else {
      StopperFrame(s, step.tid);
    }
  }

  lemma LauncherFrame(s: State, tid: TaskId, port: nat, raised: bool)
    requires ProvisionAt(s, tid, Working) && s.workers[tid].attempt.network.Some? && s.workers[tid].attempt.env in s.rows
    ensures var s' := DoProvisionCommit(s, tid, port, raised);
            Grows(s.world, s'.world) && SamePasses(s, s')
  {
  }

  lemma StopperFrame(s: State, tid: TaskId)
    requires TeardownAt(s, tid, Working) && s.workers[tid].removal.env in s.rows
    ensures var s' := DoTeardownCommit(s, tid);
            Grows(s.world, s'.world) && SamePasses(s, s')
  {
  }

  lemma StarterFrame(c: Config, s: State, step: Step)
    requires Enabled(c, s, step) && (step.ProvisionLoad? || step.TeardownLoad?)
    ensures Grows(s.world, Apply(c, s, step).world) && SamePasses(s, Apply(c, s, step))
  {
  }

  lemma MarkerFrame(c: Config, s: State, step: Step)
    requires Enabled(c, s, step) && step.MarkFailed?
    ensures Grows(s.world, Apply(c, s, step).world) && SamePasses(s, Apply(c, s, step))
  {
  }

  /** Tasks write one row at a time, and it is the row of their own environment. */
  lemma RowWritten(c: Config, s: State, step: Step)
    requires Enabled(c, s, step) && WritesRow(step)
    ensures OneRowWritten(s, step, Apply(c, s, step), EnvOf(s.workers[step.tid]))
  {
    if step.ProvisionLoad? || step.TeardownLoad? {
      StartWritten(c, s, step);
    } else {
      EndWritten(c, s, step);
    }
  }

  predicate OneRowWritten(s: State, step: Step, s': State, env: EnvId) {
    SameRows(s, s') ||
    (s'.raced == s.raced && env in s.rows && env in s'.rows && s'.rows == Write(s, env, s'.rows[env]).rows
     && s'.revived == Write(s, env, s'.rows[env]).revived
     && s'.rows[env].owner == s.rows[env].owner && s'.rows[env].name == s.rows[env].name
     && (s'.rows[env].status == Running ==> step.ProvisionCommit?))
  }

  lemma StartWritten(c: Config, s: State, step: Step)
    requires Enabled(c, s, step) && (step.ProvisionLoad? || step.TeardownLoad?)
    ensures OneRowWritten(s, step, Apply(c, s, step), EnvOf(s.workers[step.tid]))
  {
  }

  lemma EndWritten(c: Config, s: State, step: Step)
    requires Enabled(c, s, step) && (step.ProvisionCommit? || step.TeardownCommit? || step.MarkFailed?)
    ensures OneRowWritten(s, step, Apply(c, s, step), EnvOf(s.workers[step.tid]))
  {
  }

  lemma RunningStays(c: Config, s: State, step: Step, id: EnvId)
    requires RowsOk(s) && Enabled(c, s, step) && !step.ProvisionCommit?
    requires id in Apply(c, s, step).rows && Apply(c, s, step).rows[id].status == Running
    ensures id in s.rows && Apply(c, s, step).rows[id] == s.rows[id]
  {
    if WritesRow(step) {
      RowWritten(c, s, step);
    } else if !WritesRows(step) {
      RowsUntouched(c, s, step);
    }
  }

  predicate MovesPass(step: Step) {
    step.ListContainers? || step.ListNetworks? || step.CheckLabel? || step.RemoveNext?
  }

  lemma PassesUntouched(c: Config, s: State, step: Step, t: TaskId)
    requires Enabled(c, s, step) && !MovesPass(step)
    requires t in Apply(c, s, step).workers && Apply(c, s, step).workers[t].Reconcile?
    ensures t in s.workers && s.workers[t] == Apply(c, s, step).workers[t]
  {
    if Passing(step) {
      PassingFrame(c, s, step);
    } else if ApiOrForeign(step) {
      ApiFrame(c, s, step);
    } else if BySweep(step) {
      SweepFrame(c, s, step);
    } else {
      TaskFrame(c, s, step);
    }
  }

  /** A pass comes to threaten only what it has just checked against the table. */
  lemma NewlyDoomed(c: Config, s: State, step: Step, t: TaskId, rid: ResId)
    requires Enabled(c, s, step)
    requires t in Apply(c, s, step).workers && Apply(c, s, step).workers[t].Reconcile?
    requires rid in Doomed(Apply(c, s, step).workers[t])
    requires !(t in s.workers && s.workers[t].Reconcile? && rid in Doomed(s.workers[t]))
    ensures step.CheckLabel? && Sweepable(s.rows, step.tag) && BornAs(s, rid, step.tag)
    ensures Apply(c, s, step).rows == s.rows
  {
    if !MovesPass(step) {
      PassesUntouched(c, s, step, t);
    }
  }

  /** What is about to be swept stays unvouched for: a row cannot come to record it, for it is too old to be live. */
  lemma PassesStaySafe(c: Config, s: State, step: Step)
    requires Inv(c, s) && PassesSafe(s) && WithinGrace(c, s) && Enabled(c, s, step)
    ensures PassesSafe(Apply(c, s, step))
  {
    var s' := Apply(c, s, step);
    forall t, rid | t in s'.workers && s'.workers[t].Reconcile? && rid in Doomed(s'.workers[t])
      ensures !Vouched(s', rid)
    {
      if t in s.workers && s.workers[t].Reconcile? && rid in Doomed(s.workers[t]) {
        if Vouched(s', rid) {
          NewlyVouched(c, s, step, rid);
          assert WorkerOk(c, s, s.workers[t]);
          LiveIsYoung(c, s, step.tid, rid, s.workers[t].pass.cutoff);
          assert false;
        }
      } else {
        NewlyDoomed(c, s, step, t, rid);
        SweepableUnvouched(s, rid, step.tag);
      }
    }
  }

  lemma SweepableUnvouched(s: State, rid: ResId, tag: Label)
    requires RowsOk(s) && Sweepable(s.rows, tag) && BornAs(s, rid, tag)
    ensures !Vouched(s, rid)
  {
  }

  /** Whatever disappears was the next in the queue of the task that took it away. */
  lemma RemovedWasQueued(c: Config, s: State, step: Step, rid: ResId)
    requires Enabled(c, s, step) && Present(s.world, rid) && !Present(Apply(c, s, step).world, rid)
    ensures step.RemoveNext? && rid in Doomed(s.workers[step.tid])
  {
    if !step.RemoveNext? {
      WorldOnlyGrows(c, s, step);
    }
  }

  lemma WorldOnlyGrows(c: Config, s: State, step: Step)
    requires Enabled(c, s, step) && !step.RemoveNext?
    ensures Grows(s.world, Apply(c, s, step).world)
  {
    if Passing(step) {
      PassingFrame(c, s, step);
    } else if ApiOrForeign(step) {
      ApiFrame(c, s, step);
    } else if BySweep(step) {
      SweepFrame(c, s, step);
    } else {
      TaskFrame(c, s, step);
    }
  }

  lemma SafeStep(c: Config, s: State, step: Step, rid: ResId)
    requires Inv(c, s) && PassesSafe(s) && WithinGrace(c, s) && Enabled(c, s, step)
    requires Present(s.world, rid) && !Present(Apply(c, s, step).world, rid)
    ensures !Live(s, rid)
  {
    RemovedWasQueued(c, s, step, rid);
    var w := s.workers[step.tid];
    assert WorkerOk(c, s, w);
    forall t | t in s.workers
      ensures rid !in MadeBy(s.workers[t])
    {
      if w.Reconcile? && rid in MadeBy(s.workers[t]) {
        LiveIsYoung(c, s, t, rid, w.pass.cutoff);
        assert false;
      }
    }
  }

  /**
   * Nothing live is ever removed. In any interleaving of requests, deliveries, redeliveries, retries, kills and
   * sweeps, if attempts that have asked Docker for something commit, fail or die within a grace period, then no
   * step takes away a resource of an attempt under way or one that a running row records.
   */
  lemma NothingLiveRemoved(c: Config, states: seq<State>, steps: seq<Step>, i: nat, rid: ResId)
    requires Run(c, states, steps) && i < |steps|
    requires forall j :: 0 <= j <= i ==> WithinGrace(c, states[j])
    requires Present(states[i].world, rid) && !Present(states[i + 1].world, rid)
    ensures !Live(states[i], rid)
  {
    InvAt(c, states, steps, i);
    PassesSafeInRun(c, states, steps, i);
    assert StepAt(c, states, steps, i);
    SafeStep(c, states[i], steps[i], rid);
  }

  lemma {:induction false} PassesSafeInRun(c: Config, states: seq<State>, steps: seq<Step>, i: nat)
    requires Run(c, states, steps) && i < |states|
    requires forall j :: 0 <= j < i ==> WithinGrace(c, states[j])
    ensures PassesSafe(states[i])
  {
    if i > 0 {
      PassesSafeInRun(c, states, steps, i - 1);
      PassesSafeNext(c, states, steps, i - 1);
    }
  }

  lemma PassesSafeNext(c: Config, states: seq<State>, steps: seq<Step>, i: nat)
    requires Run(c, states, steps) && i < |steps| && WithinGrace(c, states[i]) && PassesSafe(states[i])
    ensures PassesSafe(states[i + 1])
  {
    InvAt(c, states, steps, i);
    assert StepAt(c, states, steps, i);
    PassesStepSafe(c, states[i], steps[i], states[i + 1]);
  }

  lemma PassesStepSafe(c: Config, s: State, step: Step, s': State)
    requires Inv(c, s) && PassesSafe(s) && WithinGrace(c, s) && StepOf(c, s, step, s')
    ensures PassesSafe(s')
  {
    PassesStaySafe(c, s, step);
  }
}

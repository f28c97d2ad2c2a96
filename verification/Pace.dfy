/** How long attempts live when Docker and the database answer in time, and what that is worth over whole runs. */
module Pace {
  import opened Lifecycle
  import opened Protocol
  import opened Invariants
  import opened Safety
  import Docker
  import Templates

  /** The longest a Docker call, the commit of a finished stack, and the clean-up after an exception take. */
  datatype Pace = Pace(call: nat, commit: nat, marking: nat)

  /** The longest a provision of n roles can live. */
  function Limit(c: Config, p: Pace, n: nat): nat {
    Docker.StackLimit(n, c.readyTimeout, p.call) + p.commit + p.marking
  }

  /** The longest it can hold anything: without the time its first call took. */
  function HoldLimit(c: Config, p: Pace, n: nat): nat {
    Docker.Times(n, Role(c, p)) + p.commit + p.marking
  }

  function Role(c: Config, p: Pace): nat {
    Docker.RoleLimit(c.readyTimeout, p.call)
  }

  /** How long an attempt may be at what it is doing: its network, one role, the commit, or unwinding. */
  function Allowance(c: Config, p: Pace, a: Attempt): nat {
    if a.phase != Working then p.marking
    else if a.network.None? then p.call
    else if a.ready < |a.order| then Role(c, p)
    else p.commit
  }

  /** Nobody is late: each attempt that has its row is still within the allowance of what it is doing. */
  predicate OnTime(c: Config, p: Pace, s: State) {
    forall t :: t in s.workers && s.workers[t].Provision? && s.workers[t].attempt.loadedAt.Some? ==>
      s.now <= s.workers[t].attempt.since + Allowance(c, p, s.workers[t].attempt)
  }

  /** Nobody is late up to state i of a run. */
  ghost predicate Prompt(c: Config, p: Pace, states: seq<State>, i: nat)
    requires i < |states|
  {
    forall j :: 0 <= j <= i ==> OnTime(c, p, states[j])
  }

  /** The most that can have passed between loading the row and beginning what the attempt is doing. */
  function Spent(c: Config, p: Pace, a: Attempt): nat {
    if a.phase != Working then Docker.StackLimit(|a.order|, c.readyTimeout, p.call) + p.commit
    else if a.network.None? then 0
    else Docker.StackLimit(a.ready, c.readyTimeout, p.call)
  }

  /** The most that can have passed between making its first resource and beginning what the attempt is doing. */
  function Held(c: Config, p: Pace, a: Attempt): nat {
    if a.phase != Working then Docker.Times(|a.order|, Role(c, p)) + p.commit else Docker.Times(a.ready, Role(c, p))
  }

  /** The order is that of some template, and only an attempt with roles makes anything. */
  ghost predicate OrderKnown(c: Config, a: Attempt) {
    && (a.order == [] || exists name :: name in c.templates && a.order == Templates.StartOrder(c.templates[name]))
    && (a.firstMade.Some? ==> a.order != [])
  }

  ghost predicate Paced(c: Config, p: Pace, a: Attempt) {
    && a.ready <= |a.order| && |a.containers| <= |a.order| && OrderKnown(c, a)
    && (a.containers != [] ==> a.network.Some?)
    && (a.loadedAt.Some? ==> a.since <= a.loadedAt.value + Spent(c, p, a))
    && (a.firstMade.Some? ==> a.loadedAt.Some? && a.since <= a.firstMade.value + Held(c, p, a))
    && (a.phase == Working ==> a.loadedAt.Some? && (a.firstMade.Some? <==> a.network.Some?))
    && (a.phase == Loading ==> a.loadedAt.None? && a.firstMade.None? && a.network.None? && a.ready == 0 && a.containers == [])
  }

  ghost predicate AllPaced(c: Config, p: Pace, s: State) {
    forall t :: t in s.workers && s.workers[t].Provision? ==> Paced(c, p, s.workers[t].attempt)
  }

  // ---- One attempt ---------------------------------------------------------

  lemma RolesMonotone(c: Config, p: Pace, k: nat, n: nat)
    requires k <= n
    ensures Docker.StackLimit(k, c.readyTimeout, p.call) <= Docker.StackLimit(n, c.readyTimeout, p.call)
    ensures k < n ==> Docker.StackLimit(k, c.readyTimeout, p.call) + Role(c, p) <= Docker.StackLimit(n, c.readyTimeout, p.call)
  {
    Docker.TimesMonotone(k, n, Role(c, p));
    if k < n {
      Docker.TimesMonotone(k + 1, n, Role(c, p));
    }
  }

  /** Whatever an attempt is doing, and within what is left for it, it has been at most so long. */
  lemma SpentAndAllowed(c: Config, p: Pace, a: Attempt)
    requires a.ready <= |a.order|
    ensures a.phase == Working ==>
              Spent(c, p, a) + Allowance(c, p, a) <= Docker.StackLimit(|a.order|, c.readyTimeout, p.call) + p.commit
    ensures Spent(c, p, a) + Allowance(c, p, a) <= Limit(c, p, |a.order|)
    ensures a.phase != Working || a.network.Some? ==> Held(c, p, a) + Allowance(c, p, a) <= HoldLimit(c, p, |a.order|)
    ensures a.phase == Working && a.network.Some? ==>
              Held(c, p, a) + Allowance(c, p, a) <= Docker.Times(|a.order|, Role(c, p)) + p.commit
  {
    Docker.TimesMonotone(a.ready, |a.order|, Role(c, p));
    if a.ready < |a.order| {
      Docker.TimesMonotone(a.ready + 1, |a.order|, Role(c, p));
    }
    RolesMonotone(c, p, a.ready, |a.order|);
    RolesMonotone(c, p, 0, |a.order|);
  }

  // ---- One step ------------------------------------------------------------

  /** Steps in which one attempt, and no other, moves. */
  predicate MovesAttempt(step: Step) {
    step.Deliver? || step.ProvisionLoad? || step.ProvisionNetwork? || step.ProvisionContainer? || step.RoleReady?
    || step.ProvisionCommit? || step.Raise? || step.MarkFailed?
  }

  predicate SameAttempts(s: State, s': State) {
    forall t :: t in s'.workers && s'.workers[t].Provision? ==> t in s.workers && s'.workers[t] == s.workers[t]
  }

  lemma PassingAttempts(c: Config, s: State, step: Step)
    requires Enabled(c, s, step) && Passing(step) && !step.Deliver?
    ensures SameAttempts(s, Apply(c, s, step))
  {
  }

  lemma SweepAttempts(c: Config, s: State, step: Step)
    requires Enabled(c, s, step) && BySweep(step)
    ensures SameAttempts(s, Apply(c, s, step))
  {
  }

  lemma OtherAttempts(c: Config, s: State, step: Step)
    requires Enabled(c, s, step) && !Passing(step) && !BySweep(step) && !MovesAttempt(step)
    ensures SameAttempts(s, Apply(c, s, step))
  {
  }

  lemma AttemptsUntouched(c: Config, s: State, step: Step)
    requires Enabled(c, s, step) && !MovesAttempt(step)
    ensures SameAttempts(s, Apply(c, s, step))
  {
    if Passing(step) {
      PassingAttempts(c, s, step);
    } else if BySweep(step) {
      SweepAttempts(c, s, step);
    } else {
      OtherAttempts(c, s, step);
    }
  }

  lemma OneMoves(c: Config, s: State, step: Step)
    requires Enabled(c, s, step) && MovesAttempt(step)
    ensures OthersSame(s, Apply(c, s, step), step.tid)
  {
    if step.ProvisionCommit? || step.MarkFailed? || step.ProvisionLoad? {
      WriterMoves(c, s, step);
    }
  }

  lemma WriterMoves(c: Config, s: State, step: Step)
    requires Enabled(c, s, step) && (step.ProvisionCommit? || step.MarkFailed? || step.ProvisionLoad?)
    ensures OthersSame(s, Apply(c, s, step), step.tid)
  {
  }

  /** The attempt that moves was not late, so what it does next begins in time. */
  lemma MoverPaced(c: Config, p: Pace, s: State, step: Step)
    requires Enabled(c, s, step) && MovesAttempt(step) && AllPaced(c, p, s) && OnTime(c, p, s)
    ensures var s' := Apply(c, s, step);
            step.tid in s'.workers && s'.workers[step.tid].Provision? ==> Paced(c, p, s'.workers[step.tid].attempt)
  {
    if step.MarkFailed? || step.Raise? {
      UnwinderPaced(c, p, s, step);
    } else {
      match step {
        case Deliver(tid, msg, acked) => NewcomerPaced(c, p, s, msg);
        case ProvisionLoad(tid) => LoaderPaced(c, p, s, tid);
        case ProvisionCommit(tid, port, raised) => CommitterPaced(c, p, s, step);
        case _ => BuilderPaced(c, p, s, step);
      }
    }
  }

  lemma UnwinderPaced(c: Config, p: Pace, s: State, step: Step)
    requires Enabled(c, s, step) && (step.MarkFailed? || step.Raise?) && AllPaced(c, p, s) && OnTime(c, p, s)
    ensures var s' := Apply(c, s, step);
            step.tid in s'.workers && s'.workers[step.tid].Provision? ==> Paced(c, p, s'.workers[step.tid].attempt)
  {
    if s.workers[step.tid].Provision? {
      match step {
        case MarkFailed(tid, saved, text) => MarkerPaced(c, p, s, tid, saved, text);
        case Raise(tid, valueError) => RaiserPaced(c, p, s, tid, valueError);
      }
    }
  }

  lemma NewcomerPaced(c: Config, p: Pace, s: State, msg: Message)
    ensures Start(s, msg).Provision? ==> Paced(c, p, Start(s, msg).attempt)
  {
  }

  lemma LoaderPaced(c: Config, p: Pace, s: State, tid: TaskId)
    requires ProvisionAt(s, tid, Loading) && AllPaced(c, p, s)
    ensures Paced(c, p, DoProvisionLoad(c, s, tid).workers[tid].attempt)
  {
    assert Paced(c, p, s.workers[tid].attempt);
  }

  lemma RaiserPaced(c: Config, p: Pace, s: State, tid: TaskId, valueError: bool)
    requires IsTask(s, tid) && PhaseOf(s.workers[tid]) in {Loading, Working} && s.workers[tid].Provision?
    requires AllPaced(c, p, s) && OnTime(c, p, s)
    ensures Paced(c, p, Raising(s.workers[tid], valueError, s.now).attempt)
  {
    var a := s.workers[tid].attempt;
    assert Paced(c, p, a);
    SpentAndAllowed(c, p, a);
  }

  lemma CommitterPaced(c: Config, p: Pace, s: State, step: Step)
    requires Enabled(c, s, step) && step.ProvisionCommit? && AllPaced(c, p, s) && OnTime(c, p, s)
    ensures var s' := Apply(c, s, step);
            step.tid in s'.workers ==> s'.workers[step.tid].Provision? && Paced(c, p, s'.workers[step.tid].attempt)
  {
    if step.raised {
      LauncherPaced(c, p, s, step.tid, step.port);
    }
  }

  lemma LauncherPaced(c: Config, p: Pace, s: State, tid: TaskId, port: nat)
    requires ProvisionAt(s, tid, Working) && s.workers[tid].attempt.network.Some? && s.workers[tid].attempt.env in s.rows
    requires AllPaced(c, p, s) && OnTime(c, p, s)
    ensures Paced(c, p, DoProvisionCommit(s, tid, port, true).workers[tid].attempt)
  {
    var a := s.workers[tid].attempt;
    assert Paced(c, p, a);
    SpentAndAllowed(c, p, a);
  }

  lemma MarkerPaced(c: Config, p: Pace, s: State, tid: TaskId, saved: bool, text: string)
    requires IsTask(s, tid) && PhaseOf(s.workers[tid]).Raised? && s.workers[tid].Provision? && AllPaced(c, p, s)
    ensures Paced(c, p, DoMarkFailed(s, tid, saved, text).workers[tid].attempt)
  {
    assert Paced(c, p, s.workers[tid].attempt);
  }

  lemma BuilderPaced(c: Config, p: Pace, s: State, step: Step)
    requires Enabled(c, s, step) && (step.ProvisionNetwork? || step.ProvisionContainer? || step.RoleReady?)
    requires AllPaced(c, p, s) && OnTime(c, p, s)
    ensures Paced(c, p, Apply(c, s, step).workers[step.tid].attempt)
  {
    var a := s.workers[step.tid].attempt;
    assert Paced(c, p, a);
    match step {
      case ProvisionNetwork(tid, rid, answered) => NetworkPaced(c, p, s, tid, rid, answered);
      case ProvisionContainer(tid, rid, started) => ContainerPaced(c, p, s, tid, rid, started);
      case RoleReady(tid) => RolePaced(c, p, s, tid);
    }
  }

  lemma NetworkPaced(c: Config, p: Pace, s: State, tid: TaskId, rid: ResId, answered: bool)
    requires ProvisionAt(s, tid, Working) && s.workers[tid].attempt.network.None? && s.workers[tid].attempt.order != []
    requires Paced(c, p, s.workers[tid].attempt) && OnTime(c, p, s)
    ensures Paced(c, p, DoProvisionNetwork(s, tid, rid, answered).workers[tid].attempt)
  {
    SpentAndAllowed(c, p, s.workers[tid].attempt);
  }

  lemma ContainerPaced(c: Config, p: Pace, s: State, tid: TaskId, rid: ResId, started: bool)
    requires ProvisionAt(s, tid, Working) && s.workers[tid].attempt.network.Some?
    requires |s.workers[tid].attempt.containers| == s.workers[tid].attempt.ready < |s.workers[tid].attempt.order|
    requires Paced(c, p, s.workers[tid].attempt) && OnTime(c, p, s)
    ensures Paced(c, p, DoProvisionContainer(s, tid, rid, started).workers[tid].attempt)
  {
    SpentAndAllowed(c, p, s.workers[tid].attempt);
  }

  lemma RolePaced(c: Config, p: Pace, s: State, tid: TaskId)
    requires ProvisionAt(s, tid, Working) && |s.workers[tid].attempt.containers| == s.workers[tid].attempt.ready + 1
    requires Paced(c, p, s.workers[tid].attempt) && OnTime(c, p, s)
    ensures Paced(c, p, DoRoleReady(s, tid).workers[tid].attempt)
  {
    SpentAndAllowed(c, p, s.workers[tid].attempt);
  }

  lemma PacedStep(c: Config, p: Pace, s: State, step: Step)
    requires Enabled(c, s, step) && AllPaced(c, p, s) && OnTime(c, p, s)
    ensures AllPaced(c, p, Apply(c, s, step))
  {
    if MovesAttempt(step) {
      OneMoves(c, s, step);
      MoverPaced(c, p, s, step);
    } else {
      AttemptsUntouched(c, s, step);
    }
  }

  // ---- Runs ----------------------------------------------------------------

  lemma PacedNext(c: Config, p: Pace, states: seq<State>, steps: seq<Step>, i: nat)
    requires Run(c, states, steps) && i < |steps| && AllPaced(c, p, states[i]) && OnTime(c, p, states[i])
    ensures AllPaced(c, p, states[i + 1])
  {
    assert StepAt(c, states, steps, i);
    PacedStep(c, p, states[i], steps[i]);
  }

  lemma {:induction false} PacedInRun(c: Config, p: Pace, states: seq<State>, steps: seq<Step>, i: nat)
    requires Run(c, states, steps) && i < |states| && forall j :: 0 <= j < i ==> OnTime(c, p, states[j])
    ensures AllPaced(c, p, states[i])
  {
    if i > 0 {
      PacedInRun(c, p, states, steps, i - 1);
      PacedNext(c, p, states, steps, i - 1);
    }
  }

  /** An attempt with n roles lives at most `Limit` from loading its row: the bound on the whole from those on its parts. */
  lemma LivesAtMost(c: Config, p: Pace, states: seq<State>, steps: seq<Step>, i: nat, t: TaskId)
    requires Run(c, states, steps) && i < |states| && Prompt(c, p, states, i)
    requires t in states[i].workers && states[i].workers[t].Provision? && states[i].workers[t].attempt.loadedAt.Some?
    ensures var a := states[i].workers[t].attempt;
            && states[i].now <= a.loadedAt.value + Limit(c, p, |a.order|) && OrderKnown(c, a)
            && (a.firstMade.Some? ==> states[i].now <= a.firstMade.value + HoldLimit(c, p, |a.order|))
            && (a.phase == Working ==> states[i].now + p.marking <= a.loadedAt.value + Limit(c, p, |a.order|))
  {
    PacedInRun(c, p, states, steps, i);
    var a := states[i].workers[t].attempt;
    assert Paced(c, p, a);
    assert OnTime(c, p, states[i]);
    SpentAndAllowed(c, p, a);
  }

  /**
   * If a stack of the attempt's roles, its commit and its clean-up fit in the provisioning timeout, then no
   * recover of the run takes the row out of PROVISIONING while the attempt is alive, at work or unwinding.
   */
  lemma RecoverSparesAttempts(c: Config, p: Pace, states: seq<State>, steps: seq<Step>, i: nat, t: TaskId)
    requires Run(c, states, steps) && i < |steps| && steps[i] == Recover && Prompt(c, p, states, i)
    requires t in states[i].workers && states[i].workers[t].Provision? && states[i].workers[t].attempt.loadedAt.Some?
    requires Limit(c, p, |states[i].workers[t].attempt.order|) < c.provisioningTimeout
    ensures var env := states[i].workers[t].attempt.env;
            && env in states[i].rows && env in states[i + 1].rows
            && (states[i].rows[env].status == Provisioning ==> states[i + 1].rows[env] == states[i].rows[env])
  {
    InvAt(c, states, steps, i);
    assert WorkerOk(c, states[i], states[i].workers[t]);
    LivesAtMost(c, p, states, steps, i, t);
    RecoveredNext(c, states, steps, i);
  }

  lemma RecoveredNext(c: Config, states: seq<State>, steps: seq<Step>, i: nat)
    requires Run(c, states, steps) && i < |steps| && steps[i] == Recover
    ensures states[i + 1].rows == RecoverRows(c, states[i].rows, states[i].now)
  {
    assert StepAt(c, states, steps, i);
  }

  /** Every template's stack, commit and clean-up fit in this time. */
  predicate Fits(c: Config, p: Pace, time: nat) {
    forall name :: name in c.templates ==> Limit(c, p, |c.templates[name]|) < time
  }

  /** For every template, what an attempt may hold is gone, or recorded, within the grace period. */
  predicate HoldsWithinGrace(c: Config, p: Pace) {
    forall name :: name in c.templates && c.templates[name] != [] ==> HoldLimit(c, p, |c.templates[name]|) < c.grace
  }

  lemma PromptIsWithinGrace(c: Config, p: Pace, states: seq<State>, steps: seq<Step>, i: nat)
    requires Run(c, states, steps) && i < |states| && Prompt(c, p, states, i) && HoldsWithinGrace(c, p)
    ensures WithinGrace(c, states[i])
  {
    InvAt(c, states, steps, i);
    var s := states[i];
    forall t | t in s.workers && s.workers[t].Provision? && s.workers[t].attempt.firstMade.Some?
      ensures s.now < s.workers[t].attempt.firstMade.value + c.grace
    {
      var a := s.workers[t].attempt;
      assert WorkerOk(c, s, s.workers[t]);
      LivesAtMost(c, p, states, steps, i, t);
      assert a.order != [];
      var name :| name in c.templates && a.order == Templates.StartOrder(c.templates[name]);
      Templates.PickKeepsAll(c.templates[name]);
    }
  }

  /**
   * Nothing live is removed, from the times of single calls: if no attempt is ever late with a call, a role, its
   * commit or its clean-up, and n(T + 2 + 3d) plus commit and clean-up is below the grace period for every
   * template, no step takes away a live resource.
   */
  lemma PromptRunsAreSafe(c: Config, p: Pace, states: seq<State>, steps: seq<Step>, i: nat, rid: ResId)
    requires Run(c, states, steps) && i < |steps| && Prompt(c, p, states, i) && HoldsWithinGrace(c, p)
    requires Present(states[i].world, rid) && !Present(states[i + 1].world, rid)
    ensures !Live(states[i], rid)
  {
    forall j | 0 <= j <= i
      ensures WithinGrace(c, states[j])
    {
      PromptIsWithinGrace(c, p, states, steps, j);
    }
    NothingLiveRemoved(c, states, steps, i, rid);
  }

  /**
   * The shipped timeouts: templates of two roles fit in the provisioning timeout exactly if seven calls and the
   * writes take under 656 s, and let go within the grace period exactly if six do.
   */
  lemma ShippedFits(p: Pace, templates: map<string, Template>)
    requires templates != map[] && forall name :: name in templates ==> |templates[name]| == 2
    ensures var c := Shipped(templates);
            && (Fits(c, p, c.provisioningTimeout) <==> 7 * p.call + p.commit + p.marking < 656 * SECOND)
            && (HoldsWithinGrace(c, p) <==> 6 * p.call + p.commit + p.marking < 656 * SECOND)
  {
    var c := Shipped(templates);
    Docker.AttemptTime(2, c.readyTimeout, p.call, p.commit + p.marking, templates);
    Docker.TimesIsProduct(2, Role(c, p));
    var name :| name in templates;
    assert Limit(c, p, |c.templates[name]|) == Limit(c, p, 2);
    assert HoldLimit(c, p, |c.templates[name]|) == HoldLimit(c, p, 2) && c.templates[name] != [];
  }
}

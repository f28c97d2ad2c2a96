/** Ownership and traceability, over whole runs. */
module Guarantees {
  import opened Lifecycle
  import opened Worlds
  import opened Protocol
  import opened Invariants
  import opened Safety

  // ---- Ownership -----------------------------------------------------------

  /**
   * In every reachable state what a row records was made for that row and nothing is recorded twice; and every
   * teardown about to remove something removes only what was made for its own environment.
   */
  lemma OwnershipHolds(c: Config, states: seq<State>, steps: seq<Step>, i: nat)
    requires Run(c, states, steps) && i < |states|
    ensures var s := states[i];
            && (forall id, rid :: id in s.rows && rid in Recorded(s.rows[id]) ==> BornAs(s, rid, Canonical(id)))
            && (forall a, b :: a in s.rows && b in s.rows && a != b ==> Recorded(s.rows[a]) !! Recorded(s.rows[b]))
            && (forall t, rid :: t in s.workers && s.workers[t].Teardown? && rid in Doomed(s.workers[t]) ==>
                  BornAs(s, rid, Canonical(s.workers[t].removal.env)) && !Live(s, rid))
  {
    InvAt(c, states, steps, i);
    var s := states[i];
    forall id | id in s.rows
      ensures RowOk(s, id, s.rows[id])
      ensures forall b :: b in s.rows && b != id ==> Recorded(s.rows[b]) !! Recorded(s.rows[id])
    {
      OnlyOwnerRecords(s, id);
    }
    forall t | t in s.workers && s.workers[t].Teardown?
      ensures RemovalOk(s, s.workers[t].removal)
    {
      assert WorkerOk(c, s, s.workers[t]);
    }
  }

  /** A sweep or teardown of one environment never takes another's resource: what goes carries the swept label. */
  lemma RemovedUnderOwnLabel(c: Config, states: seq<State>, steps: seq<Step>, i: nat, rid: ResId)
    requires Run(c, states, steps) && i < |steps|
    requires Present(states[i].world, rid) && !Present(states[i + 1].world, rid)
    ensures steps[i].RemoveNext? && steps[i].tid in states[i].workers
    ensures var w := states[i].workers[steps[i].tid];
            && (w.Teardown? ==> BornAs(states[i], rid, Canonical(w.removal.env)))
            && (w.Reconcile? ==> w.pass.visiting.Uuid? && BornAs(states[i], rid, w.pass.visiting))
            && (w.Teardown? || w.Reconcile?)
  {
    InvAt(c, states, steps, i);
    assert StepAt(c, states, steps, i);
    RemovedInStep(c, states[i], steps[i], states[i + 1], rid);
  }

  lemma RemovedInStep(c: Config, s: State, step: Step, s': State, rid: ResId)
    requires WorkersOk(c, s) && StepOf(c, s, step, s') && Present(s.world, rid) && !Present(s'.world, rid)
    ensures step.RemoveNext? && step.tid in s.workers && rid in Doomed(s.workers[step.tid])
    ensures WorkerOk(c, s, s.workers[step.tid])
  {
    RemovedWasQueued(c, s, step, rid);
  }

  // ---- Traceability --------------------------------------------------------

  predicate BirthsKept(s: State, s': State) {
    forall rid :: rid in s.born ==> rid in s'.born && s'.born[rid] == s.born[rid]
  }

  lemma HistoryKept(c: Config, s: State, step: Step)
    requires Enabled(c, s, step)
    ensures BirthsKept(s, Apply(c, s, step))
  {
    if Passing(step) {
      PassingKeeps(c, s, step);
    } else if ApiOrForeign(step) || BySweep(step) {
      OutsideKeeps(c, s, step);
    } else {
      TasksKeep(c, s, step);
    }
  }

  lemma PassingKeeps(c: Config, s: State, step: Step)
    requires Enabled(c, s, step) && Passing(step)
    ensures BirthsKept(s, Apply(c, s, step))
  {
  }

  lemma OutsideKeeps(c: Config, s: State, step: Step)
    requires Enabled(c, s, step) && (ApiOrForeign(step) || BySweep(step))
    ensures BirthsKept(s, Apply(c, s, step))
  {
  }

  lemma TasksKeep(c: Config, s: State, step: Step)
    requires Enabled(c, s, step) && !Passing(step) && !ApiOrForeign(step) && !BySweep(step)
    ensures BirthsKept(s, Apply(c, s, step))
  {
  }

  lemma {:induction false} HistoryKeptInRun(c: Config, states: seq<State>, steps: seq<Step>, i: nat, j: nat, rid: ResId)
    requires Run(c, states, steps) && i <= j < |states| && rid in states[i].born
    ensures rid in states[j].born && states[j].born[rid] == states[i].born[rid]
  {
    if i < j {
      HistoryKeptInRun(c, states, steps, i, j - 1, rid);
      HistoryKeptNext(c, states, steps, j - 1);
    }
  }

  lemma HistoryKeptNext(c: Config, states: seq<State>, steps: seq<Step>, i: nat)
    requires Run(c, states, steps) && i < |steps|
    ensures forall rid :: rid in states[i].born ==>
              rid in states[i + 1].born && states[i + 1].born[rid] == states[i].born[rid]
  {
    assert StepAt(c, states, steps, i);
    HistoryKept(c, states[i], steps[i]);
  }

  /**
   * No untraceable leak. Whatever an attempt has asked Docker for by any moment, and whatever becomes of the
   * attempt afterwards, the resource stays findable while it exists: a listing returns it, under the label of the
   * attempt's own row, exactly when it is older than the listing's cutoff.
   */
  lemma LeaksAreFound(c: Config, states: seq<State>, steps: seq<Step>, i: nat, j: nat, t: TaskId, rid: ResId, cutoff: Time)
    requires Run(c, states, steps) && i <= j < |states|
    requires t in states[i].workers && rid in MadeBy(states[i].workers[t])
    ensures var s, env := states[j], states[i].workers[t].attempt.env;
            && BornAs(s, rid, Canonical(env)) && s.born[rid].at.Some? && s.born[rid].at.value <= states[i].now
            && (rid in s.world.containers ==>
                  s.world.containers[rid].tag == Some(Canonical(env)) &&
                  (s.born[rid].at.value <= cutoff <==> rid in FoundContainers(s.world, s.now, cutoff)))
            && (rid in s.world.networks ==>
                  s.world.networks[rid].tag == Some(Canonical(env)) &&
                  (s.born[rid].at.value <= cutoff <==> rid in FoundNetworks(s.world, s.now, cutoff)))
  {
    InvAt(c, states, steps, i);
    assert WorkerOk(c, states[i], states[i].workers[t]);
    assert BornAs(states[i], rid, Canonical(states[i].workers[t].attempt.env));
    assert BornSince(states[i], rid, states[i].workers[t].attempt.firstMade);
    assert BirthOk(states[i], states[i].born[rid]);
    HistoryKeptInRun(c, states, steps, i, j, rid);
    InvAt(c, states, steps, j);
  }

  /** A pass that finds the row terminal, or no row, queues everything it found under the label; else nothing. */
  lemma CheckedIsQueued(c: Config, s: State, tid: TaskId, tag: Label, cids: seq<ResId>, nids: seq<ResId>)
    requires Enabled(c, s, CheckLabel(tid, tag, cids, nids))
    ensures var p, p' := s.workers[tid].pass, Apply(c, s, CheckLabel(tid, tag, cids, nids)).workers[tid].pass;
            && Queued(p'.queue) == (if Sweepable(s.rows, tag)
                 then Labelled(s, p.foundContainers, tag) + Labelled(s, p.foundNetworks, tag) else {})
            && p'.foundContainers == p.foundContainers - Labelled(s, p.foundContainers, tag)
            && p'.foundNetworks == p.foundNetworks - Labelled(s, p.foundNetworks, tag)
            && |p'.foundContainers| + |p'.foundNetworks| < |p.foundContainers| + |p.foundNetworks|
  {
    var p := s.workers[tid].pass;
    QueuedExactly(cids, nids, Labelled(s, p.foundContainers, tag), Labelled(s, p.foundNetworks, tag));
    FewerLeft(p, Labelled(s, p.foundContainers, tag), Labelled(s, p.foundNetworks, tag));
  }

  lemma QueuedExactly(cids: seq<ResId>, nids: seq<ResId>, a: set<ResId>, b: set<ResId>)
    requires ToSet(cids) == a && ToSet(nids) == b && (cids != [] || nids != [])
    ensures Queued(Queue(cids, nids)) == a + b && a + b != {} && Queued(NOTHING) == {}
  {
    assert cids != [] ==> cids[0] in a;
    assert nids != [] ==> nids[0] in b;
  }

  lemma FewerLeft(p: Pass, a: set<ResId>, b: set<ResId>)
    requires a <= p.foundContainers && b <= p.foundNetworks && a + b != {}
    ensures |p.foundContainers - a| + |p.foundNetworks - b| < |p.foundContainers| + |p.foundNetworks|
  {
    assert (p.foundContainers - a) + a == p.foundContainers && (p.foundNetworks - b) + b == p.foundNetworks;
    assert |p.foundContainers| == |p.foundContainers - a| + |a|;
    assert |p.foundNetworks| == |p.foundNetworks - b| + |b|;
    assert a != {} || b != {};
  }

  // ---- Retries -------------------------------------------------------------

  /** No message has been retried more often than its task may be: three times a provision, twice a teardown. */
  predicate RetriesOf(msg: Message) {
    match msg
    case ProvisionMsg(env, retries) => retries <= 3
    case TeardownMsg(env, retries) => retries <= 2
  }

  predicate WorkerRetries(w: Worker) {
    match w
    case Provision(a) => a.retries <= 3
    case Teardown(r) => r.retries <= 2
    case _ => true
  }

  predicate RetriesOk(s: State) {
    && (forall msg :: msg in s.bag ==> RetriesOf(msg))
    && (forall t :: t in s.workers ==> WorkerRetries(s.workers[t]))
  }

  /**
   * The end of an attempt that raised: a provision comes back exactly if it met no ValueError and has been retried
   * less than three times, a teardown exactly if less than twice, with one retry more; and the worker is free.
   */
  lemma UnwindExactly(c: Config, s: State, tid: TaskId)
    requires Enabled(c, s, Unwind(tid))
    ensures var s' := Apply(c, s, Unwind(tid));
            tid in s.workers && s'.workers == s.workers - {tid} && s'.rows == s.rows && s'.world == s.world
            && s'.bag == s.bag + ComesBack(s.workers[tid])
  {
    UnwindsTo(s, tid);
  }

  /** What is sent when this task unwinds. */
  function ComesBack(w: Worker): multiset<Message> {
    if w.Provision? && w.attempt.phase == Marked(false) && w.attempt.retries < 3
    then multiset{ProvisionMsg(w.attempt.env, w.attempt.retries + 1)}
    else if w.Teardown? && w.removal.retries < 2
    then multiset{TeardownMsg(w.removal.env, w.removal.retries + 1)}
    else multiset{}
  }

  lemma UnwindsTo(s: State, tid: TaskId)
    requires IsTask(s, tid)
    requires if s.workers[tid].Provision? then PhaseOf(s.workers[tid]).Marked?
             else PhaseOf(s.workers[tid]).Marked? || PhaseOf(s.workers[tid]).Raised?
    ensures var s' := DoUnwind(s, tid);
            s'.workers == s.workers - {tid} && s'.rows == s.rows && s'.world == s.world
            && s'.bag == s.bag + ComesBack(s.workers[tid])
  {
    assert s.bag + multiset{} == s.bag;
    match s.workers[tid] {
      case Provision(a) => ProvisionUnwinds(s, tid, a);
      case Teardown(r) => TeardownUnwinds(s, tid, r);
    }
  }

  lemma ProvisionUnwinds(s: State, tid: TaskId, a: Attempt)
    requires tid in s.workers && s.workers[tid] == Provision(a) && a.phase.Marked?
    ensures DoUnwind(s, tid) == s.(workers := s.workers - {tid}, bag := s.bag + ComesBack(Provision(a)))
  {
    assert s.bag + multiset{} == s.bag;
  }

  lemma TeardownUnwinds(s: State, tid: TaskId, r: Removal)
    requires tid in s.workers && s.workers[tid] == Teardown(r) && (r.phase.Marked? || r.phase.Raised?)
    ensures DoUnwind(s, tid) == s.(workers := s.workers - {tid}, bag := s.bag + ComesBack(Teardown(r)))
  {
    assert s.bag + multiset{} == s.bag;
  }

  lemma UnwindRetries(c: Config, s: State, tid: TaskId)
    requires Enabled(c, s, Unwind(tid)) && RetriesOk(s)
    ensures RetriesOk(Apply(c, s, Unwind(tid)))
  {
    UnwindExactly(c, s, tid);
    assert WorkerRetries(s.workers[tid]);
  }

  lemma PassingRetries(c: Config, s: State, step: Step)
    requires Enabled(c, s, step) && RetriesOk(s) && Passing(step) && !step.Unwind?
    ensures RetriesOk(Apply(c, s, step))
  {
    if step.Deliver? {
      DeliverRetries(c, s, step);
    } else if step.ReapSend? {
      SendRetries(c, s, step);
    }
  }

  lemma DeliverRetries(c: Config, s: State, step: Step)
    requires Enabled(c, s, step) && RetriesOk(s) && step.Deliver?
    ensures RetriesOk(Apply(c, s, step))
  {
    assert RetriesOf(step.msg);
  }

  lemma SendRetries(c: Config, s: State, step: Step)
    requires Enabled(c, s, step) && RetriesOk(s) && step.ReapSend?
    ensures RetriesOk(Apply(c, s, step))
  {
  }

  lemma OutsideRetries(c: Config, s: State, step: Step)
    requires Enabled(c, s, step) && RetriesOk(s) && (ApiOrForeign(step) || BySweep(step))
    ensures RetriesOk(Apply(c, s, step))
  {
    if BySweep(step) {
      SweepRetries(c, s, step);
    }
  }

  lemma SweepRetries(c: Config, s: State, step: Step)
    requires Enabled(c, s, step) && RetriesOk(s) && BySweep(step)
    ensures RetriesOk(Apply(c, s, step))
  {
  }

  lemma TaskRetries(c: Config, s: State, step: Step)
    requires Enabled(c, s, step) && RetriesOk(s) && !Passing(step) && !ApiOrForeign(step) && !BySweep(step)
    ensures RetriesOk(Apply(c, s, step))
  {
    assert WorkerRetries(s.workers[step.tid]);
    if WritesRow(step) {
      WriterRetries(c, s, step);
    }
  }

  lemma WriterRetries(c: Config, s: State, step: Step)
    requires Enabled(c, s, step) && RetriesOk(s) && WritesRow(step)
    ensures RetriesOk(Apply(c, s, step))
  {
    if step.ProvisionLoad? || step.ProvisionCommit? {
      ProvisionerRetries(c, s, step);
    } else if step.MarkFailed? {
      MarkerRetries(s, step.tid, step.saved, step.text);
    }
  }

  lemma ProvisionerRetries(c: Config, s: State, step: Step)
    requires Enabled(c, s, step) && RetriesOk(s) && (step.ProvisionLoad? || step.ProvisionCommit?)
    ensures RetriesOk(Apply(c, s, step))
  {
    assert WorkerRetries(s.workers[step.tid]);
  }

  lemma MarkerRetries(s: State, tid: TaskId, saved: bool, text: string)
    requires IsTask(s, tid) && PhaseOf(s.workers[tid]).Raised? && RetriesOk(s)
    ensures RetriesOk(DoMarkFailed(s, tid, saved, text))
  {
    assert WorkerRetries(s.workers[tid]);
  }

  lemma RetriesStep(c: Config, s: State, step: Step)
    requires Enabled(c, s, step) && RetriesOk(s)
    ensures RetriesOk(Apply(c, s, step))
  {
    if step.Unwind? {
      UnwindRetries(c, s, step.tid);
    } else if Passing(step) {
      PassingRetries(c, s, step);
    } else if ApiOrForeign(step) || BySweep(step) {
      OutsideRetries(c, s, step);
    } else {
      TaskRetries(c, s, step);
    }
  }

  lemma RetriesNext(c: Config, states: seq<State>, steps: seq<Step>, i: nat)
    requires Run(c, states, steps) && i < |steps| && RetriesOk(states[i])
    ensures RetriesOk(states[i + 1])
  {
    assert StepAt(c, states, steps, i);
    RetriesStep(c, states[i], steps[i]);
  }

  /** Retries are bounded in every run, whatever is lost, redelivered or killed. */
  lemma {:induction false} RetriesBounded(c: Config, states: seq<State>, steps: seq<Step>, i: nat)
    requires Run(c, states, steps) && i < |states|
    ensures RetriesOk(states[i])
  {
    if i > 0 {
      RetriesBounded(c, states, steps, i - 1);
      RetriesNext(c, states, steps, i - 1);
    }
  }
}

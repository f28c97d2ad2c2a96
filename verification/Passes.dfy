/** Reconcile passes, followed from their listing on: what they ask for, and what they can take. */
module Passes {
  import opened Lifecycle
  import opened Worlds
  import opened Protocol
  import opened Invariants
  import opened Safety
  import opened Guarantees

  // ---- Passes in runs ------------------------------------------------------

  /** One and the same pass, from its first listing at step i to state j. */
  ghost predicate PassSpan(states: seq<State>, steps: seq<Step>, i: nat, j: nat, tid: TaskId, cutoff: Time) {
    && i < |steps| && i < j < |states| && steps[i] == ListContainers(tid, cutoff)
    && forall k :: i < k <= j ==> tid in states[k].workers && states[k].workers[tid].Reconcile?
  }

  /** Nothing the pass listed is left to visit. */
  predicate Finished(s: State, tid: TaskId) {
    && ReconcileAt(s, tid, true)
    && s.workers[tid].pass.foundContainers == {} && s.workers[tid].pass.foundNetworks == {}
  }

  /** In this step the pass visits the resource, under its own label, and queues it exactly if the row allows it. */
  predicate Visits(s: State, step: Step, s': State, tid: TaskId, rid: ResId) {
    && step.CheckLabel? && step.tid == tid && BornAs(s, rid, step.tag) && tid in s'.workers
    && (rid in step.cids || rid in step.nids)
    && (rid in Doomed(s'.workers[tid]) <==> Sweepable(s.rows, step.tag))
  }

  /** What a step can do to a pass that goes on. */
  predicate PassMoved(s: State, step: Step, s': State, tid: TaskId, p: Pass, q: Pass) {
    && (forall rid :: rid in p.foundContainers ==> rid in q.foundContainers || Visits(s, step, s', tid, rid))
    && (p.listed ==> q.listed && forall rid :: rid in p.foundNetworks ==> rid in q.foundNetworks || Visits(s, step, s', tid, rid))
    && (!p.listed && q.listed ==> step == ListNetworks(tid))
    && q.cutoff == p.cutoff
  }

  lemma OwnMove(c: Config, s: State, step: Step)
    requires Enabled(c, s, step) && (step.ListNetworks? || step.CheckLabel? || step.RemoveNext?) && step.tid in s.workers
    requires s.workers[step.tid].Reconcile?
    ensures var s' := Apply(c, s, step);
            && step.tid in s'.workers && s'.workers[step.tid].Reconcile?
            && PassMoved(s, step, s', step.tid, s.workers[step.tid].pass, s'.workers[step.tid].pass)
  {
    if step.CheckLabel? {
      CheckMoves(c, s, step);
    }
  }

  lemma CheckMoves(c: Config, s: State, step: Step)
    requires Enabled(c, s, step) && step.CheckLabel?
    ensures var s' := Apply(c, s, step);
            PassMoved(s, step, s', step.tid, s.workers[step.tid].pass, s'.workers[step.tid].pass)
  {
    var p, s' := s.workers[step.tid].pass, Apply(c, s, step);
    var a, b := Labelled(s, p.foundContainers, step.tag), Labelled(s, p.foundNetworks, step.tag);
    QueuedExactly(step.cids, step.nids, a, b);
    assert forall rid :: rid in a ==> rid in ToSet(step.cids);
    assert forall rid :: rid in b ==> rid in ToSet(step.nids);
    assert Doomed(s'.workers[step.tid]) == if Sweepable(s.rows, step.tag) then a + b else {};
  }

  /** Nobody else touches a pass. */
  lemma OtherMove(c: Config, s: State, step: Step, tid: TaskId)
    requires Enabled(c, s, step) && tid in s.workers && s.workers[tid].Reconcile?
    requires !(MovesPass(step) && !step.ListContainers? && step.tid == tid)
    requires tid in Apply(c, s, step).workers && Apply(c, s, step).workers[tid].Reconcile?
    ensures Apply(c, s, step).workers[tid] == s.workers[tid]
  {
    if MovesPass(step) {
      PassOthersSame(c, s, step);
    } else {
      PassesUntouched(c, s, step, tid);
    }
  }

  lemma PassOthersSame(c: Config, s: State, step: Step)
    requires Enabled(c, s, step) && MovesPass(step)
    ensures OthersSame(s, Apply(c, s, step), step.tid)
  {
  }

  lemma PassMoves(c: Config, s: State, step: Step, s': State, tid: TaskId)
    requires StepOf(c, s, step, s') && tid in s.workers && s.workers[tid].Reconcile?
    requires tid in s'.workers && s'.workers[tid].Reconcile?
    ensures PassMoved(s, step, s', tid, s.workers[tid].pass, s'.workers[tid].pass)
  {
    if MovesPass(step) && !step.ListContainers? && step.tid == tid {
      OwnMove(c, s, step);
    } else {
      OtherMove(c, s, step, tid);
    }
  }

  lemma PassMovesNext(c: Config, states: seq<State>, steps: seq<Step>, i: nat, j: nat, tid: TaskId, cutoff: Time, k: nat)
    requires Run(c, states, steps) && PassSpan(states, steps, i, j, tid, cutoff) && i < k < j
    ensures PassMoved(states[k], steps[k], states[k + 1], tid, states[k].workers[tid].pass, states[k + 1].workers[tid].pass)
  {
    assert StepAt(c, states, steps, k);
    PassMoves(c, states[k], steps[k], states[k + 1], tid);
  }

  /** The resource has been visited between the two states. */
  ghost predicate VisitedBetween(states: seq<State>, steps: seq<Step>, from: nat, until: nat, tid: TaskId, rid: ResId)
    requires until <= |steps| < |states|
  {
    exists k :: from < k < until && VisitedAt(states, steps, k, tid, rid)
  }

  ghost predicate VisitedAt(states: seq<State>, steps: seq<Step>, k: nat, tid: TaskId, rid: ResId)
    requires k < |steps| < |states|
  {
    Visits(states[k], steps[k], states[k + 1], tid, rid)
  }

  lemma ListedFirst(c: Config, states: seq<State>, steps: seq<Step>, i: nat, tid: TaskId, cutoff: Time)
    requires Run(c, states, steps) && i < |steps| && steps[i] == ListContainers(tid, cutoff)
    ensures ReconcileAt(states[i + 1], tid, false) && states[i + 1].workers[tid].pass.cutoff == cutoff
    ensures states[i + 1].workers[tid].pass.foundContainers == FoundContainers(states[i].world, states[i].now, cutoff)
    ensures cutoff <= states[i].now - c.grace
  {
    assert StepAt(c, states, steps, i);
  }

  lemma ListedThen(c: Config, states: seq<State>, steps: seq<Step>, m: nat, tid: TaskId)
    requires Run(c, states, steps) && m < |steps| && steps[m] == ListNetworks(tid)
    ensures ReconcileAt(states[m], tid, false) && ReconcileAt(states[m + 1], tid, true)
    ensures states[m + 1].workers[tid].pass.foundNetworks ==
            FoundNetworks(states[m].world, states[m].now, states[m].workers[tid].pass.cutoff)
  {
    assert StepAt(c, states, steps, m);
  }

  /** A container that was listed is still to be visited, or has been. */
  lemma {:induction false} ContainerFollowed(c: Config, states: seq<State>, steps: seq<Step>, i: nat, j: nat, tid: TaskId,
                                             cutoff: Time, rid: ResId)
    requires Run(c, states, steps) && PassSpan(states, steps, i, j, tid, cutoff)
    requires rid in FoundContainers(states[i].world, states[i].now, cutoff)
    ensures rid in states[j].workers[tid].pass.foundContainers || VisitedBetween(states, steps, i, j, tid, rid)
  {
    if j == i + 1 {
      ListedFirst(c, states, steps, i, tid, cutoff);
    } else {
      ContainerFollowed(c, states, steps, i, j - 1, tid, cutoff, rid);
      if VisitedBetween(states, steps, i, j - 1, tid, rid) {
        var k :| i < k < j - 1 && VisitedAt(states, steps, k, tid, rid);
        assert VisitedAt(states, steps, k, tid, rid);
      } else {
        PassMovesNext(c, states, steps, i, j, tid, cutoff, j - 1);
        assert VisitedAt(states, steps, j - 1, tid, rid) || rid in states[j].workers[tid].pass.foundContainers;
      }
    }
  }

  lemma {:induction false} NetworkFollowed(c: Config, states: seq<State>, steps: seq<Step>, i: nat, m: nat, j: nat,
                                           tid: TaskId, cutoff: Time, rid: ResId)
    requires Run(c, states, steps) && PassSpan(states, steps, i, j, tid, cutoff)
    requires i < m < j && steps[m] == ListNetworks(tid) && states[m].workers[tid].pass.cutoff == cutoff
    requires rid in FoundNetworks(states[m].world, states[m].now, cutoff)
    ensures states[j].workers[tid].pass.listed
    ensures rid in states[j].workers[tid].pass.foundNetworks || VisitedBetween(states, steps, i, j, tid, rid)
  {
    if j == m + 1 {
      ListedThen(c, states, steps, m, tid);
    } else {
      NetworkFollowed(c, states, steps, i, m, j - 1, tid, cutoff, rid);
      PassMovesNext(c, states, steps, i, j, tid, cutoff, j - 1);
      if VisitedBetween(states, steps, i, j - 1, tid, rid) {
        var k :| i < k < j - 1 && VisitedAt(states, steps, k, tid, rid);
        assert VisitedAt(states, steps, k, tid, rid);
      } else {
        assert VisitedAt(states, steps, j - 1, tid, rid) || rid in states[j].workers[tid].pass.foundNetworks;
      }
    }
  }

  /** A pass that has listed the networks did so at some step, with the cutoff it began with. */
  lemma {:induction false} WhenListed(c: Config, states: seq<State>, steps: seq<Step>, i: nat, j: nat, tid: TaskId, cutoff: Time)
    returns (m: nat)
    requires Run(c, states, steps) && PassSpan(states, steps, i, j, tid, cutoff)
    ensures states[j].workers[tid].pass.cutoff == cutoff
    ensures states[j].workers[tid].pass.listed ==>
              i < m < j && steps[m] == ListNetworks(tid) && states[m].workers[tid].pass.cutoff == cutoff
  {
    m := 0;
    if j == i + 1 {
      ListedFirst(c, states, steps, i, tid, cutoff);
    } else {
      m := WhenListed(c, states, steps, i, j - 1, tid, cutoff);
      PassMovesNext(c, states, steps, i, j, tid, cutoff, j - 1);
      if !states[j - 1].workers[tid].pass.listed {
        m := j - 1;
      }
    }
  }

  // ---- What is still there was there ---------------------------------------

  /** Resources come with ids never used before, those of environments stamped with the clock, and nothing returns. */
  predicate OnlyBirths(s: State, s': State) {
    && s.now <= s'.now
    && (forall rid :: rid in s'.born && rid !in s.born && s'.born[rid].tag.Some? && s'.born[rid].tag.value.Uuid? ==>
          s'.born[rid].at == Some(s.now))
    && (forall rid :: rid in s'.world.containers && rid in s.born ==> rid in s.world.containers)
    && (forall rid :: rid in s'.world.networks && rid in s.born ==> rid in s.world.networks)
  }

  lemma PassingBirths(c: Config, s: State, step: Step)
    requires Enabled(c, s, step) && Passing(step)
    ensures OnlyBirths(s, Apply(c, s, step))
  {
    if step.Unwind? {
      UnwindBirths(s, step.tid);
    }
  }

  lemma UnwindBirths(s: State, tid: TaskId)
    requires IsTask(s, tid) && (PhaseOf(s.workers[tid]).Marked? || PhaseOf(s.workers[tid]).Raised?)
    ensures OnlyBirths(s, DoUnwind(s, tid))
  {
  }

  lemma ApiBirths(c: Config, s: State, step: Step)
    requires Enabled(c, s, step) && ApiOrForeign(step)
    ensures OnlyBirths(s, Apply(c, s, step))
  {
  }

  lemma SweepBirths(c: Config, s: State, step: Step)
    requires Enabled(c, s, step) && BySweep(step)
    ensures OnlyBirths(s, Apply(c, s, step))
  {
  }

  lemma TaskBirths(c: Config, s: State, step: Step)
    requires Enabled(c, s, step) && !Passing(step) && !ApiOrForeign(step) && !BySweep(step)
    ensures OnlyBirths(s, Apply(c, s, step))
  {
  }

  lemma BirthsNext(c: Config, states: seq<State>, steps: seq<Step>, i: nat)
    requires Run(c, states, steps) && i < |steps|
    ensures OnlyBirths(states[i], states[i + 1])
  {
    assert StepAt(c, states, steps, i);
    BirthsStep(c, states[i], steps[i]);
  }

  lemma BirthsStep(c: Config, s: State, step: Step)
    requires Enabled(c, s, step)
    ensures OnlyBirths(s, Apply(c, s, step))
  {
    if Passing(step) {
      PassingBirths(c, s, step);
    } else if ApiOrForeign(step) {
      ApiBirths(c, s, step);
    } else if BySweep(step) {
      SweepBirths(c, s, step);
    } else {
      TaskBirths(c, s, step);
    }
  }

  /** An environment's resource that is older than state i was there at state i. */
  lemma {:induction false} WasThere(c: Config, states: seq<State>, steps: seq<Step>, i: nat, j: nat, rid: ResId)
    requires Run(c, states, steps) && i <= j < |states|
    requires rid in states[j].born && states[j].born[rid].tag.Some? && states[j].born[rid].tag.value.Uuid?
    requires states[j].born[rid].at.Some? && states[j].born[rid].at.value < states[i].now
    ensures rid in states[i].born && states[i].now <= states[j].now
    ensures rid in states[j].world.containers ==> rid in states[i].world.containers
    ensures rid in states[j].world.networks ==> rid in states[i].world.networks
    decreases j - i
  {
    if i < j {
      LaterNow(c, states, steps, i, j - 1);
      BirthsNext(c, states, steps, j - 1);
      HistoryKeptNext(c, states, steps, j - 1);
      WasThere(c, states, steps, i, j - 1, rid);
    }
  }

  lemma {:induction false} LaterNow(c: Config, states: seq<State>, steps: seq<Step>, i: nat, j: nat)
    requires Run(c, states, steps) && i <= j < |states|
    ensures states[i].now <= states[j].now
    decreases j - i
  {
    if i < j {
      LaterNow(c, states, steps, i, j - 1);
      BirthsNext(c, states, steps, j - 1);
    }
  }

  /**
   * No untraceable leak, to the end: a pass that has nothing left to visit has visited everything of any
   * environment's that is still there and was old enough when it began, and each resource entered its queue at
   * that visit exactly if its own row was terminal, or gone, at that moment.
   */
  lemma AgedIsAskedFor(c: Config, states: seq<State>, steps: seq<Step>, i: nat, j: nat, tid: TaskId, cutoff: Time, rid: ResId)
    requires Run(c, states, steps) && PassSpan(states, steps, i, j, tid, cutoff) && Finished(states[j], tid) && c.grace > 0
    requires Present(states[j].world, rid) && BornBy(states[j], rid, cutoff)
    requires states[j].born[rid].tag.Some? && states[j].born[rid].tag.value.Uuid?
    ensures VisitedBetween(states, steps, i, j, tid, rid)
  {
    InvAt(c, states, steps, j);
    assert BirthOk(states[j], states[j].born[rid]);
    ListedFirst(c, states, steps, i, tid, cutoff);
    var m := WhenListed(c, states, steps, i, j, tid, cutoff);
    if rid in states[j].world.containers {
      WasThere(c, states, steps, i, j, rid);
      HistoryKeptInRun(c, states, steps, i, j, rid);
      InvAt(c, states, steps, i);
      ContainerFollowed(c, states, steps, i, j, tid, cutoff, rid);
    } else {
      LaterNow(c, states, steps, i, m);
      WasThere(c, states, steps, m, j, rid);
      HistoryKeptInRun(c, states, steps, m, j, rid);
      InvAt(c, states, steps, m);
      NetworkFollowed(c, states, steps, i, m, j, tid, cutoff, rid);
    }
  }

  // ---- A pass by itself ----------------------------------------------------

  /** The container is a grace period old, and its own row is terminal or gone. */
  predicate Overdue(c: Config, s: State, rid: ResId) {
    && rid in FoundContainers(s.world, s.now, Cutoff(c, s.now))
    && Sweepable(s.rows, s.world.containers[rid].tag.value)
  }

  predicate OwnStep(step: Step, tid: TaskId) {
    (step.ListNetworks? || step.CheckLabel? || step.RemoveNext?) && step.tid == tid
  }

  /** A pass that begins at s and meets nobody. */
  ghost predicate PassRun(c: Config, s: State, tid: TaskId, states: seq<State>, steps: seq<Step>) {
    && |states| == |steps| + 1 && steps != [] && states[0] == s
    && steps[0].ListContainers? && steps[0].tid == tid
    && (forall k :: 1 <= k < |steps| ==> OwnStep(steps[k], tid))
    && (forall k :: 0 <= k < |steps| ==> StepAt(c, states, steps, k))
  }

  ghost predicate PassReaches(c: Config, s: State, tid: TaskId, s': State) {
    exists states: seq<State>, steps: seq<Step> :: PassRun(c, s, tid, states, steps) && states[|steps|] == s'
  }

  /** Some pass that begins at s takes the container away. */
  ghost predicate Removable(c: Config, s: State, tid: TaskId, rid: ResId) {
    exists s' :: PassReaches(c, s, tid, s') && rid !in s'.world.containers
  }

  /** The network is a grace period old, its own row is terminal or gone, and all that is attached to it is overdue. */
  predicate OverdueNetwork(c: Config, s: State, nid: ResId) {
    Aged(c, s, nid) && forall k :: k in Attached(s.world, nid) ==> Overdue(c, s, k)
  }

  predicate Aged(c: Config, s: State, nid: ResId) {
    && nid in FoundNetworks(s.world, s.now, Cutoff(c, s.now))
    && Sweepable(s.rows, s.world.networks[nid].tag.value)
  }

  /** Some pass that begins at s takes the network away. */
  ghost predicate RemovableNetwork(c: Config, s: State, tid: TaskId, nid: ResId) {
    exists s' :: PassReaches(c, s, tid, s') && nid !in s'.world.networks
  }

  lemma PassBegins(c: Config, s: State, tid: TaskId, cutoff: Time, s': State)
    requires StepOf(c, s, ListContainers(tid, cutoff), s')
    ensures PassReaches(c, s, tid, s')
  {
    var states, steps := [s, s'], [ListContainers(tid, cutoff)];
    assert StepAt(c, states, steps, 0);
    assert PassRun(c, s, tid, states, steps) && states[|steps|] == s';
  }

  lemma PassGoesOn(c: Config, s: State, tid: TaskId, s1: State, step: Step, s2: State)
    requires PassReaches(c, s, tid, s1) && OwnStep(step, tid) && StepOf(c, s1, step, s2)
    ensures PassReaches(c, s, tid, s2)
  {
    var states: seq<State>, steps: seq<Step> :| PassRun(c, s, tid, states, steps) && states[|steps|] == s1;
    var states', steps' := states + [s2], steps + [step];
    forall k | 0 <= k < |steps'|
      ensures StepAt(c, states', steps', k)
    {
      assert k < |steps| ==> StepAt(c, states, steps, k);
    }
    assert PassRun(c, s, tid, states', steps') && states'[|steps'|] == s2;
  }

  lemma {:induction false} InSomeOrder(s: set<ResId>) returns (xs: seq<ResId>)
    ensures ToSet(xs) == s
  {
    if s == {} {
      xs := [];
    } else {
      var x :| x in s;
      xs := InSomeOrder(s - {x});
      InFront(x, xs);
      xs := [x] + xs;
    }
  }

  lemma InFront(x: ResId, xs: seq<ResId>)
    ensures ToSet([x] + xs) == {x} + ToSet(xs)
  {
    assert forall y :: y in [x] + xs <==> y == x || y in xs;
  }

  /** The state of a pass that has listed everything. */
  function Listed(s: State, tid: TaskId, cutoff: Time): State {
    SetWorker(s, tid, Reconcile(Pass(cutoff, true, FoundContainers(s.world, s.now, cutoff),
                                     FoundNetworks(s.world, s.now, cutoff), NotUuid(""), NOTHING)))
  }

  lemma ListsAll(c: Config, s: State, tid: TaskId, cutoff: Time) returns (s1: State, s2: State)
    requires tid !in s.workers && cutoff <= s.now - c.grace
    ensures StepOf(c, s, ListContainers(tid, cutoff), s1) && StepOf(c, s1, ListNetworks(tid), s2)
    ensures s2 == Listed(s, tid, cutoff)
  {
    s1 := Apply(c, s, ListContainers(tid, cutoff));
    s2 := Listed(s, tid, cutoff);
  }

  /**
   * The grace period is what protects an attempt: once a container is that old and its row is terminal, or gone,
   * a pass can take it away in four steps, no matter which attempt is still at work on it.
   */
  lemma OverdueCanBeSwept(c: Config, s: State, tid: TaskId, rid: ResId)
    returns (s1: State, s2: State, s3: State, check: Step, s4: State)
    requires BirthsOk(s) && tid !in s.workers && Overdue(c, s, rid)
    ensures StepOf(c, s, ListContainers(tid, Cutoff(c, s.now)), s1) && StepOf(c, s1, ListNetworks(tid), s2)
    ensures check.CheckLabel? && check.tid == tid && StepOf(c, s2, check, s3) && StepOf(c, s3, RemoveNext(tid, true), s4)
    ensures rid in s3.world.containers && rid !in s4.world.containers
    ensures Live(s, rid) ==> Live(s3, rid)
  {
    var cutoff, tag := Cutoff(c, s.now), s.world.containers[rid].tag.value;
    s1, s2 := ListsAll(c, s, tid, cutoff);
    var p := s2.workers[tid].pass;
    assert rid in Labelled(s2, p.foundContainers, tag);
    var cids := InSomeOrder(Labelled(s2, p.foundContainers, tag) - {rid});
    InFront(rid, cids);
    cids := [rid] + cids;
    assert ToSet(cids) == Labelled(s2, p.foundContainers, tag);
    var nids := InSomeOrder(Labelled(s2, p.foundNetworks, tag));
    Checks(c, s2, tid, tag, cids, nids);
    check := CheckLabel(tid, tag, cids, nids);
    s3 := DoCheckLabel(s2, tid, tag, cids, nids);
    s4 := DoRemoveNext(s3, tid, true);
    Removes(c, s3, tid, rid);
    StaysLive(s, s3, tid, rid);
  }

  lemma Checks(c: Config, s: State, tid: TaskId, tag: Label, cids: seq<ResId>, nids: seq<ResId>)
    requires ReconcileAt(s, tid, true) && s.workers[tid].pass.queue == NOTHING && Sweepable(s.rows, tag)
    requires cids != [] || nids != []
    requires ToSet(cids) == Labelled(s, s.workers[tid].pass.foundContainers, tag)
    requires ToSet(nids) == Labelled(s, s.workers[tid].pass.foundNetworks, tag)
    ensures var s' := DoCheckLabel(s, tid, tag, cids, nids);
            && StepOf(c, s, CheckLabel(tid, tag, cids, nids), s')
            && s'.world == s.world && ReconcileAt(s', tid, true) && s'.workers[tid].pass.queue == Queue(cids, nids)
  {
  }

  lemma Removes(c: Config, s: State, tid: TaskId, rid: ResId)
    requires ReconcileAt(s, tid, true)
    requires s.workers[tid].pass.queue.containers != [] && s.workers[tid].pass.queue.containers[0] == rid
    ensures StepOf(c, s, RemoveNext(tid, true), DoRemoveNext(s, tid, true))
    ensures rid !in DoRemoveNext(s, tid, true).world.containers
  {
  }

  lemma StaysLive(s: State, s': State, tid: TaskId, rid: ResId)
    requires tid !in s.workers && s'.rows == s.rows && forall t :: t in s.workers ==> t in s'.workers && s'.workers[t] == s.workers[t]
    ensures Live(s, rid) ==> Live(s', rid)
  {
  }

  /** All that a pass by itself knows, or has taken, was overdue when it began. */
  predicate OnlyOverdue(c: Config, s: State, s': State, tid: TaskId) {
    && s'.now == s.now && s'.rows == s.rows && s'.born == s.born && ReconcilesIn(s', tid)
    && (forall rid :: rid in s'.workers[tid].pass.foundContainers ==> rid in FoundContainers(s.world, s.now, Cutoff(c, s.now)))
    && (forall rid :: rid in s'.workers[tid].pass.queue.containers ==> Overdue(c, s, rid))
    && (forall rid :: rid in s.world.containers ==> rid in s'.world.containers || Overdue(c, s, rid))
  }

  /** And likewise for networks. */
  predicate OnlyOverdueNetworks(c: Config, s: State, s': State, tid: TaskId) {
    && ReconcilesIn(s', tid) && Sub(s'.world, s.world) && s'.workers[tid].pass.cutoff <= Cutoff(c, s.now)
    && (forall nid :: nid in s'.workers[tid].pass.foundNetworks ==> nid in FoundNetworks(s.world, s.now, Cutoff(c, s.now)))
    && (forall nid :: nid in s'.workers[tid].pass.queue.networks ==> Aged(c, s, nid))
    && (forall nid :: nid in s.world.networks ==> nid in s'.world.networks || OverdueNetwork(c, s, nid))
  }

  predicate ReconcilesIn(s: State, tid: TaskId) {
    tid in s.workers && s.workers[tid].Reconcile?
  }

  lemma BeginsOverdue(c: Config, s: State, step: Step)
    requires Enabled(c, s, step) && step.ListContainers?
    ensures OnlyOverdue(c, s, Apply(c, s, step), step.tid) && OnlyOverdueNetworks(c, s, Apply(c, s, step), step.tid)
  {
  }

  lemma StaysOverdue(c: Config, s: State, s': State, step: Step, tid: TaskId)
    requires BirthsOk(s) && OwnStep(step, tid) && OnlyOverdue(c, s, s', tid) && Enabled(c, s', step)
    ensures OnlyOverdue(c, s, Apply(c, s', step), tid)
  {
    if step.CheckLabel? {
      assert forall rid :: rid in step.cids ==> rid in ToSet(step.cids);
    }
  }

  lemma NetworksStayOverdue(c: Config, s: State, s': State, step: Step, tid: TaskId)
    requires BirthsOk(s) && OwnStep(step, tid) && Enabled(c, s', step)
    requires OnlyOverdue(c, s, s', tid) && OnlyOverdueNetworks(c, s, s', tid)
    ensures OnlyOverdueNetworks(c, s, Apply(c, s', step), tid)
  {
    if step.CheckLabel? {
      CheckedNetworks(c, s, s', step);
    } else if step.RemoveNext? {
      RemovedNetworks(c, s, s', tid, step.obeyed);
    }
  }

  lemma CheckedNetworks(c: Config, s: State, s': State, step: Step)
    requires BirthsOk(s) && Enabled(c, s', step) && step.CheckLabel?
    requires OnlyOverdue(c, s, s', step.tid) && OnlyOverdueNetworks(c, s, s', step.tid)
    ensures OnlyOverdueNetworks(c, s, Apply(c, s', step), step.tid)
  {
    assert forall nid :: nid in step.nids ==> nid in ToSet(step.nids);
  }

  /** A network goes only once nothing is attached, so all that was attached had gone before it. */
  lemma RemovedNetworks(c: Config, s: State, s': State, tid: TaskId, obeyed: bool)
    requires OnlyOverdue(c, s, s', tid) && OnlyOverdueNetworks(c, s, s', tid)
    requires QueueOf(s'.workers[tid]) != NOTHING
    ensures OnlyOverdueNetworks(c, s, DoRemoveNext(s', tid, obeyed), tid)
  {
    var u, q := DoRemoveNext(s', tid, obeyed), QueueOf(s'.workers[tid]);
    forall nid | nid in s.world.networks && nid !in u.world.networks && nid in s'.world.networks
      ensures OverdueNetwork(c, s, nid)
    {
      assert nid == q.networks[0] && Attached(s'.world, nid) == {};
      forall k | k in Attached(s.world, nid)
        ensures Overdue(c, s, k)
      {
        assert k !in Attached(s'.world, nid);
      }
    }
  }

  lemma {:induction false} PassTakesOverdue(c: Config, s: State, tid: TaskId, states: seq<State>, steps: seq<Step>, k: nat)
    requires BirthsOk(s) && PassRun(c, s, tid, states, steps) && 0 < k <= |steps|
    ensures OnlyOverdue(c, s, states[k], tid) && OnlyOverdueNetworks(c, s, states[k], tid)
  {
    assert StepAt(c, states, steps, k - 1);
    if k == 1 {
      BeginsOverdue(c, s, steps[0]);
    } else {
      PassTakesOverdue(c, s, tid, states, steps, k - 1);
      StaysOverdue(c, s, states[k - 1], steps[k - 1], tid);
      NetworksStayOverdue(c, s, states[k - 1], steps[k - 1], tid);
    }
  }

  lemma TakesOnlyOverdue(c: Config, s: State, tid: TaskId, s': State)
    requires BirthsOk(s) && PassReaches(c, s, tid, s')
    ensures OnlyOverdue(c, s, s', tid) && OnlyOverdueNetworks(c, s, s', tid)
  {
    var states: seq<State>, steps: seq<Step> :| PassRun(c, s, tid, states, steps) && states[|steps|] == s';
    PassTakesOverdue(c, s, tid, states, steps, |steps|);
  }

  /** A pass by itself can take a container away exactly if it is overdue, be there an attempt at work on it or not. */
  lemma RemovableExactly(c: Config, s: State, tid: TaskId, rid: ResId)
    requires BirthsOk(s) && tid !in s.workers && rid in s.world.containers
    ensures Removable(c, s, tid, rid) <==> Overdue(c, s, rid)
  {
    if Removable(c, s, tid, rid) {
      var s' :| PassReaches(c, s, tid, s') && rid !in s'.world.containers;
      TakesOnlyOverdue(c, s, tid, s');
    }
    if Overdue(c, s, rid) {
      var s1, s2, s3, check, s4 := OverdueCanBeSwept(c, s, tid, rid);
      PassBegins(c, s, tid, Cutoff(c, s.now), s1);
      PassGoesOn(c, s, tid, s1, ListNetworks(tid), s2);
      PassGoesOn(c, s, tid, s2, check, s3);
      PassGoesOn(c, s, tid, s3, RemoveNext(tid, true), s4);
    }
  }

  /** And a network exactly if it is aged, and every container on it is overdue. */
  lemma NetworkRemovableExactly(c: Config, s: State, tid: TaskId, nid: ResId)
    requires BirthsOk(s) && OwnNetworksOnly(s.world) && tid !in s.workers && nid in s.world.networks
    ensures RemovableNetwork(c, s, tid, nid) <==> OverdueNetwork(c, s, nid)
  {
    if RemovableNetwork(c, s, tid, nid) {
      var s' :| PassReaches(c, s, tid, s') && nid !in s'.world.networks;
      TakesOnlyOverdue(c, s, tid, s');
    }
    if OverdueNetwork(c, s, nid) {
      var s3 := NetworkQueued(c, s, tid, nid);
      var s4 := Drained(c, s, tid, s3);
      var s5 := DoRemoveNext(s4, tid, true);
      NetworkGoes(c, s, s4, tid, nid);
      PassGoesOn(c, s, tid, s4, RemoveNext(tid, true), s5);
    }
  }

  /** The pass has listed, and visits the network's label; the network is the first it queues. */
  lemma NetworkQueued(c: Config, s: State, tid: TaskId, nid: ResId) returns (s3: State)
    requires BirthsOk(s) && OwnNetworksOnly(s.world) && tid !in s.workers && OverdueNetwork(c, s, nid)
    ensures PassReaches(c, s, tid, s3) && ReconcileAt(s3, tid, true) && s3.world == s.world
    ensures var q := s3.workers[tid].pass.queue;
            Attached(s.world, nid) <= ToSet(q.containers) && q.networks != [] && q.networks[0] == nid
  {
    var cutoff, tag := Cutoff(c, s.now), s.world.networks[nid].tag.value;
    var s1, s2 := ListsAll(c, s, tid, cutoff);
    PassBegins(c, s, tid, cutoff, s1);
    PassGoesOn(c, s, tid, s1, ListNetworks(tid), s2);
    var p := s2.workers[tid].pass;
    assert nid in Labelled(s2, p.foundNetworks, tag);
    var nids := InSomeOrder(Labelled(s2, p.foundNetworks, tag) - {nid});
    InFront(nid, nids);
    nids := [nid] + nids;
    assert ToSet(nids) == Labelled(s2, p.foundNetworks, tag);
    var cids := InSomeOrder(Labelled(s2, p.foundContainers, tag));
    Checks(c, s2, tid, tag, cids, nids);
    s3 := DoCheckLabel(s2, tid, tag, cids, nids);
    PassGoesOn(c, s, tid, s2, CheckLabel(tid, tag, cids, nids), s3);
    AttachedFound(c, s, nid);
  }

  /** What is attached to an overdue network was found under the network's own label. */
  lemma AttachedFound(c: Config, s: State, nid: ResId)
    requires BirthsOk(s) && OwnNetworksOnly(s.world) && OverdueNetwork(c, s, nid)
    ensures Attached(s.world, nid) <=
            Labelled(s, FoundContainers(s.world, s.now, Cutoff(c, s.now)), s.world.networks[nid].tag.value)
  {
    forall k | k in Attached(s.world, nid)
      ensures k in Labelled(s, FoundContainers(s.world, s.now, Cutoff(c, s.now)), s.world.networks[nid].tag.value)
    {
      assert Overdue(c, s, k) && s.world.containers[k].tag == s.world.networks[nid].tag;
    }
  }

  /** All the queued containers go. */
  lemma {:induction false} Drained(c: Config, s: State, tid: TaskId, s': State) returns (u: State)
    requires PassReaches(c, s, tid, s') && ReconcileAt(s', tid, true)
    ensures PassReaches(c, s, tid, u) && ReconcileAt(u, tid, true)
    ensures u.workers[tid].pass.queue == Queue([], s'.workers[tid].pass.queue.networks)
    ensures u.world == s'.world.(containers := s'.world.containers - ToSet(s'.workers[tid].pass.queue.containers))
    decreases |s'.workers[tid].pass.queue.containers|
  {
    var q := s'.workers[tid].pass.queue;
    if q.containers == [] {
      u := s';
      assert s'.world.containers - ToSet(q.containers) == s'.world.containers;
    } else {
      var v := DoRemoveNext(s', tid, true);
      OneDrained(c, s', tid);
      PassGoesOn(c, s, tid, s', RemoveNext(tid, true), v);
      u := Drained(c, s, tid, v);
      InFront(q.containers[0], q.containers[1..]);
      assert q.containers == [q.containers[0]] + q.containers[1..];
      assert u.world.containers == s'.world.containers - ToSet(q.containers);
    }
  }

  lemma OneDrained(c: Config, s: State, tid: TaskId)
    requires ReconcileAt(s, tid, true) && s.workers[tid].pass.queue.containers != []
    ensures var v, q := DoRemoveNext(s, tid, true), s.workers[tid].pass.queue;
            && StepOf(c, s, RemoveNext(tid, true), v) && ReconcileAt(v, tid, true)
            && v.workers[tid].pass.queue == Queue(q.containers[1..], q.networks)
            && v.world == s.world.(containers := s.world.containers - {q.containers[0]})
  {
  }

  lemma NetworkGoes(c: Config, s: State, s4: State, tid: TaskId, nid: ResId)
    requires ReconcileAt(s4, tid, true) && s4.workers[tid].pass.queue.containers == []
    requires s4.workers[tid].pass.queue.networks != [] && s4.workers[tid].pass.queue.networks[0] == nid
    requires s4.world.networks == s.world.networks && Attached(s.world, nid) !! s4.world.containers.Keys
    requires forall k :: k in s4.world.containers ==> k in s.world.containers && s4.world.containers[k] == s.world.containers[k]
    ensures StepOf(c, s4, RemoveNext(tid, true), DoRemoveNext(s4, tid, true))
    ensures nid !in DoRemoveNext(s4, tid, true).world.networks
  {
    assert Attached(s4.world, nid) <= Attached(s.world, nid);
    assert Attached(s4.world, nid) <= s4.world.containers.Keys;
    assert Attached(s4.world, nid) == {};
  }
}

/** What single steps do, column by column and message by message. */
module Effects {
  import opened Lifecycle
  import opened Naming
  import opened Worlds
  import opened Protocol
  import opened Invariants
  import opened Safety
  import opened Pace

  // ---- Requests and deliveries ---------------------------------------------

  /** A create request queues a first provision of its row and holds the row back; its commit lets it in. */
  lemma CreateEffects(c: Config, s: State, env: EnvId, owner: string, name: string, template: string, ttl: nat)
    requires Enabled(c, s, CreateRequest(env, owner, name, template, ttl)) && env !in s.inserting
    ensures var s' := Apply(c, s, CreateRequest(env, owner, name, template, ttl));
            && s'.bag == s.bag + multiset{ProvisionMsg(env, 0)} && s'.rows == s.rows && env in s'.issued
            && env in s'.inserting && Enabled(c, s', CreateCommit(env)) && env in Apply(c, s', CreateCommit(env)).rows
            && var row := Apply(c, s', CreateCommit(env)).rows[env];
            && row == s'.inserting[env] && row.owner == owner && row.name == name && row.template == template
            && row.ttl == ttl && row.status == Pending && row.statusChangedAt == Some(s.now) && Recorded(row) == {}
  {
  }

  lemma DeleteEffects(c: Config, s: State, env: EnvId, owner: string)
    requires Enabled(c, s, DeleteRequest(env, owner))
    ensures Apply(c, s, DeleteRequest(env, owner)) == s.(bag := s.bag + multiset{TeardownMsg(env, 0)})
  {
  }

  /** A delivery starts the task the message names, with the message's retries, and takes it from the broker if acked. */
  lemma DeliverEffects(c: Config, s: State, tid: TaskId, msg: Message, acked: bool)
    requires Enabled(c, s, Deliver(tid, msg, acked))
    ensures var s' := Apply(c, s, Deliver(tid, msg, acked));
            && s'.bag == (if acked then s.bag - multiset{msg} else s.bag) && s'.rows == s.rows && s'.world == s.world
            && s'.workers.Keys == s.workers.Keys + {tid}
            && match msg
               case ProvisionMsg(env, retries) =>
                 && s'.workers[tid].Provision? && s'.workers[tid].attempt.env == env
                 && s'.workers[tid].attempt.retries == retries && s'.workers[tid].attempt.phase == Loading
               case TeardownMsg(env, retries) => s'.workers[tid] == Teardown(Removal(env, retries, Loading, Queue([], [])))
  {
  }

  // ---- Writes --------------------------------------------------------------

  /** The start of a provision, whatever the row's status: PROVISIONING, and the template's roles ahead. */
  lemma ProvisionStartEffects(c: Config, s: State, tid: TaskId)
    requires ProvisionAt(s, tid, Loading)
    ensures var s', env := DoProvisionLoad(c, s, tid), s.workers[tid].attempt.env;
            && tid in s'.workers && s'.workers[tid].Provision? && s'.workers[tid].attempt.env == env
            && if env in s.rows
               then s'.rows == s.rows[env := s.rows[env].(status := Provisioning, statusChangedAt := Some(s.now))]
                    && s'.workers[tid].attempt.phase == Working && s'.workers[tid].attempt.loadedAt == Some(s.now)
               else s'.rows == s.rows && s'.workers[tid].attempt.phase == Raised(true)
  {
  }

  /** The end of a provision: the row runs, records what the attempt made, and expires its ttl later. */
  lemma LaunchEffects(s: State, tid: TaskId, port: nat, raised: bool)
    requires ProvisionAt(s, tid, Working) && s.workers[tid].attempt.network.Some? && s.workers[tid].attempt.env in s.rows
    ensures var a := s.workers[tid].attempt;
            var r := s.rows[a.env];
            DoProvisionCommit(s, tid, port, raised).rows ==
              s.rows[a.env := r.(status := Running, statusChangedAt := Some(s.now), networkId := a.network,
                                 containerIds := a.containers, hostPort := Some(port), startedAt := Some(s.now),
                                 expiresAt := Some(s.now + r.ttl * 1_000_000))]
    ensures (tid in DoProvisionCommit(s, tid, port, raised).workers <==> raised)
  {
  }

  /** The start of a teardown, whatever the row's status: STOPPING, and all the row records ahead, containers first. */
  lemma TeardownStartEffects(s: State, tid: TaskId)
    requires TeardownAt(s, tid, Loading)
    ensures var s', env := DoTeardownLoad(s, tid), s.workers[tid].removal.env;
            && tid in s'.workers && s'.workers[tid].Teardown? && s'.workers[tid].removal.env == env
            && if env in s.rows
               then s'.rows == s.rows[env := s.rows[env].(status := Stopping, statusChangedAt := Some(s.now))]
                    && s'.workers[tid].removal.phase == Working
                    && s'.workers[tid].removal.queue.containers == s.rows[env].containerIds
                    && ToSet(s'.workers[tid].removal.queue.networks) ==
                       (if s.rows[env].networkId.Some? then {s.rows[env].networkId.value} else {})
               else s'.rows == s.rows && s'.workers[tid].removal.phase == Raised(true)
  {
  }

  lemma StopEffects(s: State, tid: TaskId)
    requires TeardownAt(s, tid, Working) && s.workers[tid].removal.env in s.rows
    ensures var s', env := DoTeardownCommit(s, tid), s.workers[tid].removal.env;
            && s'.rows == s.rows[env := s.rows[env].(status := Stopped, statusChangedAt := Some(s.now), stoppedAt := Some(s.now))]
            && s'.workers == s.workers - {tid}
  {
  }

  /** The marker fails the row as it is now, with the message cut at 500 characters, or nothing. */
  lemma MarkEffects(s: State, tid: TaskId, saved: bool, text: string)
    requires IsTask(s, tid) && PhaseOf(s.workers[tid]).Raised?
    ensures var s', env := DoMarkFailed(s, tid, saved, text), EnvOf(s.workers[tid]);
            s'.rows == if saved && env in s.rows
                       then s.rows[env := s.rows[env].(status := Failed, statusChangedAt := Some(s.now),
                                                       error := Some(Message(if |text| <= 500 then text else text[..500])))]
                       else s.rows
  {
  }

  // ---- Docker calls --------------------------------------------------------

  /** A network made is the attempt's, whether or not it hears of it. */
  lemma NetworkEffects(s: State, tid: TaskId, rid: ResId, answered: bool)
    requires ProvisionAt(s, tid, Working)
    ensures var s', a := DoProvisionNetwork(s, tid, rid, answered), s.workers[tid].attempt;
            && s'.world.networks == s.world.networks[rid := Network("env-" + Str(a.env), Some(Uuid(a.env, 0)), Some(s.now))]
            && s'.world.containers == s.world.containers && s'.rows == s.rows && s'.bag == s.bag
            && tid in s'.workers && s'.workers[tid].Provision? && s'.workers[tid].attempt.made == a.made + {rid}
            && (if answered then s'.workers[tid].attempt.phase == Working && s'.workers[tid].attempt.network == Some(rid)
                else s'.workers[tid].attempt.phase == Raised(false))
  {
  }

  /** So is a container, for the next role, on the attempt's network; one that is not started ends the attempt. */
  lemma ContainerEffects(s: State, tid: TaskId, rid: ResId, started: bool)
    requires ProvisionAt(s, tid, Working) && s.workers[tid].attempt.ready < |s.workers[tid].attempt.order|
    ensures var s', a := DoProvisionContainer(s, tid, rid, started), s.workers[tid].attempt;
            var role := a.order[a.ready].role;
            && s'.world.containers ==
               s.world.containers[rid := Container("env-" + Str(a.env) + "-" + role, Some(Uuid(a.env, 0)), role, a.network, Some(s.now))]
            && s'.world.networks == s.world.networks && s'.rows == s.rows && s'.bag == s.bag
            && tid in s'.workers && s'.workers[tid].Provision? && s'.workers[tid].attempt.made == a.made + {rid}
            && (if started then s'.workers[tid].attempt.phase == Working && s'.workers[tid].attempt.containers == a.containers + [rid]
                else s'.workers[tid].attempt.phase == Raised(false))
  {
  }

  /** One removal: the first queued container or, after those, the first queued network; a network in use stays. */
  lemma RemoveEffects(s: State, tid: TaskId, obeyed: bool)
    requires tid in s.workers && QueueOf(s.workers[tid]) != NOTHING
    ensures var s', q := DoRemoveNext(s, tid, obeyed), QueueOf(s.workers[tid]);
            && tid in s'.workers && s'.rows == s.rows && s'.bag == s.bag
            && if q.containers != []
               then s'.world.networks == s.world.networks && QueueOf(s'.workers[tid]) == Queue(q.containers[1..], q.networks)
                    && s'.world.containers == if obeyed then s.world.containers - {q.containers[0]} else s.world.containers
               else s'.world.containers == s.world.containers && QueueOf(s'.workers[tid]) == Queue([], q.networks[1..])
                    && s'.world.networks == if obeyed && forall k :: k in s.world.containers ==> s.world.containers[k].network != Some(q.networks[0])
                                            then s.world.networks - {q.networks[0]} else s.world.networks
  {
    var q := QueueOf(s.workers[tid]);
    if q.containers == [] {
      var n := q.networks[0];
      assert Attached(s.world, n) == {} <==> forall k :: k in s.world.containers ==> s.world.containers[k].network != Some(n) by {
        if k :| k in s.world.containers && s.world.containers[k].network == Some(n) {
          assert k in Attached(s.world, n);
        }
      }
    }
  }

  /** Whatever is going on, a worker may vanish, and a task that is loading or at work may fail. */
  lemma AnyoneCanVanish(c: Config, s: State, tid: TaskId, valueError: bool)
    requires tid in s.workers
    ensures Enabled(c, s, Leave(tid)) && Apply(c, s, Leave(tid)) == s.(workers := s.workers - {tid})
    ensures (s.workers[tid].Provision? && s.workers[tid].attempt.phase in {Loading, Working})
            || (s.workers[tid].Teardown? && s.workers[tid].removal.phase in {Loading, Working}) ==>
              Enabled(c, s, Raise(tid, valueError))
  {
  }

  /** A message may be lost, and delivered without being taken; a request's insert may fail, or not. */
  lemma MessagesGoAstray(c: Config, s: State, tid: TaskId, msg: Message, env: EnvId)
    requires tid !in s.workers
    ensures msg in s.bag ==> Enabled(c, s, Lose(msg)) && Apply(c, s, Lose(msg)) == s.(bag := s.bag - multiset{msg})
    ensures msg in s.bag ==> Enabled(c, s, Deliver(tid, msg, true)) && Enabled(c, s, Deliver(tid, msg, false))
    ensures env in s.inserting ==>
              && Enabled(c, s, CreateCommit(env)) && Enabled(c, s, CreateAbort(env))
              && Apply(c, s, CreateAbort(env)) == s.(inserting := s.inserting - {env})
  {
  }

  // ---- Whole stacks --------------------------------------------------------

  /** An attempt has at most one container beyond its ready roles, and never more than roles. */
  predicate InOrder(a: Attempt) {
    a.phase == Working ==> a.ready <= |a.containers| <= a.ready + 1 && |a.containers| <= |a.order|
                           && (a.network.Some? ==> a.order != [])
  }

  predicate AllInOrder(s: State) {
    forall t :: t in s.workers && s.workers[t].Provision? ==>
      InOrder(s.workers[t].attempt) && (s.workers[t].attempt.phase == Loading ==> Fresh(s.workers[t].attempt))
  }

  predicate Fresh(a: Attempt) {
    a.ready == 0 && a.containers == [] && a.network == None
  }

  lemma MoverInOrder(c: Config, s: State, step: Step)
    requires Enabled(c, s, step) && MovesAttempt(step) && AllInOrder(s)
    ensures var s' := Apply(c, s, step);
            step.tid in s'.workers && s'.workers[step.tid].Provision? ==>
              InOrder(s'.workers[step.tid].attempt)
              && (s'.workers[step.tid].attempt.phase == Loading ==> Fresh(s'.workers[step.tid].attempt))
  {
    if step.ProvisionCommit? || step.MarkFailed? || step.Raise? {
      UnwindingInOrder(c, s, step);
    } else if step.ProvisionLoad? {
      assert step.tid in s.workers;
    }
  }

  lemma UnwindingInOrder(c: Config, s: State, step: Step)
    requires Enabled(c, s, step) && (step.ProvisionCommit? || step.MarkFailed? || step.Raise?)
    ensures var s' := Apply(c, s, step);
            step.tid in s'.workers && s'.workers[step.tid].Provision? ==>
              s'.workers[step.tid].attempt.phase.Raised? || s'.workers[step.tid].attempt.phase.Marked?
  {
  }

  lemma InOrderStep(c: Config, s: State, step: Step)
    requires Enabled(c, s, step) && AllInOrder(s)
    ensures AllInOrder(Apply(c, s, step))
  {
    if MovesAttempt(step) {
      OneMoves(c, s, step);
      MoverInOrder(c, s, step);
    } else {
      AttemptsUntouched(c, s, step);
    }
  }

  lemma InOrderNext(c: Config, states: seq<State>, steps: seq<Step>, i: nat)
    requires Run(c, states, steps) && i < |steps| && AllInOrder(states[i])
    ensures AllInOrder(states[i + 1])
  {
    assert StepAt(c, states, steps, i);
    InOrderStep(c, states[i], steps[i]);
  }

  lemma {:induction false} InOrderInRun(c: Config, states: seq<State>, steps: seq<Step>, i: nat)
    requires Run(c, states, steps) && i < |states|
    ensures AllInOrder(states[i])
  {
    if i > 0 {
      InOrderInRun(c, states, steps, i - 1);
      InOrderNext(c, states, steps, i - 1);
    }
  }

  /** In every run a row comes to RUNNING only with a whole stack: one container for each role, and there are roles. */
  lemma RunsWithAllRoles(c: Config, states: seq<State>, steps: seq<Step>, i: nat)
    requires Run(c, states, steps) && i < |steps| && steps[i].ProvisionCommit?
    ensures steps[i].tid in states[i].workers && states[i].workers[steps[i].tid].Provision?
    ensures var a := states[i].workers[steps[i].tid].attempt;
            && a.env in states[i + 1].rows && states[i + 1].rows[a.env].status == Running
            && a.order != [] && |states[i + 1].rows[a.env].containerIds| == |a.order|
            && states[i + 1].rows[a.env].networkId.Some?
  {
    InOrderInRun(c, states, steps, i);
    assert StepAt(c, states, steps, i);
    LaunchEffects(states[i], steps[i].tid, steps[i].port, steps[i].raised);
  }
}

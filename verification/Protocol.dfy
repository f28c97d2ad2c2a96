/**
 * The whole service as one transition system: the API, the broker, the workers, the three sweeps, the daemon and
 * the clock. A worker is split at every commit and every Docker call, and may disappear between any two.
 */
module Protocol {
  import opened Lifecycle
  import opened Naming
  import opened Worlds
  import Templates

  datatype Message = ProvisionMsg(env: EnvId, retries: nat) | TeardownMsg(env: EnvId, retries: nat)

  const PROVISION_RETRIES := 3
  const TEARDOWN_RETRIES := 2

  /** Where a task is: before its first commit, at work, unwinding an exception, or unwound and recorded. */
  datatype Phase = Loading | Working | Raised(valueError: bool) | Marked(valueError: bool)

  /** What is left of one remove_resources call: containers first, then networks. */
  datatype Queue = Queue(containers: seq<ResId>, networks: seq<ResId>)

  const NOTHING := Queue([], [])

  /**
   * One attempt of provision_environment. `loadedAt` is when it committed PROVISIONING, `since` when what it is
   * doing now began; it starts the roles of `order`, of which `ready` are done; `made` is everything it has asked
   * Docker for, answered or not.
   */
  datatype Attempt = Attempt(
    env: EnvId, retries: nat, phase: Phase, loadedAt: Option<Time>, since: Time, order: Template, ready: nat,
    firstMade: Option<Time>, network: Option<ResId>, containers: seq<ResId>, made: set<ResId>)

  /** One attempt of teardown_environment. */
  datatype Removal = Removal(env: EnvId, retries: nat, phase: Phase, queue: Queue)

  /** One pass of reconcile_orphans; the found sets hold what it has still to visit. */
  datatype Pass = Pass(
    cutoff: Time, listed: bool, foundContainers: set<ResId>, foundNetworks: set<ResId>, visiting: Label, queue: Queue)

  datatype Worker =
    | Provision(attempt: Attempt)
    | Teardown(removal: Removal)
    | Reap(claimed: seq<EnvId>)
    | Reconcile(pass: Pass)

  type TaskId = nat

  /** What is known for ever about a resource, also after it is gone. */
  datatype Birth = Birth(tag: Option<Label>, at: Option<Time>)

  /**
   * `inserting` holds rows of create requests that have enqueued but not committed. The rest is history: ids ever
   * `issued`, resources ever `born`, the owner of every write that `revived` a terminal row, and the owner of every
   * create that was `raced`: its guards no longer held when it committed.
   */
  datatype State = State(
    now: Time, rows: Table, inserting: Table, issued: set<EnvId>, world: World, born: map<ResId, Birth>,
    bag: multiset<Message>, workers: map<TaskId, Worker>, revived: multiset<string>, raced: multiset<string>)

  datatype Step =
    | Tick(dt: nat)
    | ForeignContainer(rid: ResId, container: Container)
    | ForeignNetwork(rid: ResId, network: Network)
    | CreateRequest(env: EnvId, owner: string, name: string, template: string, ttl: nat)
    | CreateCommit(env: EnvId)
    | CreateAbort(env: EnvId)
    | DeleteRequest(env: EnvId, owner: string)
    | Lose(msg: Message)
    | Deliver(tid: TaskId, msg: Message, acked: bool)
    | Leave(tid: TaskId)
    | ProvisionLoad(tid: TaskId)
    | ProvisionNetwork(tid: TaskId, rid: ResId, answered: bool)
    | ProvisionContainer(tid: TaskId, rid: ResId, started: bool)
    | RoleReady(tid: TaskId)
    | ProvisionCommit(tid: TaskId, port: nat, raised: bool)
    | TeardownLoad(tid: TaskId)
    | TeardownCommit(tid: TaskId)
    | Raise(tid: TaskId, valueError: bool)
    | MarkFailed(tid: TaskId, saved: bool, text: string)
    | Unwind(tid: TaskId)
    | RemoveNext(tid: TaskId, obeyed: bool)
    | ReapClaim(tid: TaskId, order: seq<EnvId>)
    | ReapSend(tid: TaskId)
    | Recover
    | ListContainers(tid: TaskId, cutoff: Time)
    | ListNetworks(tid: TaskId)
    | CheckLabel(tid: TaskId, tag: Label, cids: seq<ResId>, nids: seq<ResId>)

  predicate Init(s: State) {
    && s.rows == map[] && s.inserting == map[] && s.issued == {}
    && s.world == World(map[], map[]) && s.born == map[]
    && s.bag == multiset{} && s.workers == map[] && s.revived == multiset{} && s.raced == multiset{}
  }

  /** The containers, or networks, of one label among those a reconcile pass has still to visit. */
  function Labelled(s: State, ids: set<ResId>, tag: Label): set<ResId> {
    set id | id in ids && id in s.born && s.born[id].tag == Some(tag)
  }

  predicate IsTask(s: State, tid: TaskId) {
    tid in s.workers && (s.workers[tid].Provision? || s.workers[tid].Teardown?)
  }

  function PhaseOf(w: Worker): Phase
    requires w.Provision? || w.Teardown?
  {
    if w.Provision? then w.attempt.phase else w.removal.phase
  }

  function WithPhase(w: Worker, phase: Phase): Worker
    requires w.Provision? || w.Teardown?
  {
    if w.Provision? then Provision(w.attempt.(phase := phase)) else Teardown(w.removal.(phase := phase))
  }

  function QueueOf(w: Worker): Queue {
    match w
    case Teardown(r) => r.queue
    case Reconcile(p) => p.queue
    case _ => NOTHING
  }

  /** An exception; for a provision, the clock of its clean-up starts. */
  function Raising(w: Worker, valueError: bool, now: Time): Worker
    requires w.Provision? || w.Teardown?
  {
    if w.Provision? then Provision(w.attempt.(phase := Raised(valueError), since := now))
    else Teardown(w.removal.(phase := Raised(valueError)))
  }

  function WithQueue(w: Worker, queue: Queue): Worker {
    match w
    case Teardown(r) => Teardown(r.(queue := queue))
    case Reconcile(p) => Reconcile(p.(queue := queue))
    case _ => w
  }

  predicate ProvisionAt(s: State, tid: TaskId, phase: Phase) {
    tid in s.workers && s.workers[tid].Provision? && s.workers[tid].attempt.phase == phase
  }

  predicate TeardownAt(s: State, tid: TaskId, phase: Phase) {
    tid in s.workers && s.workers[tid].Teardown? && s.workers[tid].removal.phase == phase
  }

  predicate ReconcileAt(s: State, tid: TaskId, listed: bool) {
    tid in s.workers && s.workers[tid].Reconcile? && s.workers[tid].pass.listed == listed
  }

  predicate Enabled(c: Config, s: State, step: Step) {
    match step
    case Tick(dt) => true
    // Operators may run their own containers, on their own networks, under labels that are not UUIDs.
    case ForeignContainer(rid, k) =>
      && rid !in s.born && !(k.tag.Some? && k.tag.value.Uuid?)
      && (k.createdAt.Some? ==> k.createdAt.value <= s.now)
      && (k.network.Some? ==> k.network.value in s.world.networks && s.world.networks[k.network.value].tag == k.tag)
    case ForeignNetwork(rid, n) =>
      && rid !in s.born && !(n.tag.Some? && n.tag.value.Uuid?)
      && (n.createdAt.Some? ==> n.createdAt.value <= s.now)
      && Attached(s.world, rid) == {}
    case CreateRequest(env, owner, name, template, ttl) => env !in s.issued && CreateAllowed(c, s.rows, owner, name)
    case CreateCommit(env) => env in s.inserting
    case CreateAbort(env) => env in s.inserting
    case DeleteRequest(env, owner) =>
      env in s.rows && s.rows[env].owner == owner && s.rows[env].status !in {Stopped, Stopping}
    case Lose(msg) => msg in s.bag
    case Deliver(tid, msg, acked) => msg in s.bag && tid !in s.workers
    case Leave(tid) => tid in s.workers
    case ProvisionLoad(tid) => ProvisionAt(s, tid, Loading)
    case ProvisionNetwork(tid, rid, answered) =>
      && ProvisionAt(s, tid, Working) && s.workers[tid].attempt.network == None && s.workers[tid].attempt.order != []
      && rid !in s.born && Attached(s.world, rid) == {}
    case ProvisionContainer(tid, rid, started) =>
      && ProvisionAt(s, tid, Working) && rid !in s.born
      && var a := s.workers[tid].attempt;
      && a.network.Some? && a.network.value in s.world.networks
      && |a.containers| == a.ready < |a.order| && a.order[a.ready].resolvable
      && forall id :: id in s.world.containers ==> s.world.containers[id].name != ContainerName(a.env, a.order[a.ready].role)
    case RoleReady(tid) =>
      ProvisionAt(s, tid, Working) && |s.workers[tid].attempt.containers| == s.workers[tid].attempt.ready + 1
    case ProvisionCommit(tid, port, raised) =>
      && ProvisionAt(s, tid, Working) && s.workers[tid].attempt.network.Some? && s.workers[tid].attempt.env in s.rows
      && s.workers[tid].attempt.ready == |s.workers[tid].attempt.order|
    case TeardownLoad(tid) => TeardownAt(s, tid, Loading)
    case TeardownCommit(tid) =>
      TeardownAt(s, tid, Working) && s.workers[tid].removal.env in s.rows && s.workers[tid].removal.queue == NOTHING
    case Raise(tid, valueError) => IsTask(s, tid) && PhaseOf(s.workers[tid]) in {Loading, Working}
    case MarkFailed(tid, saved, text) =>
      && IsTask(s, tid) && PhaseOf(s.workers[tid]).Raised?
      && (s.workers[tid].Teardown? ==> s.workers[tid].removal.retries >= TEARDOWN_RETRIES)
    case Unwind(tid) =>
      && IsTask(s, tid)
      && if s.workers[tid].Teardown? && s.workers[tid].removal.retries < TEARDOWN_RETRIES
         then PhaseOf(s.workers[tid]).Raised? else PhaseOf(s.workers[tid]).Marked?
    case RemoveNext(tid, obeyed) =>
      (TeardownAt(s, tid, Working) || ReconcileAt(s, tid, true)) && QueueOf(s.workers[tid]) != NOTHING
    case ReapClaim(tid, order) =>
      && tid !in s.workers && order != [] && ToSet(order) == ExpiredIds(s.rows, s.now)
      && (forall i, j :: 0 <= i < j < |order| ==> order[i] != order[j])
    case ReapSend(tid) => tid in s.workers && s.workers[tid].Reap? && s.workers[tid].claimed != []
    case Recover => true
    case ListContainers(tid, cutoff) => tid !in s.workers && cutoff <= s.now - c.grace
    case ListNetworks(tid) => ReconcileAt(s, tid, false)
    case CheckLabel(tid, tag, cids, nids) =>
      && ReconcileAt(s, tid, true) && s.workers[tid].pass.queue == NOTHING
      && ToSet(cids) == Labelled(s, s.workers[tid].pass.foundContainers, tag)
      && ToSet(nids) == Labelled(s, s.workers[tid].pass.foundNetworks, tag)
      && (cids != [] || nids != [])
  }

  /** Overwrites one row; a terminal row made active again is counted against its owner. */
  function Write(s: State, env: EnvId, row: Row): State
    requires env in s.rows
  {
    s.(rows := s.rows[env := row],
       revived := if Terminal(s.rows[env].status) && !Terminal(row.status)
                  then s.revived + multiset{s.rows[env].owner} else s.revived)
  }

  /** The guards were passed at the request, and are not looked at again. */
  function DoCreateCommit(c: Config, s: State, env: EnvId): State
    requires env in s.inserting
  {
    var row := s.inserting[env];
    s.(rows := s.rows[env := row], inserting := s.inserting - {env},
       raced := if CreateAllowed(c, s.rows, row.owner, row.name) then s.raced else s.raced + multiset{row.owner})
  }

  function SetWorker(s: State, tid: TaskId, w: Worker): State {
    s.(workers := s.workers[tid := w])
  }

  function Drop(s: State, tid: TaskId): State {
    s.(workers := s.workers - {tid})
  }

  function AddContainer(s: State, rid: ResId, k: Container): State {
    s.(world := s.world.(containers := s.world.containers[rid := k]), born := s.born[rid := Birth(k.tag, k.createdAt)])
  }

  function AddNetwork(s: State, rid: ResId, n: Network): State {
    s.(world := s.world.(networks := s.world.networks[rid := n]), born := s.born[rid := Birth(n.tag, n.createdAt)])
  }

  function Send(s: State, msg: Message): State {
    s.(bag := s.bag + multiset{msg})
  }

  function Start(s: State, msg: Message): Worker {
    match msg
    case ProvisionMsg(env, retries) => Provision(Attempt(env, retries, Loading, None, s.now, [], 0, None, None, [], {}))
    case TeardownMsg(env, retries) => Teardown(Removal(env, retries, Loading, NOTHING))
  }

  /** The roles of a template in their start order; none if it is unknown. */
  function OrderOf(c: Config, template: string): Template {
    if template in c.templates then Templates.StartOrder(c.templates[template]) else []
  }

  function DoProvisionLoad(c: Config, s: State, tid: TaskId): State
    requires ProvisionAt(s, tid, Loading)
  {
    var a := s.workers[tid].attempt;
    if a.env !in s.rows then
      SetWorker(s, tid, Raising(s.workers[tid], true, s.now))
    else
      SetWorker(Write(s, a.env, SetStatus(s.rows[a.env], Provisioning, s.now)), tid,
                Provision(a.(phase := Working, loadedAt := Some(s.now), since := s.now,
                             order := OrderOf(c, s.rows[a.env].template))))
  }

  function DoProvisionNetwork(s: State, tid: TaskId, rid: ResId, answered: bool): State
    requires ProvisionAt(s, tid, Working)
  {
    var a := s.workers[tid].attempt;
    var b := a.(made := a.made + {rid}, firstMade := if a.firstMade.Some? then a.firstMade else Some(s.now), since := s.now);
    SetWorker(AddNetwork(s, rid, Network(NetworkName(a.env), Some(Canonical(a.env)), Some(s.now))), tid,
              Provision(if answered then b.(network := Some(rid)) else b.(phase := Raised(false))))
  }

  /** The next role's container: made, and perhaps started. */
  function DoProvisionContainer(s: State, tid: TaskId, rid: ResId, started: bool): State
    requires ProvisionAt(s, tid, Working) && s.workers[tid].attempt.ready < |s.workers[tid].attempt.order|
  {
    var a := s.workers[tid].attempt;
    var role := a.order[a.ready].role;
    var k := Container(ContainerName(a.env, role), Some(Canonical(a.env)), role, a.network, Some(s.now));
    var b := a.(made := a.made + {rid});
    SetWorker(AddContainer(s, rid, k), tid,
              Provision(if started then b.(containers := a.containers + [rid]) else b.(phase := Raised(false), since := s.now)))
  }

  /** The wait for the role started last has returned, and its port has been read. */
  function DoRoleReady(s: State, tid: TaskId): State
    requires ProvisionAt(s, tid, Working)
  {
    var a := s.workers[tid].attempt;
    SetWorker(s, tid, Provision(a.(ready := a.ready + 1, since := s.now)))
  }

  /** The row runs. That may be the end of the task, or something raises all the same, and it unwinds. */
  function DoProvisionCommit(s: State, tid: TaskId, port: nat, raised: bool): State
    requires ProvisionAt(s, tid, Working) && s.workers[tid].attempt.network.Some?
    requires s.workers[tid].attempt.env in s.rows
  {
    var a := s.workers[tid].attempt;
    var launched := Write(s, a.env, Launched(s.rows[a.env], a.network.value, a.containers, port, s.now));
    if !raised then Drop(launched, tid) else
      SetWorker(launched, tid, Provision(a.(phase := Raised(false), since := s.now, firstMade := None, network := None,
                                            containers := [], made := {})))
  }

  function DoTeardownLoad(s: State, tid: TaskId): State
    requires TeardownAt(s, tid, Loading)
  {
    var r := s.workers[tid].removal;
    if r.env !in s.rows then
      SetWorker(s, tid, Teardown(r.(phase := Raised(true))))
    else
      var row := s.rows[r.env];
      var queue := Queue(row.containerIds, if row.networkId.Some? then [row.networkId.value] else []);
      SetWorker(Write(s, r.env, SetStatus(row, Stopping, s.now)), tid,
                Teardown(r.(phase := Working, queue := queue)))
  }

  function DoTeardownCommit(s: State, tid: TaskId): State
    requires TeardownAt(s, tid, Working) && s.workers[tid].removal.env in s.rows
  {
    var env := s.workers[tid].removal.env;
    Drop(Write(s, env, Stop(s.rows[env], s.now)), tid)
  }

  function EnvOf(w: Worker): EnvId
    requires w.Provision? || w.Teardown?
  {
    if w.Provision? then w.attempt.env else w.removal.env
  }

  function DoMarkFailed(s: State, tid: TaskId, saved: bool, text: string): State
    requires IsTask(s, tid) && PhaseOf(s.workers[tid]).Raised?
  {
    var w := s.workers[tid];
    var env := EnvOf(w);
    SetWorker(if saved && env in s.rows then Write(s, env, FailWith(s.rows[env], Message(Cut(text)), s.now)) else s,
              tid, WithPhase(w, Marked(PhaseOf(w).valueError)))
  }

  /** The end of an attempt that raised: the next attempt is enqueued, or there is none. */
  function DoUnwind(s: State, tid: TaskId): State
    requires IsTask(s, tid) && (PhaseOf(s.workers[tid]).Marked? || PhaseOf(s.workers[tid]).Raised?)
  {
    match s.workers[tid]
    case Provision(a) =>
      if !a.phase.valueError && a.retries < PROVISION_RETRIES
      then Drop(Send(s, ProvisionMsg(a.env, a.retries + 1)), tid) else Drop(s, tid)
    case Teardown(r) =>
      if r.retries < TEARDOWN_RETRIES then Drop(Send(s, TeardownMsg(r.env, r.retries + 1)), tid) else Drop(s, tid)
  }

  /** One trip round either loop of remove_resources; an error is logged and the loop goes on. */
  function DoRemoveNext(s: State, tid: TaskId, obeyed: bool): State
    requires tid in s.workers && QueueOf(s.workers[tid]) != NOTHING
  {
    var q := QueueOf(s.workers[tid]);
    var world :=
      if !obeyed then s.world
      else if q.containers != [] then RemoveContainer(s.world, q.containers[0])
      else RemoveNetwork(s.world, q.networks[0]);
    var rest :=
      if q.containers != [] then q.(containers := q.containers[1..]) else q.(networks := q.networks[1..]);
    SetWorker(s.(world := world), tid, WithQueue(s.workers[tid], rest))
  }

  function DoCheckLabel(s: State, tid: TaskId, tag: Label, cids: seq<ResId>, nids: seq<ResId>): State
    requires ReconcileAt(s, tid, true)
  {
    var p := s.workers[tid].pass;
    SetWorker(s, tid, Reconcile(p.(
      visiting := tag, queue := if Sweepable(s.rows, tag) then Queue(cids, nids) else NOTHING,
      foundContainers := p.foundContainers - ToSet(cids), foundNetworks := p.foundNetworks - ToSet(nids))))
  }

  function Apply(c: Config, s: State, step: Step): State
    requires Enabled(c, s, step)
  {
    match step
    case Tick(dt) => s.(now := s.now + dt)
    case ForeignContainer(rid, k) => AddContainer(s, rid, k)
    case ForeignNetwork(rid, n) => AddNetwork(s, rid, n)
    case CreateRequest(env, owner, name, template, ttl) =>
      Send(s.(issued := s.issued + {env}, inserting := s.inserting[env := NewRow(owner, name, template, ttl, s.now)]),
           ProvisionMsg(env, 0))
    case CreateCommit(env) => DoCreateCommit(c, s, env)
    case CreateAbort(env) => s.(inserting := s.inserting - {env})
    case DeleteRequest(env, owner) => Send(s, TeardownMsg(env, 0))
    case Lose(msg) => s.(bag := s.bag - multiset{msg})
    case Deliver(tid, msg, acked) =>
      SetWorker(if acked then s.(bag := s.bag - multiset{msg}) else s, tid, Start(s, msg))
    case Leave(tid) => Drop(s, tid)
    case ProvisionLoad(tid) => DoProvisionLoad(c, s, tid)
    case ProvisionNetwork(tid, rid, answered) => DoProvisionNetwork(s, tid, rid, answered)
    case ProvisionContainer(tid, rid, started) => DoProvisionContainer(s, tid, rid, started)
    case RoleReady(tid) => DoRoleReady(s, tid)
    case ProvisionCommit(tid, port, raised) => DoProvisionCommit(s, tid, port, raised)
    case TeardownLoad(tid) => DoTeardownLoad(s, tid)
    case TeardownCommit(tid) => DoTeardownCommit(s, tid)
    case Raise(tid, valueError) => SetWorker(s, tid, Raising(s.workers[tid], valueError, s.now))
    case MarkFailed(tid, saved, text) => DoMarkFailed(s, tid, saved, text)
    case Unwind(tid) => DoUnwind(s, tid)
    case RemoveNext(tid, obeyed) => DoRemoveNext(s, tid, obeyed)
    case ReapClaim(tid, order) => SetWorker(s.(rows := ReapRows(s.rows, s.now)), tid, Reap(order))
    case ReapSend(tid) =>
      SetWorker(Send(s, TeardownMsg(s.workers[tid].claimed[0], 0)), tid, Reap(s.workers[tid].claimed[1..]))
    case Recover => s.(rows := RecoverRows(c, s.rows, s.now))
    case ListContainers(tid, cutoff) =>
      SetWorker(s, tid, Reconcile(Pass(cutoff, false, FoundContainers(s.world, s.now, cutoff), {}, NotUuid(""), NOTHING)))
    case ListNetworks(tid) =>
      var p := s.workers[tid].pass;
      SetWorker(s, tid, Reconcile(p.(listed := true, foundNetworks := FoundNetworks(s.world, s.now, p.cutoff))))
    case CheckLabel(tid, tag, cids, nids) => DoCheckLabel(s, tid, tag, cids, nids)
  }

  /** A run: a first state with nothing in it, and a step between each state and the next. */
  ghost predicate Run(c: Config, states: seq<State>, steps: seq<Step>) {
    && |states| == |steps| + 1
    && Init(states[0])
    && forall i :: 0 <= i < |steps| ==> StepAt(c, states, steps, i)
  }

  ghost predicate StepAt(c: Config, states: seq<State>, steps: seq<Step>, i: nat)
    requires i < |steps| < |states|
  {
    StepOf(c, states[i], steps[i], states[i + 1])
  }

  ghost predicate StepOf(c: Config, s: State, step: Step, s': State) {
    Enabled(c, s, step) && s' == Apply(c, s, step)
  }
}

/** What every reachable state satisfies, whatever is killed, lost, redelivered or refused on the way. */
module Invariants {
  import opened Lifecycle
  import opened Naming
  import opened Worlds
  import opened Protocol

  function MadeBy(w: Worker): set<ResId> {
    if w.Provision? then w.attempt.made else {}
  }

  function Queued(q: Queue): set<ResId> {
    ToSet(q.containers) + ToSet(q.networks)
  }

  /** What a task in progress is about to remove. */
  function Doomed(w: Worker): set<ResId> {
    Queued(QueueOf(w))
  }

  predicate BornAs(s: State, rid: ResId, tag: Label) {
    rid in s.born && s.born[rid].tag == Some(tag)
  }

  /** Some running row vouches for the resource. */
  predicate Vouched(s: State, rid: ResId) {
    exists id :: id in s.rows && s.rows[id].status == Running && rid in Recorded(s.rows[id])
  }

  predicate BirthsOk(s: State) {
    && (forall rid :: rid in s.world.containers ==>
          rid in s.born && s.born[rid] == Birth(s.world.containers[rid].tag, s.world.containers[rid].createdAt))
    && (forall rid :: rid in s.world.networks ==>
          rid in s.born && s.born[rid] == Birth(s.world.networks[rid].tag, s.world.networks[rid].createdAt))
    && (forall rid :: rid in s.born ==> BirthOk(s, s.born[rid]))
  }

  predicate BirthOk(s: State, b: Birth) {
    && (b.at.Some? ==> b.at.value <= s.now)
    && (b.tag.Some? && b.tag.value.Uuid? ==> b.at.Some? && b.tag == Some(Canonical(b.tag.value.id)))
  }

  predicate RowOk(s: State, id: EnvId, r: Row) {
    && r.statusChangedAt.Some? && r.statusChangedAt.value <= s.now
    && (r.status == Running ==> r.expiresAt.Some?)
    && forall rid :: rid in Recorded(r) ==> BornAs(s, rid, Canonical(id))
  }

  predicate RowsOk(s: State) {
    && (forall id :: id in s.rows ==> id in s.issued && RowOk(s, id, s.rows[id]))
    && (forall id :: id in s.inserting ==>
          && id !in s.rows && id in s.issued && RowOk(s, id, s.inserting[id])
          && s.inserting[id].status == Pending && Recorded(s.inserting[id]) == {})
  }

  predicate AttemptOk(s: State, a: Attempt) {
    && (a.phase == Loading ==> a.made == {} && a.firstMade.None?)
    && (a.phase == Working ==> a.loadedAt.Some?)
    && (a.loadedAt.Some? ==> a.loadedAt.value <= s.now && a.env in s.rows && s.rows[a.env].statusChangedAt.Some?
                             && a.loadedAt.value <= s.rows[a.env].statusChangedAt.value)
    && (a.made != {} ==> a.firstMade.Some?)
    && (a.firstMade.Some? ==> a.loadedAt.Some? && a.loadedAt.value <= a.firstMade.value <= s.now)
    && (forall rid :: rid in a.made ==> BornAs(s, rid, Canonical(a.env)) && BornSince(s, rid, a.firstMade))
    && (a.network.Some? ==> a.network.value in a.made)
    && (forall k :: k in a.containers ==> k in a.made)
  }

  predicate BornSince(s: State, rid: ResId, t: Option<Time>) {
    rid in s.born && s.born[rid].at.Some? && t.Some? && t.value <= s.born[rid].at.value
  }

  predicate BornBy(s: State, rid: ResId, t: Time) {
    rid in s.born && (s.born[rid].at.Some? ==> s.born[rid].at.value <= t)
  }

  predicate RemovalOk(s: State, r: Removal) {
    forall rid :: rid in Queued(r.queue) ==> BornAs(s, rid, Canonical(r.env)) && !Vouched(s, rid)
  }

  predicate PassOk(c: Config, s: State, p: Pass) {
    && p.cutoff <= s.now - c.grace
    && (forall rid :: rid in p.foundContainers + p.foundNetworks ==> BornBy(s, rid, p.cutoff))
    && (forall rid :: rid in Queued(p.queue) ==>
          p.visiting.Uuid? && BornAs(s, rid, p.visiting) && BornBy(s, rid, p.cutoff))
  }

  predicate WorkerOk(c: Config, s: State, w: Worker) {
    match w
    case Provision(a) => AttemptOk(s, a)
    case Teardown(r) => RemovalOk(s, r)
    case Reap(claimed) => true
    case Reconcile(p) => PassOk(c, s, p)
  }

  predicate WorkersOk(c: Config, s: State) {
    forall t :: t in s.workers ==> WorkerOk(c, s, s.workers[t])
  }

  /** What a live attempt has made is recorded nowhere, made by no other attempt, and queued by no teardown. */
  predicate Exclusive(s: State) {
    && (forall t, u :: t in s.workers && u in s.workers && t != u ==> MadeBy(s.workers[t]) !! MadeBy(s.workers[u]))
    && (forall t, id :: t in s.workers && id in s.rows ==> MadeBy(s.workers[t]) !! Recorded(s.rows[id]))
    && (forall t, u :: t in s.workers && u in s.workers && s.workers[u].Teardown? ==>
          MadeBy(s.workers[t]) !! Doomed(s.workers[u]))
  }

  predicate Inv(c: Config, s: State) {
    BirthsOk(s) && RowsOk(s) && WorkersOk(c, s) && Exclusive(s) && OwnNetworksOnly(s.world)
  }

  lemma InvInit(c: Config, s: State)
    requires Init(s)
    ensures Inv(c, s)
  {
  }

  // ---- Framing -------------------------------------------------------------

  /** Time, history and the status stamps only move forward. */
  predicate Later(s: State, s': State) {
    && s.now <= s'.now
    && (forall rid :: rid in s.born ==> rid in s'.born && s'.born[rid] == s.born[rid])
    && (forall id :: id in s.rows ==> id in s'.rows && RowLater(s.rows[id], s'.rows[id]))
  }

  predicate RowLater(r: Row, r': Row) {
    r.statusChangedAt.Some? ==> r'.statusChangedAt.Some? && r.statusChangedAt.value <= r'.statusChangedAt.value
  }

  predicate OthersSame(s: State, s': State, tid: TaskId) {
    forall t :: t in s'.workers && t != tid ==> t in s.workers && s'.workers[t] == s.workers[t]
  }

  function Made(s: State, tid: TaskId): set<ResId> {
    if tid in s.workers then MadeBy(s.workers[tid]) else {}
  }

  /** Rows come to vouch, or record, only for what task `tid` had made. */
  predicate RecordsFrom(s: State, s': State, tid: TaskId) {
    forall id :: id in s'.rows ==>
      && Recorded(s'.rows[id]) <= (if id in s.rows then Recorded(s.rows[id]) else {}) + Made(s, tid)
      && (s'.rows[id].status == Running && !(id in s.rows && s.rows[id].status == Running) ==>
            Recorded(s'.rows[id]) <= Made(s, tid))
  }

  lemma AttemptLater(s: State, s': State, a: Attempt)
    requires AttemptOk(s, a) && Later(s, s')
    ensures AttemptOk(s', a)
  {
  }

  lemma PassLater(c: Config, s: State, s': State, p: Pass)
    requires PassOk(c, s, p) && Later(s, s')
    ensures PassOk(c, s', p)
  {
  }

  lemma RemovalLater(s: State, s': State, tid: TaskId, r: Removal)
    requires RemovalOk(s, r) && Later(s, s') && RecordsFrom(s, s', tid) && Queued(r.queue) !! Made(s, tid)
    ensures RemovalOk(s', r)
  {
  }

  /** One task moves and the others stand still. */
  lemma KeepWorkers(c: Config, s: State, s': State, tid: TaskId)
    requires WorkersOk(c, s) && Exclusive(s) && Later(s, s') && OthersSame(s, s', tid) && RecordsFrom(s, s', tid)
    requires tid in s'.workers ==> WorkerOk(c, s', s'.workers[tid])
    ensures WorkersOk(c, s')
  {
    forall t | t in s'.workers && t != tid
      ensures WorkerOk(c, s', s'.workers[t])
    {
      assert WorkerOk(c, s, s.workers[t]);
      match s.workers[t] {
        case Provision(a) => AttemptLater(s, s', a);
        case Teardown(r) =>
          assert tid in s.workers ==> MadeBy(s.workers[tid]) !! Doomed(s.workers[t]);
          RemovalLater(s, s', tid, r);
        case Reap(claimed) =>
        case Reconcile(p) => PassLater(c, s, s', p);
      }
    }
  }

  /** What a task may newly claim: ids never used before; what it may newly queue: what a row records. */
  predicate ClaimsFresh(s: State, s': State, tid: TaskId) {
    && (forall rid :: rid in Made(s', tid) ==> rid in Made(s, tid) || rid !in s.born)
    && (tid in s'.workers && s'.workers[tid].Teardown? ==>
          forall rid :: rid in Doomed(s'.workers[tid]) ==>
            (tid in s.workers && s.workers[tid].Teardown? && rid in Doomed(s.workers[tid]))
            || exists id :: id in s.rows && rid in Recorded(s.rows[id]))
    && (Made(s', tid) == {} || forall id :: id in s'.rows ==> id in s.rows && Recorded(s'.rows[id]) <= Recorded(s.rows[id]))
  }

  lemma KeepExclusive(c: Config, s: State, s': State, tid: TaskId)
    requires WorkersOk(c, s) && RowsOk(s) && Exclusive(s)
    requires OthersSame(s, s', tid) && RecordsFrom(s, s', tid) && ClaimsFresh(s, s', tid)
    ensures Exclusive(s')
  {
    forall t | t in s'.workers && t != tid
      ensures MadeBy(s'.workers[t]) !! Made(s', tid)
      ensures s'.workers[t].Teardown? ==> Doomed(s'.workers[t]) !! Made(s', tid)
      ensures tid in s'.workers && s'.workers[tid].Teardown? ==> MadeBy(s'.workers[t]) !! Doomed(s'.workers[tid])
    {
      KnownIds(c, s, t);
      assert MadeBy(s.workers[t]) !! Made(s, tid);
      assert s.workers[t].Teardown? && tid in s.workers ==> MadeBy(s.workers[tid]) !! Doomed(s.workers[t]);
      assert tid in s.workers && s.workers[tid].Teardown? ==> MadeBy(s.workers[t]) !! Doomed(s.workers[tid]);
    }
    forall t, id | t in s'.workers && id in s'.rows
      ensures MadeBy(s'.workers[t]) !! Recorded(s'.rows[id])
    {
      if t == tid {
        assert id in s.rows && Made(s', tid) != {} ==> Recorded(s'.rows[id]) <= Recorded(s.rows[id]);
        if id in s.rows && tid in s.workers { assert MadeBy(s.workers[tid]) !! Recorded(s.rows[id]); }
      } else {
        assert tid in s.workers ==> MadeBy(s.workers[t]) !! MadeBy(s.workers[tid]);
        assert id in s.rows ==> MadeBy(s.workers[t]) !! Recorded(s.rows[id]);
      }
    }
  }

  lemma KnownIds(c: Config, s: State, t: TaskId)
    requires WorkersOk(c, s) && t in s.workers
    ensures forall rid :: rid in MadeBy(s.workers[t]) || rid in Doomed(s.workers[t]) ==> rid in s.born
  {
    assert WorkerOk(c, s, s.workers[t]);
  }

  // ---- Steps ---------------------------------------------------------------

  /** Rows, resources and history stand still; only one task, the broker or the clock moves. */
  predicate Quiet(s: State, s': State) {
    && s.now <= s'.now && s'.rows == s.rows && s'.inserting == s.inserting && s'.issued == s.issued
    && s'.world == s.world && s'.born == s.born
  }

  lemma KeepQuiet(c: Config, s: State, s': State, tid: TaskId)
    requires Inv(c, s) && Quiet(s, s') && OthersSame(s, s', tid) && ClaimsFresh(s, s', tid)
    requires tid in s'.workers ==> WorkerOk(c, s', s'.workers[tid])
    ensures Inv(c, s')
  {
    KeepWorkers(c, s, s', tid);
    KeepExclusive(c, s, s', tid);
    assert forall id :: id in s.rows ==> RowOk(s', id, s.rows[id]);
    assert forall id :: id in s.inserting ==> RowOk(s', id, s.inserting[id]);
    assert forall rid :: rid in s.born ==> BirthOk(s', s.born[rid]);
  }

  /** A task writes rows: never their recorded ids, or else the ones it made itself, as it leaves. */
  lemma KeepRows(c: Config, s: State, s': State, tid: TaskId)
    requires Inv(c, s) && s'.now == s.now && s'.world == s.world && s'.born == s.born && s'.issued == s.issued
    requires s'.inserting == s.inserting && s'.rows.Keys == s.rows.Keys && Later(s, s')
    requires forall id :: id in s'.rows ==> RowOk(s', id, s'.rows[id])
    requires OthersSame(s, s', tid) && RecordsFrom(s, s', tid) && ClaimsFresh(s, s', tid)
    requires tid in s'.workers ==> WorkerOk(c, s', s'.workers[tid])
    ensures Inv(c, s')
  {
    KeepWorkers(c, s, s', tid);
    KeepExclusive(c, s, s', tid);
    assert forall id :: id in s.inserting ==> RowOk(s', id, s.inserting[id]);
    assert forall rid :: rid in s.born ==> BirthOk(s', s.born[rid]);
  }

  lemma KeepTick(c: Config, s: State, s': State)
    requires Inv(c, s) && s.now <= s'.now && s' == s.(now := s'.now)
    ensures Inv(c, s')
  {
    var tid := Unused(s.workers.Keys);
    KeepWorkers(c, s, s', tid);
    assert forall id :: id in s.rows ==> RowOk(s', id, s.rows[id]);
    assert forall id :: id in s.inserting ==> RowOk(s', id, s.inserting[id]);
    assert forall rid :: rid in s.born ==> BirthOk(s', s.born[rid]);
  }

  lemma StatusWriteFrame(s: State, s': State, env: EnvId, tid: TaskId)
    requires env in s.rows && env in s'.rows && RowOk(s, env, s.rows[env]) && s'.now == s.now && s'.born == s.born
    requires s'.rows == s.rows[env := s'.rows[env]]
    requires s'.rows[env].status != Running && s'.rows[env].statusChangedAt == Some(s.now)
    requires Recorded(s'.rows[env]) == Recorded(s.rows[env])
    ensures Later(s, s') && RecordsFrom(s, s', tid)
    ensures forall id :: id in s'.rows ==> id in s.rows && Recorded(s'.rows[id]) == Recorded(s.rows[id])
  {
  }

  /** A status change, other than to RUNNING, by a task that claims nothing new. */
  lemma KeepStatusWrite(c: Config, s: State, s': State, env: EnvId, tid: TaskId)
    requires Inv(c, s) && env in s.rows && env in s'.rows && s'.now == s.now && s'.world == s.world && s'.born == s.born
    requires s'.issued == s.issued && s'.inserting == s.inserting
    requires s'.rows == s.rows[env := s'.rows[env]]
    requires s'.rows[env].status != Running && s'.rows[env].statusChangedAt == Some(s.now)
    requires Recorded(s'.rows[env]) == Recorded(s.rows[env])
    requires OthersSame(s, s', tid) && ClaimsFresh(s, s', tid)
    requires tid in s'.workers ==> WorkerOk(c, s', s'.workers[tid])
    ensures Inv(c, s')
  {
    forall id | id in s'.rows
      ensures RowOk(s', id, s'.rows[id])
    {
      assert RowOk(s, id, s.rows[id]);
    }
    assert RowOk(s, env, s.rows[env]);
    KeepRows(c, s, s', tid);
  }

  lemma LoadedOk(c: Config, s: State, tid: TaskId)
    requires ProvisionAt(s, tid, Loading) && AttemptOk(s, s.workers[tid].attempt)
    ensures var s' := DoProvisionLoad(c, s, tid);
            Made(s', tid) == {} && tid in s'.workers && WorkerOk(c, s', s'.workers[tid])
  {
  }

  lemma KeepProvisionLoad(c: Config, s: State, tid: TaskId)
    requires Inv(c, s) && ProvisionAt(s, tid, Loading)
    ensures Inv(c, DoProvisionLoad(c, s, tid))
  {
    var s' := DoProvisionLoad(c, s, tid);
    var a := s.workers[tid].attempt;
    assert WorkerOk(c, s, s.workers[tid]);
    LoadedOk(c, s, tid);
    if a.env in s.rows {
      KeepStatusWrite(c, s, s', a.env, tid);
    } else {
      KeepQuiet(c, s, s', tid);
    }
  }

  lemma KeepProvisionCommit(c: Config, s: State, tid: TaskId, port: nat, raised: bool)
    requires Inv(c, s) && ProvisionAt(s, tid, Working)
    requires s.workers[tid].attempt.network.Some? && s.workers[tid].attempt.env in s.rows
    ensures Inv(c, DoProvisionCommit(s, tid, port, raised))
  {
    KeepLaunch(c, s, tid, port);
    if raised {
      var s' := DoProvisionCommit(s, tid, port, true);
      assert WorkerOk(c, s, s.workers[tid]);
      StillOk(s, s', s.workers[tid].attempt, s'.workers[tid].attempt);
      KeepArrival(c, DoProvisionCommit(s, tid, port, false), s', tid);
    }
  }

  lemma KeepLaunch(c: Config, s: State, tid: TaskId, port: nat)
    requires Inv(c, s) && ProvisionAt(s, tid, Working)
    requires s.workers[tid].attempt.network.Some? && s.workers[tid].attempt.env in s.rows
    ensures Inv(c, DoProvisionCommit(s, tid, port, false))
  {
    var s' := DoProvisionCommit(s, tid, port, false);
    var a := s.workers[tid].attempt;
    assert WorkerOk(c, s, s.workers[tid]);
    assert Recorded(s'.rows[a.env]) <= a.made;
    KeepRows(c, s, s', tid);
  }

  /** An attempt that has launched and then raised is responsible for nothing but its row's stamp. */
  lemma StillOk(s: State, s': State, a: Attempt, b: Attempt)
    requires AttemptOk(s, a) && a.phase == Working && s'.now == s.now
    requires b.env == a.env && b.loadedAt == a.loadedAt && b.phase.Raised? && b.firstMade.None? && b.network.None?
    requires b.containers == [] && b.made == {}
    requires a.env in s'.rows && s'.rows[a.env].statusChangedAt == Some(s.now)
    ensures AttemptOk(s', b)
  {
  }

  lemma KeepTeardownLoad(c: Config, s: State, tid: TaskId)
    requires Inv(c, s) && TeardownAt(s, tid, Loading)
    ensures Inv(c, DoTeardownLoad(s, tid))
  {
    var s' := DoTeardownLoad(s, tid);
    var r := s.workers[tid].removal;
    if r.env in s.rows {
      RowQueued(s, tid);
      KeepStatusWrite(c, s, s', r.env, tid);
    } else {
      assert WorkerOk(c, s, s.workers[tid]);
      KeepSameDuties(c, s, tid, Teardown(r.(phase := Raised(true))));
    }
  }

  lemma RowQueued(s: State, tid: TaskId)
    requires RowsOk(s) && TeardownAt(s, tid, Loading) && s.workers[tid].removal.env in s.rows
    ensures var s', env := DoTeardownLoad(s, tid), s.workers[tid].removal.env;
            && tid in s'.workers && s'.workers[tid].Teardown? && RemovalOk(s', s'.workers[tid].removal)
            && Doomed(s'.workers[tid]) == Recorded(s.rows[env]) == Recorded(s'.rows[env])
  {
    var s', env := DoTeardownLoad(s, tid), s.workers[tid].removal.env;
    assert RowOk(s, env, s.rows[env]);
    OnlyOwnerRecords(s, env);
    QueueOfRow(s, s', env, s'.workers[tid].removal);
  }

  /** A teardown queues exactly what the row it stops recorded, and nothing that another running row records. */
  lemma QueueOfRow(s: State, s': State, env: EnvId, r: Removal)
    requires env in s.rows && RowOk(s, env, s.rows[env]) && s'.born == s.born && env in s'.rows
    requires s'.rows == s.rows[env := s'.rows[env]] && s'.rows[env].status != Running
    requires forall id :: id in s.rows && id != env ==> Recorded(s.rows[id]) !! Recorded(s.rows[env])
    requires r.env == env && r.queue.containers == s.rows[env].containerIds
    requires r.queue.networks == if s.rows[env].networkId.Some? then [s.rows[env].networkId.value] else []
    ensures Queued(r.queue) == Recorded(s.rows[env]) && RemovalOk(s', r)
  {
    assert Queued(r.queue) == Recorded(s.rows[env]);
    forall rid | rid in Queued(r.queue)
      ensures BornAs(s', rid, Canonical(env)) && !Vouched(s', rid)
    {
      assert BornAs(s, rid, Canonical(env));
    }
  }

  /** No two rows record the same resource. */
  lemma OnlyOwnerRecords(s: State, env: EnvId)
    requires RowsOk(s) && env in s.rows
    ensures forall id :: id in s.rows && id != env ==> Recorded(s.rows[id]) !! Recorded(s.rows[env])
  {
    forall id | id in s.rows && id != env
      ensures Recorded(s.rows[id]) !! Recorded(s.rows[env])
    {
      assert RowOk(s, id, s.rows[id]) && RowOk(s, env, s.rows[env]);
      assert forall rid :: rid in Recorded(s.rows[id]) ==> BornAs(s, rid, Canonical(id));
      assert forall rid :: rid in Recorded(s.rows[env]) ==> BornAs(s, rid, Canonical(env));
    }
  }

  lemma KeepTeardownCommit(c: Config, s: State, tid: TaskId)
    requires Inv(c, s) && TeardownAt(s, tid, Working) && s.workers[tid].removal.env in s.rows
    ensures Inv(c, DoTeardownCommit(s, tid))
  {
    KeepStatusWrite(c, s, DoTeardownCommit(s, tid), s.workers[tid].removal.env, tid);
  }

  lemma KeepMarkFailed(c: Config, s: State, tid: TaskId, saved: bool, text: string)
    requires Inv(c, s) && IsTask(s, tid) && PhaseOf(s.workers[tid]).Raised?
    ensures Inv(c, DoMarkFailed(s, tid, saved, text))
  {
    var w, env := s.workers[tid], EnvOf(s.workers[tid]);
    var marked := WithPhase(w, Marked(PhaseOf(w).valueError));
    KeepPhase(c, s, w, Marked(PhaseOf(w).valueError));
    if saved && env in s.rows {
      KeepFailedRow(c, s, tid, marked, FailWith(s.rows[env], Message(Cut(text)), s.now));
    } else {
      KeepSameDuties(c, s, tid, marked);
    }
  }

  /** A task moves on with what it has made and queued. */
  lemma KeepSameDuties(c: Config, s: State, tid: TaskId, w: Worker)
    requires Inv(c, s) && IsTask(s, tid) && w.Teardown? == s.workers[tid].Teardown? && WorkerOk(c, s, w)
    requires MadeBy(w) == MadeBy(s.workers[tid]) && Doomed(w) == Doomed(s.workers[tid])
    ensures Inv(c, SetWorker(s, tid, w))
  {
    var s' := SetWorker(s, tid, w);
    assert WorkerOk(c, s', w);
    KeepQuiet(c, s, s', tid);
  }

  lemma KeepFailedRow(c: Config, s: State, tid: TaskId, w: Worker, row: Row)
    requires Inv(c, s) && IsTask(s, tid) && (w.Provision? || w.Teardown?) && w.Teardown? == s.workers[tid].Teardown?
    requires WorkerOk(c, s, w) && MadeBy(w) == MadeBy(s.workers[tid]) && Doomed(w) == Doomed(s.workers[tid])
    requires EnvOf(w) in s.rows && row.status == Failed && row.statusChangedAt == Some(s.now)
    requires Recorded(row) == Recorded(s.rows[EnvOf(w)])
    ensures Inv(c, SetWorker(Write(s, EnvOf(w), row), tid, w))
  {
    var s' := SetWorker(Write(s, EnvOf(w), row), tid, w);
    assert RowOk(s, EnvOf(w), s.rows[EnvOf(w)]);
    StatusWriteFrame(s, s', EnvOf(w), tid);
    WorkerPastWrite(c, s, s', tid, w);
    assert ClaimsFresh(s, s', tid);
    KeepStatusWrite(c, s, s', EnvOf(w), tid);
  }

  lemma WorkerPastWrite(c: Config, s: State, s': State, tid: TaskId, w: Worker)
    requires IsTask(s, tid) && WorkerOk(c, s, w) && (w.Provision? || w.Teardown?) && w.Teardown? == s.workers[tid].Teardown?
    requires Later(s, s') && RecordsFrom(s, s', tid)
    ensures WorkerOk(c, s', w)
  {
    match w {
      case Provision(a) => AttemptLater(s, s', a);
      case Teardown(r) => RemovalLater(s, s', tid, r);
    }
  }

  /** Unwinding changes nothing a task is responsible for. */
  lemma KeepPhase(c: Config, s: State, w: Worker, phase: Phase)
    requires WorkerOk(c, s, w) && (w.Provision? || w.Teardown?) && (phase.Raised? || phase.Marked?)
    ensures WorkerOk(c, s, WithPhase(w, phase))
    ensures MadeBy(WithPhase(w, phase)) == MadeBy(w) && Doomed(WithPhase(w, phase)) == Doomed(w)
  {
  }

  lemma KeepRaise(c: Config, s: State, tid: TaskId, valueError: bool)
    requires Inv(c, s) && IsTask(s, tid)
    ensures Inv(c, SetWorker(s, tid, Raising(s.workers[tid], valueError, s.now)))
  {
    KeepRaising(c, s, s.workers[tid], valueError);
    KeepSameDuties(c, s, tid, Raising(s.workers[tid], valueError, s.now));
  }

  lemma KeepRaising(c: Config, s: State, w: Worker, valueError: bool)
    requires WorkerOk(c, s, w) && (w.Provision? || w.Teardown?)
    ensures var v := Raising(w, valueError, s.now);
            WorkerOk(c, s, v) && MadeBy(v) == MadeBy(w) && Doomed(v) == Doomed(w)
  {
  }

  lemma KeepRoleReady(c: Config, s: State, tid: TaskId)
    requires Inv(c, s) && ProvisionAt(s, tid, Working)
    ensures Inv(c, DoRoleReady(s, tid))
  {
    assert WorkerOk(c, s, s.workers[tid]);
    KeepSameDuties(c, s, tid, DoRoleReady(s, tid).workers[tid]);
  }

  /** A task goes, or a new one comes that has made and queued nothing; the broker does as it likes. */
  lemma KeepArrival(c: Config, s: State, s': State, tid: TaskId)
    requires Inv(c, s) && Quiet(s, s') && OthersSame(s, s', tid)
    requires tid in s'.workers ==> MadeBy(s'.workers[tid]) == {} == Doomed(s'.workers[tid]) && WorkerOk(c, s', s'.workers[tid])
    ensures Inv(c, s')
  {
    KeepQuiet(c, s, s', tid);
  }

  lemma KeepListContainers(c: Config, s: State, tid: TaskId, p: Pass)
    requires Inv(c, s) && tid !in s.workers && p.queue == NOTHING && p.cutoff <= s.now - c.grace
    requires p.foundContainers == FoundContainers(s.world, s.now, p.cutoff) && p.foundNetworks == {}
    ensures Inv(c, SetWorker(s, tid, Reconcile(p)))
  {
    assert PassOk(c, s, p);
    KeepArrival(c, s, SetWorker(s, tid, Reconcile(p)), tid);
  }

  lemma KeepListNetworks(c: Config, s: State, tid: TaskId)
    requires Inv(c, s) && ReconcileAt(s, tid, false)
    ensures var p := s.workers[tid].pass;
            Inv(c, SetWorker(s, tid, Reconcile(p.(listed := true, foundNetworks := FoundNetworks(s.world, s.now, p.cutoff)))))
  {
    var p := s.workers[tid].pass;
    assert WorkerOk(c, s, s.workers[tid]);
    var q := p.(listed := true, foundNetworks := FoundNetworks(s.world, s.now, p.cutoff));
    assert PassOk(c, s, q);
    KeepQuiet(c, s, SetWorker(s, tid, Reconcile(q)), tid);
  }

  lemma KeepCheckLabel(c: Config, s: State, tid: TaskId, tag: Label, cids: seq<ResId>, nids: seq<ResId>)
    requires Inv(c, s) && ReconcileAt(s, tid, true)
    requires ToSet(cids) == Labelled(s, s.workers[tid].pass.foundContainers, tag)
    requires ToSet(nids) == Labelled(s, s.workers[tid].pass.foundNetworks, tag)
    ensures Inv(c, DoCheckLabel(s, tid, tag, cids, nids))
  {
    var s' := DoCheckLabel(s, tid, tag, cids, nids);
    assert WorkerOk(c, s, s.workers[tid]);
    assert PassOk(c, s, s'.workers[tid].pass);
    KeepQuiet(c, s, s', tid);
  }

  lemma KeepReapClaim(c: Config, s: State, tid: TaskId, order: seq<EnvId>)
    requires Inv(c, s) && tid !in s.workers
    ensures Inv(c, SetWorker(s.(rows := ReapRows(s.rows, s.now)), tid, Reap(order)))
  {
    var s' := SetWorker(s.(rows := ReapRows(s.rows, s.now)), tid, Reap(order));
    forall id | id in s'.rows
      ensures RowOk(s', id, s'.rows[id]) && RowLater(s.rows[id], s'.rows[id])
    {
      assert RowOk(s, id, s.rows[id]) && Recorded(s'.rows[id]) == Recorded(s.rows[id]);
    }
    KeepRows(c, s, s', tid);
  }

  lemma KeepRecover(c: Config, s: State)
    requires Inv(c, s)
    ensures Inv(c, s.(rows := RecoverRows(c, s.rows, s.now)))
  {
    var s' := s.(rows := RecoverRows(c, s.rows, s.now));
    forall id | id in s'.rows
      ensures RowOk(s', id, s'.rows[id]) && RowLater(s.rows[id], s'.rows[id])
    {
      assert RowOk(s, id, s.rows[id]) && Recorded(s'.rows[id]) == Recorded(s.rows[id]);
    }
    var tid := Unused(s.workers.Keys);
    KeepRows(c, s, s', tid);
  }

  /** A task number nobody holds. */
  lemma {:induction false} Unused(ids: set<TaskId>) returns (t: TaskId)
    ensures forall u :: u in ids ==> u < t
  {
    if ids == {} {
      t := 0;
    } else {
      var u :| u in ids;
      t := Unused(ids - {u});
      assert forall v :: v in ids ==> v == u || v in ids - {u};
      t := if t <= u then u + 1 else t;
    }
  }

  lemma KeepNewRequest(c: Config, s: State, step: Step)
    requires Inv(c, s) && step.CreateRequest? && Enabled(c, s, step)
    ensures Inv(c, Apply(c, s, step))
  {
    var row := NewRow(step.owner, step.name, step.template, step.ttl, s.now);
    KeepCreateRequest(c, s, Apply(c, s, step), step.env, row);
  }

  lemma KeepCreateRequest(c: Config, s: State, s': State, env: EnvId, row: Row)
    requires Inv(c, s) && env !in s.issued && RowOk(s, env, row) && row.status == Pending && Recorded(row) == {}
    requires s'.inserting == s.inserting[env := row] && s'.issued == s.issued + {env}
    requires s'.now == s.now && s'.rows == s.rows && s'.world == s.world && s'.born == s.born && s'.workers == s.workers
    ensures Inv(c, s')
  {
    assert forall id :: id in s.rows ==> RowOk(s', id, s.rows[id]);
    forall id | id in s'.inserting
      ensures RowOk(s', id, s'.inserting[id])
    {
      assert id != env ==> RowOk(s, id, s.inserting[id]);
    }
    var tid := Unused(s.workers.Keys);
    KeepWorkers(c, s, s', tid);
  }

  lemma KeepCreateCommit(c: Config, s: State, env: EnvId)
    requires Inv(c, s) && env in s.inserting
    ensures Inv(c, DoCreateCommit(c, s, env))
  {
    var s' := DoCreateCommit(c, s, env);
    InsertedRows(s, s', env);
    var tid := Unused(s.workers.Keys);
    InsertFrame(s, s', env, tid);
    KeepWorkers(c, s, s', tid);
    assert Exclusive(s');
    assert forall r :: r in s.born ==> BirthOk(s', s.born[r]);
  }

  lemma InsertedRows(s: State, s': State, env: EnvId)
    requires RowsOk(s) && env in s.inserting
    requires s' == s.(rows := s.rows[env := s.inserting[env]], inserting := s.inserting - {env}, raced := s'.raced)
    ensures RowsOk(s') && env !in s.rows && s'.rows[env].status == Pending && Recorded(s'.rows[env]) == {}
  {
    forall id | id in s'.rows
      ensures RowOk(s', id, s'.rows[id])
    {
      assert if id == env then RowOk(s, id, s.inserting[id]) else RowOk(s, id, s.rows[id]);
    }
    forall id | id in s'.inserting
      ensures RowOk(s', id, s'.inserting[id])
    {
      assert RowOk(s, id, s.inserting[id]);
    }
  }

  lemma InsertFrame(s: State, s': State, env: EnvId, tid: TaskId)
    requires env !in s.rows && env in s'.rows && s'.rows == s.rows[env := s'.rows[env]]
    requires s'.now == s.now && s'.born == s.born && s'.workers == s.workers
    requires s'.rows[env].status == Pending && Recorded(s'.rows[env]) == {}
    ensures Later(s, s') && RecordsFrom(s, s', tid) && OthersSame(s, s', tid)
  {
  }

  /** The world and its history grow by one resource; at most one task knows of it. */
  lemma KeepBirth(c: Config, s: State, s': State, tid: TaskId, rid: ResId)
    requires Inv(c, s) && rid !in s.born && rid in s'.born && s'.born == s.born[rid := s'.born[rid]]
    requires BirthOk(s', s'.born[rid]) && s'.now == s.now
    requires s'.rows == s.rows && s'.inserting == s.inserting && s'.issued == s.issued
    requires OthersSame(s, s', tid) && ClaimsFresh(s, s', tid)
    requires tid in s'.workers ==> WorkerOk(c, s', s'.workers[tid])
    ensures RowsOk(s') && WorkersOk(c, s') && Exclusive(s')
    ensures forall r :: r in s'.born ==> BirthOk(s', s'.born[r])
  {
    KeepWorkers(c, s, s', tid);
    KeepExclusive(c, s, s', tid);
    forall id | id in s.rows
      ensures RowOk(s', id, s.rows[id])
    {
      assert RowOk(s, id, s.rows[id]);
    }
    assert forall id :: id in s.inserting ==> RowOk(s', id, s.inserting[id]);
    assert forall r :: r in s.born ==> BirthOk(s, s.born[r]);
  }

  lemma WorldWithContainer(s: State, rid: ResId, k: Container)
    requires BirthsOk(s) && OwnNetworksOnly(s.world) && rid !in s.born
    requires k.network.Some? && k.network.value in s.world.networks ==> s.world.networks[k.network.value].tag == k.tag
    ensures OwnNetworksOnly(AddContainer(s, rid, k).world)
    ensures BirthOk(s, Birth(k.tag, k.createdAt)) ==> BirthsOk(AddContainer(s, rid, k))
  {
    var s' := AddContainer(s, rid, k);
    assert forall r :: r in s.born ==> BirthOk(s', s.born[r]);
  }

  lemma WorldWithNetwork(s: State, rid: ResId, n: Network)
    requires BirthsOk(s) && OwnNetworksOnly(s.world) && rid !in s.born && Attached(s.world, rid) == {}
    ensures OwnNetworksOnly(AddNetwork(s, rid, n).world)
    ensures BirthOk(s, Birth(n.tag, n.createdAt)) ==> BirthsOk(AddNetwork(s, rid, n))
  {
    var s' := AddNetwork(s, rid, n);
    assert forall id :: id in s.world.containers && s.world.containers[id].network == Some(rid) ==> id in Attached(s.world, rid);
    assert forall r :: r in s.born ==> BirthOk(s', s.born[r]);
  }

  lemma KeepForeignContainer(c: Config, s: State, rid: ResId, k: Container)
    requires Inv(c, s) && Enabled(c, s, ForeignContainer(rid, k))
    ensures Inv(c, AddContainer(s, rid, k))
  {
    var tid := Unused(s.workers.Keys);
    KeepBirth(c, s, AddContainer(s, rid, k), tid, rid);
    WorldWithContainer(s, rid, k);
  }

  lemma KeepForeignNetwork(c: Config, s: State, rid: ResId, n: Network)
    requires Inv(c, s) && Enabled(c, s, ForeignNetwork(rid, n))
    ensures Inv(c, AddNetwork(s, rid, n))
  {
    var tid := Unused(s.workers.Keys);
    KeepBirth(c, s, AddNetwork(s, rid, n), tid, rid);
    WorldWithNetwork(s, rid, n);
  }

  lemma KeepProvisionNetwork(c: Config, s: State, tid: TaskId, rid: ResId, answered: bool)
    requires Inv(c, s) && ProvisionAt(s, tid, Working) && rid !in s.born && Attached(s.world, rid) == {}
    ensures Inv(c, DoProvisionNetwork(s, tid, rid, answered))
  {
    var s' := DoProvisionNetwork(s, tid, rid, answered);
    var a, b := s.workers[tid].attempt, s'.workers[tid].attempt;
    var n := Network(NetworkName(a.env), Some(Canonical(a.env)), Some(s.now));
    assert AttemptOk(s, a) by { assert WorkerOk(c, s, s.workers[tid]); }
    MadeOneMore(s, s', a, b, rid);
    KeepBirth(c, s, s', tid, rid);
    WorldWithNetwork(s, rid, n);
  }

  lemma KeepProvisionContainer(c: Config, s: State, tid: TaskId, rid: ResId, started: bool)
    requires Inv(c, s) && ProvisionAt(s, tid, Working) && rid !in s.born && s.workers[tid].attempt.network.Some?
    requires s.workers[tid].attempt.ready < |s.workers[tid].attempt.order|
    ensures Inv(c, DoProvisionContainer(s, tid, rid, started))
  {
    var s' := DoProvisionContainer(s, tid, rid, started);
    var a, b := s.workers[tid].attempt, s'.workers[tid].attempt;
    var role := a.order[a.ready].role;
    var k := Container(ContainerName(a.env, role), Some(Canonical(a.env)), role, a.network, Some(s.now));
    assert AttemptOk(s, a) by { assert WorkerOk(c, s, s.workers[tid]); }
    MadeOneMore(s, s', a, b, rid);
    KeepBirth(c, s, s', tid, rid);
    assert BornAs(s, a.network.value, Canonical(a.env));
    WorldWithContainer(s, rid, k);
  }

  lemma MadeOneMore(s: State, s': State, a: Attempt, b: Attempt, rid: ResId)
    requires AttemptOk(s, a) && a.phase == Working && rid !in s.born && s'.now == s.now && s'.rows == s.rows
    requires s'.born == s.born[rid := Birth(Some(Canonical(a.env)), Some(s.now))]
    requires b.env == a.env && b.made == a.made + {rid} && b.loadedAt == a.loadedAt && b.phase != Loading
    requires b.firstMade == if a.firstMade.Some? then a.firstMade else Some(s.now)
    requires b.network == a.network || b.network == Some(rid)
    requires b.containers == a.containers || b.containers == a.containers + [rid]
    ensures AttemptOk(s', b)
  {
  }

  /** Removing things disturbs no invariant: history stays, and the rest of the queue is still someone's to remove. */
  lemma KeepRemoveNext(c: Config, s: State, tid: TaskId, obeyed: bool)
    requires Inv(c, s) && tid in s.workers && QueueOf(s.workers[tid]) != NOTHING
    ensures Inv(c, DoRemoveNext(s, tid, obeyed))
  {
    var s' := DoRemoveNext(s, tid, obeyed);
    var mid := s'.(world := s.world);
    var q, q' := QueueOf(s.workers[tid]), QueueOf(s'.workers[tid]);
    assert Queued(q') <= Queued(q);
    assert WorkerOk(c, s, s.workers[tid]);
    assert WorkerOk(c, mid, mid.workers[tid]);
    KeepQuiet(c, s, mid, tid);
    SmallerWorld(c, mid, s');
  }

  lemma SmallerWorld(c: Config, s: State, s': State)
    requires Inv(c, s) && s' == s.(world := s'.world) && Sub(s'.world, s.world)
    ensures Inv(c, s')
  {
    assert forall r :: r in s.born ==> BirthOk(s', s.born[r]);
    assert forall id :: id in s.rows ==> RowOk(s, id, s.rows[id]) ==> RowOk(s', id, s.rows[id]);
    assert forall id :: id in s.inserting ==> RowOk(s, id, s.inserting[id]) ==> RowOk(s', id, s.inserting[id]);
    var tid := Unused(s.workers.Keys);
    KeepWorkers(c, s, s', tid);
    assert OwnNetworksOnly(s'.world);
  }

  /** Steps in which a task arrives, leaves or only talks to the broker. */
  predicate Passing(step: Step) {
    step.DeleteRequest? || step.Lose? || step.Deliver? || step.Leave? || step.Unwind? || step.ReapSend?
  }

  lemma KeepPassing(c: Config, s: State, step: Step)
    requires Inv(c, s) && Enabled(c, s, step) && Passing(step)
    ensures Inv(c, Apply(c, s, step))
  {
    if step.DeleteRequest? || step.Lose? {
      KeepSending(c, s, step);
    } else {
      KeepComing(c, s, step);
    }
  }

  lemma KeepSending(c: Config, s: State, step: Step)
    requires Inv(c, s) && Enabled(c, s, step) && (step.DeleteRequest? || step.Lose?)
    ensures Inv(c, Apply(c, s, step))
  {
    KeepBroker(c, s, Apply(c, s, step));
  }

  lemma KeepComing(c: Config, s: State, step: Step)
    requires Inv(c, s) && Enabled(c, s, step) && (step.Deliver? || step.Leave? || step.Unwind? || step.ReapSend?)
    ensures Inv(c, Apply(c, s, step))
  {
    match step {
      case Deliver(tid, msg, acked) => KeepDelivery(c, s, step);
      case Leave(tid) => KeepLeaving(c, s, Drop(s, tid), tid);
      case Unwind(tid) => KeepUnwind(c, s, tid);
      case ReapSend(tid) => KeepReapSend(c, s, step);
    }
  }

  lemma KeepDelivery(c: Config, s: State, step: Step)
    requires Inv(c, s) && Enabled(c, s, step) && step.Deliver?
    ensures Inv(c, Apply(c, s, step))
  {
    KeepDeliver(c, s, Apply(c, s, step), step.tid, step.msg);
  }

  lemma KeepReapSend(c: Config, s: State, step: Step)
    requires Inv(c, s) && Enabled(c, s, step) && step.ReapSend?
    ensures Inv(c, Apply(c, s, step))
  {
    KeepArrival(c, s, Apply(c, s, step), step.tid);
  }

  lemma KeepBroker(c: Config, s: State, s': State)
    requires Inv(c, s) && s' == s.(bag := s'.bag)
    ensures Inv(c, s')
  {
    var tid := Unused(s.workers.Keys);
    KeepArrival(c, s, s', tid);
  }

  lemma KeepDeliver(c: Config, s: State, s': State, tid: TaskId, msg: Message)
    requires Inv(c, s) && tid !in s.workers && s' == SetWorker(s, tid, Start(s, msg)).(bag := s'.bag)
    ensures Inv(c, s')
  {
    KeepArrival(c, s, s', tid);
  }

  lemma KeepLeaving(c: Config, s: State, s': State, tid: TaskId)
    requires Inv(c, s) && s' == Drop(s, tid).(bag := s'.bag)
    ensures Inv(c, s')
  {
    KeepArrival(c, s, s', tid);
  }

  lemma KeepUnwind(c: Config, s: State, tid: TaskId)
    requires Inv(c, s) && IsTask(s, tid) && (PhaseOf(s.workers[tid]).Marked? || PhaseOf(s.workers[tid]).Raised?)
    ensures Inv(c, DoUnwind(s, tid))
  {
    KeepLeaving(c, s, DoUnwind(s, tid), tid);
  }

  predicate ApiOrForeign(step: Step) {
    step.Tick? || step.ForeignContainer? || step.ForeignNetwork? || step.CreateRequest? || step.CreateCommit?
    || step.CreateAbort?
  }

  lemma KeepApiOrForeign(c: Config, s: State, step: Step)
    requires Inv(c, s) && Enabled(c, s, step) && ApiOrForeign(step)
    ensures Inv(c, Apply(c, s, step))
  {
    if step.Tick? {
      KeepTickStep(c, s, step);
    } else if step.ForeignContainer? || step.ForeignNetwork? {
      KeepForeign(c, s, step);
    } else {
      KeepCreating(c, s, step);
    }
  }

  lemma KeepTickStep(c: Config, s: State, step: Step)
    requires Inv(c, s) && step.Tick?
    ensures Inv(c, Apply(c, s, step))
  {
    KeepTick(c, s, Apply(c, s, step));
  }

  lemma KeepForeign(c: Config, s: State, step: Step)
    requires Inv(c, s) && Enabled(c, s, step) && (step.ForeignContainer? || step.ForeignNetwork?)
    ensures Inv(c, Apply(c, s, step))
  {
    match step {
      case ForeignContainer(rid, k) => KeepForeignContainer(c, s, rid, k);
      case ForeignNetwork(rid, n) => KeepForeignNetwork(c, s, rid, n);
    }
  }

  lemma KeepCreating(c: Config, s: State, step: Step)
    requires Inv(c, s) && Enabled(c, s, step) && (step.CreateRequest? || step.CreateCommit? || step.CreateAbort?)
    ensures Inv(c, Apply(c, s, step))
  {
    match step {
      case CreateRequest(env, owner, name, template, ttl) => KeepNewRequest(c, s, step);
      case CreateCommit(env) => KeepCreateCommit(c, s, env);
      case CreateAbort(env) => KeepAbort(c, s, env);
    }
  }

  predicate BySweep(step: Step) {
    step.ReapClaim? || step.Recover? || step.ListContainers? || step.ListNetworks? || step.CheckLabel?
  }

  lemma KeepBySweep(c: Config, s: State, step: Step)
    requires Inv(c, s) && Enabled(c, s, step) && BySweep(step)
    ensures Inv(c, Apply(c, s, step))
  {
    match step {
      case ReapClaim(tid, order) => KeepReapClaim(c, s, tid, order);
      case Recover => KeepRecover(c, s);
      case ListContainers(tid, cutoff) => KeepListContainers(c, s, tid, Apply(c, s, step).workers[tid].pass);
      case ListNetworks(tid) => KeepListNetworks(c, s, tid);
      case CheckLabel(tid, tag, cids, nids) => KeepCheckLabel(c, s, tid, tag, cids, nids);
    }
  }

  /** Every step keeps the invariant. */
  lemma InvStep(c: Config, s: State, step: Step)
    requires Inv(c, s) && Enabled(c, s, step)
    ensures Inv(c, Apply(c, s, step))
  {
    if Passing(step) {
      KeepPassing(c, s, step);
    } else if ApiOrForeign(step) {
      KeepApiOrForeign(c, s, step);
    } else if BySweep(step) {
      KeepBySweep(c, s, step);
    } else {
      match step {
        case ProvisionLoad(tid) => KeepProvisionLoad(c, s, tid);
        case ProvisionNetwork(tid, rid, answered) => KeepProvisionNetwork(c, s, tid, rid, answered);
        case ProvisionContainer(tid, rid, started) => KeepProvisionContainer(c, s, tid, rid, started);
        case RoleReady(tid) => KeepRoleReady(c, s, tid);
        case ProvisionCommit(tid, port, raised) => KeepProvisionCommit(c, s, tid, port, raised);
        case TeardownLoad(tid) => KeepTeardownLoad(c, s, tid);
        case TeardownCommit(tid) => KeepTeardownCommit(c, s, tid);
        case Raise(tid, valueError) => KeepRaise(c, s, tid, valueError);
        case MarkFailed(tid, saved, text) => KeepMarkFailed(c, s, tid, saved, text);
        case RemoveNext(tid, obeyed) => KeepRemoveNext(c, s, tid, obeyed);
      }
    }
  }

  lemma KeepAbort(c: Config, s: State, env: EnvId)
    requires Inv(c, s)
    ensures Inv(c, s.(inserting := s.inserting - {env}))
  {
    var s' := s.(inserting := s.inserting - {env});
    assert forall r :: r in s.born ==> BirthOk(s', s.born[r]);
    assert forall id :: id in s.rows ==> RowOk(s, id, s.rows[id]) ==> RowOk(s', id, s.rows[id]);
    assert forall id :: id in s.inserting ==> RowOk(s, id, s.inserting[id]) ==> RowOk(s', id, s.inserting[id]);
    var tid := Unused(s.workers.Keys);
    KeepWorkers(c, s, s', tid);
  }

  /** The invariant holds in every state of every run. */
  lemma {:induction false} InvAt(c: Config, states: seq<State>, steps: seq<Step>, i: nat)
    requires Run(c, states, steps) && i < |states|
    ensures Inv(c, states[i])
  {
    if i == 0 {
      InvInit(c, states[0]);
    } else {
      InvAt(c, states, steps, i - 1);
      InvNext(c, states, steps, i - 1);
    }
  }

  lemma InvNext(c: Config, states: seq<State>, steps: seq<Step>, i: nat)
    requires Run(c, states, steps) && i < |steps| && Inv(c, states[i])
    ensures Inv(c, states[i + 1])
  {
    assert StepAt(c, states, steps, i);
    InvStep(c, states[i], steps[i]);
  }
}

/** The two queued tasks, attempt by attempt, and the chain of attempts that one message sets off. */
module Tasks {
  import opened Lifecycle
  import opened Worlds
  import opened Protocol
  import opened Orm
  import opened Templates
  import opened Docker
  import opened Sweeps

  datatype Outcome = SUCCESS | RETRY | FAILURE

  const UNKNOWN_TEMPLATE := "unknown"

  datatype Tally = Tally(template: string, outcome: Outcome)

  /** The counters and the histogram, as the observations they received. */
  class Metrics {
    var provisions: seq<Tally>
    var durations: seq<Time>
    var teardowns: seq<Outcome>

    method CountProvision(template: string, outcome: Outcome)
      modifies this`provisions
      ensures provisions == old(provisions) + [Tally(template, outcome)]
    {
      provisions := provisions + [Tally(template, outcome)];
    }

    method Observe(duration: Time)
      modifies this`durations
      ensures durations == old(durations) + [duration]
    {
      durations := durations + [duration];
    }

    method CountTeardown(outcome: Outcome)
      modifies this`teardowns
      ensures teardowns == old(teardowns) + [outcome]
    {
      teardowns := teardowns + [outcome];
    }
  }

  datatype TaskError = NoRow | DbError | Refused(why: Failure)

  /** Everything but a ValueError is worth another attempt. */
  predicate Retryable(e: TaskError) {
    match e
    case NoRow => false
    case DbError => true
    case Refused(why) => !IsValueError(why)
  }

  function Pow2(n: nat): nat {
    if n == 0 then 1 else 2 * Pow2(n - 1)
  }

  function Backoff(retries: nat): nat {
    Pow2(retries) * 10 * SECOND
  }

  // ---- Late writes ---------------------------------------------------------

  /** The update of one column reaches the stored row, or the row holds that value already. */
  predicate Lands<T(==)>(stored: T, loaded: T, value: T) {
    loaded == value ==> stored == value
  }

  /**
   * What the commit of a provision stores, whatever others wrote since the row was loaded: the row runs, also if
   * it was stopped or failed meanwhile; and the update is whole exactly when every column it skips is right.
   */
  lemma LaunchOverwrites(stored: Row, loaded: Row, network: ResId, containers: seq<ResId>, port: nat, now: Time)
    requires loaded.status != Running
    ensures var r := Launched(loaded, network, containers, port, now);
            && Merge(stored, loaded, r).status == Running
            && (loaded.networkId != Some(network) ==> Merge(stored, loaded, r).networkId == Some(network))
            && (loaded.containerIds != containers ==> Merge(stored, loaded, r).containerIds == containers)
            && (loaded.hostPort != Some(port) ==> Merge(stored, loaded, r).hostPort == Some(port))
            && (loaded.startedAt != Some(now) ==> Merge(stored, loaded, r).startedAt == Some(now))
            && (loaded.expiresAt != Some(now + loaded.ttl * 1_000_000) ==>
                  Merge(stored, loaded, r).expiresAt == Some(now + loaded.ttl * 1_000_000))
            && (stored.ttl == loaded.ttl ==> (Merge(stored, loaded, r) == Launched(stored, network, containers, port, now) <==>
                 && Lands(stored.statusChangedAt, loaded.statusChangedAt, r.statusChangedAt)
                 && Lands(stored.networkId, loaded.networkId, r.networkId)
                 && Lands(stored.containerIds, loaded.containerIds, r.containerIds)
                 && Lands(stored.hostPort, loaded.hostPort, r.hostPort)
                 && Lands(stored.startedAt, loaded.startedAt, r.startedAt)
                 && Lands(stored.expiresAt, loaded.expiresAt, r.expiresAt)))
  {
  }

  /** Likewise for a teardown: the row is stopped, and keeps what others recorded in it. */
  lemma StopOverwrites(stored: Row, loaded: Row, now: Time)
    requires loaded.status != Stopped
    ensures var r := Stop(loaded, now);
            && Merge(stored, loaded, r).status == Stopped
            && (loaded.stoppedAt != Some(now) ==> Merge(stored, loaded, r).stoppedAt == Some(now))
            && Recorded(Merge(stored, loaded, r)) == Recorded(stored)
            && (Merge(stored, loaded, r) == Stop(stored, now) <==>
                 && Lands(stored.statusChangedAt, loaded.statusChangedAt, r.statusChangedAt)
                 && Lands(stored.stoppedAt, loaded.stoppedAt, r.stoppedAt))
  {
  }

  // ---- Sessions ------------------------------------------------------------

  method LoadEnv(session: Session, id: EnvId) returns (r: Result<Environment, TaskError>)
    modifies session`view
    ensures session.view == session.db.rows
    ensures r.Ok? ==> id in session.db.rows && fresh(r.value) && r.value.id == id
                      && r.value.loaded == r.value.AsRow() == session.db.rows[id]
    ensures r == Err(NoRow) ==> id !in session.db.rows
    ensures r.Ok? || r.error in {NoRow, DbError}
    ensures session.db.reliable ==> r != Err(DbError)
  {
    var answered := *;
    var env := session.Load(id);
    if !answered && !session.db.reliable {
      return Err(DbError);
    }
    if env == null {
      return Err(NoRow);
    }
    return Ok(env);
  }

  /** Commits one changed object; others may have written since it was loaded, and its columns go on top. */
  method Save(session: Session, env: Environment) returns (ok: bool)
    requires env.id in session.db.rows
    modifies session`view, session.db`rows, env`loaded
    ensures env.AsRow() == old(env.AsRow()) && env.loaded == env.AsRow()
    ensures session.db.rows ==
            if ok then old(session.db.rows)[env.id := Merge(old(session.db.rows)[env.id], old(env.loaded), env.AsRow())]
            else old(session.db.rows)
    ensures session.db.reliable ==> ok
  {
    session.Begin();
    session.Flush(env);
    ok := session.Commit();
  }

  /** Best effort: it never raises, and either fails the row as it is now or leaves the table alone. */
  method MarkFailed(db: Database, id: EnvId, text: string, now: Time) returns (ghost saved: bool)
    modifies db`rows
    ensures saved ==> id in old(db.rows)
    ensures db.rows == if saved then old(db.rows)[id := FailWith(old(db.rows)[id], Message(Cut(text)), now)] else old(db.rows)
    ensures saved ==> db.rows[id] == old(db.rows)[id].(status := Failed, statusChangedAt := Some(now),
                                                       error := Some(Message(if |text| <= 500 then text else text[..500])))
    ensures db.reliable && id in old(db.rows) ==> saved
  {
    var session := new Session(db);
    var r := LoadEnv(session, id);
    saved := false;
    if r.Ok? {
      var env := r.value;
      env.SetStatus(Failed, now);
      env.error := Some(Message(Cut(text)));
      MergeKeepsOthers(db.rows[id], env.loaded, env.AsRow());
      var ok := Save(session, env);
      saved := ok;
    }
  }

  // ---- provision_environment -----------------------------------------------

  /** The row a provision commits over the table it finds: the stack it built, written over the row it loaded. */
  function RunningTable(before: Table, id: EnvId, loaded: Row, stack: StackResult, now: Time): Table
    requires id in before
  {
    before[id := Merge(before[id], loaded, Launched(loaded, stack.networkId, stack.containerIds, stack.hostPort, now))]
  }

  /** Loads the row and commits a start status; the label for the metrics is known once the row is. */
  method BeginAttempt(session: Session, id: EnvId, s: Status, now: Time) returns (r: Result<Environment, TaskError>, template: string)
    modifies session`view, session.db`rows
    ensures r.Ok? ==>
              && id in old(session.db.rows) && template == old(session.db.rows)[id].template
              && session.db.rows == old(session.db.rows)[id := SetStatus(old(session.db.rows)[id], s, now)]
              && fresh(r.value) && r.value.id == id && r.value.loaded == r.value.AsRow() == session.db.rows[id]
    ensures r.Err? ==> !r.error.Refused? && session.db.rows == old(session.db.rows)
    ensures r.Err? ==> template == UNKNOWN_TEMPLATE || (id in old(session.db.rows) && template == old(session.db.rows)[id].template)
    ensures id in old(session.db.rows) ==> r != Err(NoRow)
    ensures session.db.reliable ==> r != Err(DbError)
  {
    template := UNKNOWN_TEMPLATE;
    r := LoadEnv(session, id);
    if r.Ok? {
      template := r.value.template;
      r.value.SetStatus(s, now);
      MergeKeepsOthers(session.db.rows[id], r.value.loaded, r.value.AsRow());
      var ok := Save(session, r.value);
      if !ok {
        r := Err(DbError);
      }
    }
  }

  /** Writes the stack into the row and commits. */
  method Launch(session: Session, env: Environment, stack: StackResult, now: Time) returns (ok: bool)
    requires env.id in session.db.rows && env.loaded == env.AsRow()
    modifies env, session`view, session.db`rows
    ensures session.db.rows ==
            if ok then RunningTable(old(session.db.rows), env.id, old(env.AsRow()), stack, now) else old(session.db.rows)
    ensures session.db.reliable ==> ok
  {
    env.SetStatus(Running, now);
    env.networkId := Some(stack.networkId);
    env.containerIds := stack.containerIds;
    env.hostPort := Some(stack.hostPort);
    env.startedAt := Some(now);
    env.expiresAt := Some(now + env.ttl * SECOND);
    assert env.AsRow() == Launched(old(env.AsRow()), stack.networkId, stack.containerIds, stack.hostPort, now);
    ok := Save(session, env);
  }

  /** The failed call, if that is what an attempt met. */
  function CallFailed(r: Result<StackResult, TaskError>): seq<ApiError> {
    if r.Err? && r.error.Refused? && r.error.why.Api? then [r.error.why.error] else []
  }

  /** The body of the try: load, PROVISIONING, the stack, RUNNING. Others may write while Docker is at work. */
  method TryProvision(db: Database, manager: DockerManager, id: EnvId)
    returns (r: Result<StackResult, TaskError>, template: string, ghost before: Table, ghost views: seq<View>)
    requires manager.daemon.Valid()
    modifies db`rows, manager.daemon`world, manager.daemon`now, manager.daemon`nextId, manager.daemon`observed, manager.daemon`errors, manager`trace
    ensures manager.daemon.Valid() && old(manager.daemon.now) <= manager.daemon.now
    ensures GrewFor(old(manager.daemon.world), manager.daemon.world, id, old(manager.daemon.now), manager.daemon.now)
    ensures old(db.rows).Keys <= db.rows.Keys
    ensures id !in old(db.rows) ==>
              r.Err? && !r.error.Refused? && db.rows == old(db.rows) && manager.daemon.world == old(manager.daemon.world)
    ensures id in old(db.rows) ==> r != Err(NoRow)
    ensures db.reliable ==> r != Err(DbError)
    ensures template == UNKNOWN_TEMPLATE || (id in old(db.rows) && template == old(db.rows)[id].template)
    ensures r.Ok? || db.reliable ==>
              template == if id in old(db.rows) then old(db.rows)[id].template else UNKNOWN_TEMPLATE
    ensures r.Err? && r.error.Refused? ==>
              && id in old(db.rows) && template == old(db.rows)[id].template
              && manager.FailsFor(template, r.error.why, views, old(manager.daemon.now))
    ensures manager.daemon.errors == old(manager.daemon.errors) + CallFailed(r)
    ensures r == Err(DbError) ==>
              || (manager.daemon.world == old(manager.daemon.world) && manager.trace == old(manager.trace))
              || (manager.Known(template) && manager.trace == old(manager.trace) + StartTrace(StartOrder(manager.templates[template])))
    ensures r.Ok? ==>
              && id in old(db.rows) && id in before
              && db.rows == RunningTable(before, id, SetStatus(old(db.rows)[id], Provisioning, old(manager.daemon.now)),
                                         r.value, manager.daemon.now)
              && manager.Known(template)
              && manager.Succeeded(old(manager.daemon.world), r.value, id, StartOrder(manager.templates[template]))
              && manager.daemon.now <= old(manager.daemon.now) + manager.AttemptLimit(template)
  {
    before, views := db.rows, [];
    var session := new Session(db);
    var l, name := BeginAttempt(session, id, Provisioning, manager.daemon.now);
    template := name;
    if l.Err? {
      return Err(l.error), template, before, views;
    }
    var p, ids, seen := manager.Provision(id, template);
    views := seen;
    db.Others();
    if p.Err? {
      return Err(Refused(p.error)), template, before, views;
    }
    before := db.rows;
    var ok := Launch(session, l.value, p.value, manager.daemon.now);
    r := if ok then Ok(p.value) else Err(DbError);
  }

  /** Does a failed attempt come back? */
  predicate Again(e: TaskError, retries: nat) {
    Retryable(e) && retries < PROVISION_RETRIES
  }

  /** The except branch: the row is marked, the outcome counted, and the next attempt sent or not. */
  method GiveUpOrRetry(db: Database, broker: Broker, metrics: Metrics, id: EnvId, retries: nat, e: TaskError,
                       template: string, now: Time) returns (outcome: Outcome)
    modifies db`rows, broker, metrics`provisions
    ensures outcome == if e !in {NoRow, Refused(UnknownTemplate), Refused(BadPlaceholder)} && retries < 3 then RETRY else FAILURE
    ensures metrics.provisions == old(metrics.provisions) + [Tally(template, outcome)]
    ensures outcome == FAILURE ==> broker.queue == old(broker.queue)
    ensures outcome == RETRY ==> broker.queue == old(broker.queue) + [Sent(ProvisionMsg(id, retries + 1), Countdown(retries))]
    ensures broker.queue == old(broker.queue) + Resent(id, retries, outcome)
    ensures old(db.rows).Keys <= db.rows.Keys
    ensures db.reliable && id in old(db.rows) ==> db.rows[id].status == Failed
  {
    var text: string := *;
    assert retries < 3 ==> Backoff(retries) == Countdown(retries) by {
      assert Pow2(0) == 1 && Pow2(1) == 2 && Pow2(2) == 4;
    }
    db.Others();
    var saved := MarkFailed(db, id, text, now);
    outcome := if Again(e, retries) then RETRY else FAILURE;
    metrics.CountProvision(template, outcome);
    if outcome == RETRY {
      broker.Send(ProvisionMsg(id, retries + 1), Backoff(retries));
    }
  }

  /** The three countdowns there can be, in microseconds. */
  function Countdown(retries: nat): nat {
    if retries == 0 then 10_000_000 else if retries == 1 then 20_000_000 else 40_000_000
  }

  function OutcomeOf(r: Result<StackResult, TaskError>, retries: nat): Outcome {
    if r.Ok? then SUCCESS else if Again(r.error, retries) then RETRY else FAILURE
  }

  /** The message an attempt leaves behind. */
  function Resent(id: EnvId, retries: nat, outcome: Outcome): seq<Sent> {
    if outcome == RETRY then [Sent(ProvisionMsg(id, retries + 1), Backoff(retries))] else []
  }

  /**
   * One attempt. It counts one outcome and, if it succeeded, one duration, no longer than its template allows; it
   * sends itself again exactly when it counts a retry; whatever it leaves in Docker carries its label. With a
   * database that fails nothing, the row ends RUNNING or FAILED.
   */
  method ProvisionEnvironment(db: Database, manager: DockerManager, broker: Broker, metrics: Metrics, id: EnvId, retries: nat)
    returns (outcome: Outcome, ghost template: string, ghost r: Result<StackResult, TaskError>, ghost before: Table,
             ghost views: seq<View>)
    requires manager.daemon.Valid()
    modifies db`rows, manager.daemon`world, manager.daemon`now, manager.daemon`nextId, manager.daemon`observed, manager.daemon`errors, manager`trace
    modifies broker, metrics`provisions, metrics`durations
    ensures manager.daemon.Valid() && old(manager.daemon.now) <= manager.daemon.now
    ensures GrewFor(old(manager.daemon.world), manager.daemon.world, id, old(manager.daemon.now), manager.daemon.now)
    ensures metrics.provisions == old(metrics.provisions) + [Tally(template, outcome)]
    ensures metrics.durations == old(metrics.durations) +
                                 (if outcome == SUCCESS then [manager.daemon.now - old(manager.daemon.now)] else [])
    ensures broker.queue == old(broker.queue) + Resent(id, retries, outcome)
    ensures outcome == OutcomeOf(r, retries)
    ensures r.Ok? <==> outcome == SUCCESS
    ensures r.Err? && r.error in {NoRow, Refused(UnknownTemplate), Refused(BadPlaceholder)} ==>
              outcome == FAILURE && broker.queue == old(broker.queue)
    ensures r.Err? && r.error !in {NoRow, Refused(UnknownTemplate), Refused(BadPlaceholder)} && retries < 3 ==>
              && outcome == RETRY
              && broker.queue == old(broker.queue) + [Sent(ProvisionMsg(id, retries + 1), Countdown(retries))]
    ensures r.Err? && retries >= 3 ==> outcome == FAILURE && broker.queue == old(broker.queue)
    ensures db.reliable ==> template == if id in old(db.rows) then old(db.rows)[id].template else "unknown"
    ensures id !in old(db.rows) ==> r.Err? && !r.error.Refused?
    ensures r == Err(NoRow) ==> id !in old(db.rows)
    ensures r == Err(DbError) ==> !db.reliable
    ensures r.Err? && r.error.Refused? ==>
              id in old(db.rows) && manager.FailsFor(old(db.rows)[id].template, r.error.why, views, old(manager.daemon.now))
    ensures manager.daemon.errors == old(manager.daemon.errors) + CallFailed(r)
    ensures r.Ok? ==>
              && id in old(db.rows) && template == old(db.rows)[id].template && manager.Known(template)
              && manager.daemon.now - old(manager.daemon.now) <= manager.AttemptLimit(template)
              && manager.Succeeded(old(manager.daemon.world), r.value, id, StartOrder(manager.templates[template]))
    ensures r.Ok? ==>
              && id in before
              && db.rows == RunningTable(before, id, SetStatus(old(db.rows)[id], Provisioning, old(manager.daemon.now)),
                                         r.value, manager.daemon.now)
    ensures old(db.rows).Keys <= db.rows.Keys
    ensures r.Ok? ==> id in db.rows && db.rows[id].status == Running
    ensures r.Err? && db.reliable && id in old(db.rows) ==> db.rows[id].status == Failed
  {
    var started := manager.daemon.now;
    ghost var rows := db.rows;
    var tried, name, b, seen := TryProvision(db, manager, id);
    template, r, before, views := name, tried, b, seen;
    if tried.Ok? {
      LaunchOverwrites(before[id], SetStatus(rows[id], Provisioning, started), r.value.networkId,
                       r.value.containerIds, r.value.hostPort, manager.daemon.now);
      metrics.CountProvision(name, SUCCESS);
      metrics.Observe(manager.daemon.now - started);
      outcome := SUCCESS;
    } else {
      outcome := GiveUpOrRetry(db, broker, metrics, id, retries, tried.error, name, manager.daemon.now);
    }
  }

  // ---- The chain of attempts -----------------------------------------------

  /** What k attempts that were retried, and one that was not, add to the counter. */
  predicate ChainCounted(before: seq<Tally>, after: seq<Tally>, k: nat, last: Outcome) {
    && |after| == |before| + k + 1 && after[..|before|] == before
    && (forall i :: |before| <= i < |before| + k ==> after[i].outcome == RETRY)
    && after[|before| + k].outcome == last
  }

  lemma Waited(k: nat)
    ensures k > 0 ==> 10 * (Pow2(k) - 1) * SECOND == 10 * (Pow2(k - 1) - 1) * SECOND + Backoff(k - 1)
    ensures k <= 3 ==> 10 * (Pow2(k) - 1) * SECOND == WaitedFor(k)
  {
    if k <= 3 {
      assert Pow2(1) == 2 && Pow2(2) == 4 && Pow2(3) == 8;
    }
  }

  lemma OneMoreAttempt(before: seq<Tally>, mid: seq<Tally>, k: nat, t: Tally)
    requires ChainCounted(before, mid, k, RETRY)
    ensures ChainCounted(before, mid + [t], k + 1, t.outcome)
  {
  }

  /** What the chain needs to know of one attempt. */
  twostate predicate Attempted(db: Database, metrics: Metrics, id: EnvId, retries: nat, t: Tally)
    reads db, metrics
  {
    && metrics.provisions == old(metrics.provisions) + [t]
    && |metrics.durations| == |old(metrics.durations)| + (if t.outcome == SUCCESS then 1 else 0)
    && old(db.rows).Keys <= db.rows.Keys
    && (t.outcome == RETRY ==> retries < PROVISION_RETRIES)
    && (t.outcome == SUCCESS ==> id in old(db.rows) && Ended(db, id, t.outcome))
    && (db.reliable && id in old(db.rows) ==> Ended(db, id, t.outcome))
  }

  /** The last status an attempt with this outcome wrote. */
  predicate Ended(db: Database, id: EnvId, outcome: Outcome)
    reads db
  {
    id in db.rows && db.rows[id].status == if outcome == SUCCESS then Running else Failed
  }

  method Attempt(db: Database, manager: DockerManager, broker: Broker, metrics: Metrics, id: EnvId, retries: nat)
    returns (outcome: Outcome, ghost t: Tally, ghost e: Option<TaskError>)
    requires manager.daemon.Valid()
    modifies db`rows, manager.daemon`world, manager.daemon`now, manager.daemon`nextId, manager.daemon`observed, manager.daemon`errors, manager`trace
    modifies broker, metrics`provisions, metrics`durations
    ensures manager.daemon.Valid() && t.outcome == outcome
    ensures broker.queue == old(broker.queue) + Resent(id, retries, outcome)
    ensures Attempted(db, metrics, id, retries, t)
    ensures ErrorFits(e, retries, outcome)
  {
    ghost var template, r, before, views;
    outcome, template, r, before, views := ProvisionEnvironment(db, manager, broker, metrics, id, retries);
    t := Tally(template, outcome);
    e := if r.Err? then Some(r.error) else None;
  }

  /** Which error an attempt with this outcome met. */
  predicate ErrorFits(e: Option<TaskError>, retries: nat, outcome: Outcome) {
    match outcome
    case SUCCESS => e.None?
    case RETRY => e.Some? && e.value !in {NoRow, Refused(UnknownTemplate), Refused(BadPlaceholder)} && retries < 3
    case FAILURE => e.Some? && (e.value in {NoRow, Refused(UnknownTemplate), Refused(BadPlaceholder)} || retries >= 3)
  }

  /** The broker delivers the message sent last, once its countdown is over. */
  method Redeliver(db: Database, daemon: Daemon, broker: Broker) returns (next: Sent)
    requires broker.queue != []
    modifies db`rows, daemon`now, broker
    ensures next == old(broker.queue)[|old(broker.queue)| - 1]
    ensures broker.queue == old(broker.queue)[..|old(broker.queue)| - 1]
    ensures daemon.now == old(daemon.now) + next.countdown
    ensures old(daemon.Valid()) ==> daemon.Valid()
    ensures old(db.rows).Keys <= db.rows.Keys
  {
    next := broker.Take();
    daemon.Sleep(next.countdown);
    db.Others();
  }

  /** The seconds of countdown before k retries, in microseconds. */
  function WaitedFor(k: nat): nat {
    if k == 0 then 0 else if k == 1 then 10_000_000 else if k == 2 then 30_000_000 else 70_000_000
  }

  /**
   * A message whose attempts are all delivered, none of them killed: k retries, at most three, and then one
   * success or failure; a duration exactly if it succeeded; and no more than 70 seconds of countdown in all. It
   * fails only after three retries, or for an error that no retry can mend.
   */
  method ProvisionChain(db: Database, manager: DockerManager, broker: Broker, metrics: Metrics, id: EnvId)
    returns (outcome: Outcome, k: nat, waited: Time, ghost e: Option<TaskError>)
    requires manager.daemon.Valid()
    modifies db`rows, manager.daemon`world, manager.daemon`now, manager.daemon`nextId, manager.daemon`observed, manager.daemon`errors, manager`trace
    modifies broker, metrics`provisions, metrics`durations
    ensures k <= 3 && outcome != RETRY && (e.None? <==> outcome == SUCCESS)
    ensures outcome == FAILURE ==> k == 3 || e.value in {NoRow, Refused(UnknownTemplate), Refused(BadPlaceholder)}
    ensures ChainCounted(old(metrics.provisions), metrics.provisions, k, outcome)
    ensures |metrics.durations| == |old(metrics.durations)| + (if outcome == SUCCESS then 1 else 0)
    ensures waited == 10 * (Pow2(k) - 1) * SECOND == WaitedFor(k)
    ensures broker.queue == old(broker.queue)
    ensures outcome == SUCCESS || (db.reliable && id in old(db.rows)) ==> Ended(db, id, outcome)
  {
    k, waited := 0, 0;
    ghost var t;
    outcome, t, e := Attempt(db, manager, broker, metrics, id, 0);
    while outcome == RETRY
      invariant k <= PROVISION_RETRIES && manager.daemon.Valid()
      invariant outcome == RETRY ==> k < PROVISION_RETRIES
      invariant ErrorFits(e, k, outcome)
      invariant broker.queue == old(broker.queue) + Resent(id, k, outcome)
      invariant ChainCounted(old(metrics.provisions), metrics.provisions, k, outcome)
      invariant |metrics.durations| == |old(metrics.durations)| + (if outcome == SUCCESS then 1 else 0)
      invariant waited == 10 * (Pow2(k) - 1) * SECOND
      invariant old(db.rows).Keys <= db.rows.Keys
      invariant outcome == SUCCESS || (db.reliable && id in old(db.rows)) ==> Ended(db, id, outcome)
      decreases PROVISION_RETRIES - k
    {
      var next := Redeliver(db, manager.daemon, broker);
      assert next == Sent(ProvisionMsg(id, k + 1), Backoff(k)) && broker.queue == old(broker.queue);
      waited, k := waited + next.countdown, next.msg.retries;
      Waited(k);
      ghost var counted := metrics.provisions;
      outcome, t, e := Attempt(db, manager, broker, metrics, id, k);
      OneMoreAttempt(old(metrics.provisions), counted, k - 1, t);
    }
    Waited(k);
  }

  // ---- teardown_environment ------------------------------------------------

  /** The ids a teardown of this row asks Docker to remove. */
  function NetworkOf(r: Row): set<ResId> {
    if r.networkId.Some? then {r.networkId.value} else {}
  }

  /** The removal of what the row recorded, but for what Docker kept though nothing was in the way. */
  predicate TornDownBut(r: Row, w: World, v: World, containers: set<ResId>, networks: set<ResId>) {
    && containers <= ToSet(r.containerIds) && networks <= NetworkOf(r)
    && v == RemoveAll(w, ToSet(r.containerIds) - containers, NetworkOf(r) - networks)
  }

  /** Docker's part of a teardown, whatever it kept, having refused a call about it; nothing, if it is reliable. */
  ghost predicate TornDown(r: Row, w: World, v: World, reliable: bool, said: seq<Call>) {
    && Dialogue(said, r.containerIds, ListOf(r.networkId))
    && exists containers, networks ::
         && TornDownBut(r, w, v, containers, networks) && Excused(containers, networks, said)
         && (reliable ==> containers == {} == networks)
  }

  /** Only what is recorded counts. */
  lemma TornDownByIds(r: Row, q: Row, w: World, v: World, reliable: bool, said: seq<Call>)
    requires r.containerIds == q.containerIds && r.networkId == q.networkId && TornDown(r, w, v, reliable, said)
    ensures TornDown(q, w, v, reliable, said)
  {
    var containers, networks :|
      && TornDownBut(r, w, v, containers, networks) && Excused(containers, networks, said)
      && (reliable ==> containers == {} == networks);
    assert TornDownBut(q, w, v, containers, networks);
  }

  /**
   * What is left of a row's resources after its teardown: a container exactly if Docker kept it, and the network
   * exactly if Docker kept it or a container that is unlisted, or was kept, sits on it.
   */
  lemma TornDownExactly(r: Row, w: World, v: World, containers: set<ResId>, networks: set<ResId>)
    requires TornDownBut(r, w, v, containers, networks)
    ensures forall k :: k in r.containerIds && k in w.containers ==> (k in v.containers <==> k in containers)
    ensures r.networkId.Some? && r.networkId.value in w.networks ==>
              var n := r.networkId.value;
              n in v.networks <==> n in networks || !(Attached(w, n) <= ToSet(r.containerIds) - containers)
    ensures forall k :: k in w.containers && k !in r.containerIds ==> k in v.containers
    ensures forall n :: n in w.networks && r.networkId != Some(n) ==> n in v.networks
  {
    var gone := ToSet(r.containerIds) - containers;
    RemoveAllComplete(w, gone, NetworkOf(r) - networks);
    if r.networkId.Some? {
      AttachedLeft(w, gone, r.networkId.value);
      SetDifferenceEmpty(Attached(w, r.networkId.value), gone);
    }
  }

  lemma SetDifferenceEmpty<T>(a: set<T>, b: set<T>)
    ensures a - b == {} <==> a <= b
  {
    if a - b == {} {
      forall x | x in a
        ensures x in b
      {
        assert x !in a - b;
      }
    }
  }

  function StoppedTable(before: Table, id: EnvId, loaded: Row, now: Time): Table
    requires id in before
  {
    before[id := Merge(before[id], loaded, Stop(loaded, now))]
  }

  /** Marks the row stopped and commits. */
  method Retire(session: Session, env: Environment, now: Time) returns (ok: bool)
    requires env.id in session.db.rows && env.loaded == env.AsRow()
    modifies env, session`view, session.db`rows
    ensures session.db.rows ==
            if ok then StoppedTable(old(session.db.rows), env.id, old(env.AsRow()), now) else old(session.db.rows)
    ensures session.db.reliable ==> ok
  {
    env.SetStatus(Stopped, now);
    env.stoppedAt := Some(now);
    assert env.AsRow() == Stop(old(env.AsRow()), now);
    ok := Save(session, env);
  }

  /** Docker's part of a teardown, for a row as it was loaded: all of it is asked for, containers first. */
  method TearDown(manager: DockerManager, env: Environment) returns (ghost said: seq<Call>)
    modifies manager.daemon`world, manager.daemon`now, manager.daemon`asked, manager.daemon`calls
    ensures TornDown(env.AsRow(), old(manager.daemon.world), manager.daemon.world, manager.daemon.reliable, said)
    ensures manager.daemon.asked == old(manager.daemon.asked) + RequestsOf(env.AsRow())
    ensures manager.daemon.calls == old(manager.daemon.calls) + said
  {
    ghost var w := manager.daemon.world;
    var containers, networks, calls := manager.Teardown(env.containerIds, env.networkId);
    said := calls;
    assert ToSet(ListOf(env.networkId)) == NetworkOf(env.AsRow());
    assert TornDownBut(env.AsRow(), w, manager.daemon.world, containers, networks);
  }

  function RequestsOf(r: Row): seq<Request> {
    Requests(r.containerIds, ListOf(r.networkId))
  }

  /** The body of the try: load, STOPPING, the removals, STOPPED. */
  method TryTeardown(db: Database, manager: DockerManager, id: EnvId)
    returns (r: Result<(), TaskError>, ghost before: Table, ghost said: seq<Call>)
    modifies db`rows, manager.daemon`world, manager.daemon`now, manager.daemon`asked, manager.daemon`calls
    ensures old(db.rows).Keys <= db.rows.Keys
    ensures r.Err? ==> r.error in {NoRow, DbError}
    ensures id !in old(db.rows) ==> r.Err? && db.rows == old(db.rows) && manager.daemon.world == old(manager.daemon.world)
    ensures id in old(db.rows) ==> r != Err(NoRow)
    ensures db.reliable ==> r != Err(DbError)
    ensures manager.daemon.calls == old(manager.daemon.calls) + said
    ensures manager.daemon.world == old(manager.daemon.world) ||
            (id in old(db.rows) &&
             TornDown(old(db.rows)[id], old(manager.daemon.world), manager.daemon.world, manager.daemon.reliable, said))
    ensures r.Ok? ==>
              && id in old(db.rows) && id in before
              && db.rows == StoppedTable(before, id, SetStatus(old(db.rows)[id], Stopping, old(manager.daemon.now)),
                                         manager.daemon.now)
              && TornDown(old(db.rows)[id], old(manager.daemon.world), manager.daemon.world, manager.daemon.reliable, said)
              && manager.daemon.asked == old(manager.daemon.asked) + RequestsOf(old(db.rows)[id])
  {
    before, said := db.rows, [];
    var session := new Session(db);
    var l, name := BeginAttempt(session, id, Stopping, manager.daemon.now);
    if l.Err? {
      return Err(l.error), before, said;
    }
    ghost var w := manager.daemon.world;
    ghost var calls := TearDown(manager, l.value);
    said := calls;
    TornDownByIds(db.rows[id], before[id], w, manager.daemon.world, manager.daemon.reliable, said);
    db.Others();
    before := db.rows;
    var ok := Retire(session, l.value, manager.daemon.now);
    r := if ok then Ok(()) else Err(DbError);
  }

  const TEARDOWN_DELAY: nat := 5 * SECOND

  function ResentTeardown(id: EnvId, retries: nat, outcome: Outcome): seq<Sent> {
    if outcome == RETRY then [Sent(TeardownMsg(id, retries + 1), TEARDOWN_DELAY)] else []
  }

  /** The except branch: every error is tried again, a missing row's too, and only the last one marks the row. */
  method GiveUpOrRetryTeardown(db: Database, broker: Broker, metrics: Metrics, id: EnvId, retries: nat, now: Time)
    returns (outcome: Outcome, ghost saved: bool)
    modifies db`rows, broker, metrics`teardowns
    ensures outcome == if retries >= 2 then FAILURE else RETRY
    ensures outcome == RETRY ==> broker.queue == old(broker.queue) + [Sent(TeardownMsg(id, retries + 1), 5_000_000)]
    ensures metrics.teardowns == old(metrics.teardowns) + [outcome]
    ensures broker.queue == old(broker.queue) + ResentTeardown(id, retries, outcome)
    ensures old(db.rows).Keys <= db.rows.Keys
    ensures outcome == RETRY ==> db.rows == old(db.rows)
    ensures saved ==> outcome == FAILURE && id in db.rows && db.rows[id].status == Failed
    ensures saved ==> db.rows[id].error.Some? && db.rows[id].error.value.Message?
                      && "Teardown failed: " <= db.rows[id].error.value.text
    ensures outcome == FAILURE && db.reliable && id in old(db.rows) ==> saved
  {
    outcome := if retries >= TEARDOWN_RETRIES then FAILURE else RETRY;
    metrics.CountTeardown(outcome);
    saved := false;
    if outcome == FAILURE {
      var text: string := *;
      db.Others();
      var marked := MarkFailed(db, id, "Teardown failed: " + text, now);
      saved := marked;
    } else {
      broker.Send(TeardownMsg(id, retries + 1), TEARDOWN_DELAY);
    }
  }

  /**
   * One attempt. Docker's refusals are not errors here: an attempt fails only for want of a row or of the
   * database, so a STOPPED row is a promise about what was asked of Docker, and not about what Docker did.
   */
  method TeardownEnvironment(db: Database, manager: DockerManager, broker: Broker, metrics: Metrics, id: EnvId, retries: nat)
    returns (outcome: Outcome, ghost r: Result<(), TaskError>, ghost before: Table, ghost saved: bool, ghost said: seq<Call>)
    modifies db`rows, manager.daemon`world, manager.daemon`now, manager.daemon`asked, manager.daemon`calls, broker, metrics`teardowns
    ensures metrics.teardowns == old(metrics.teardowns) + [outcome]
    ensures broker.queue == old(broker.queue) + ResentTeardown(id, retries, outcome)
    ensures outcome == if r.Ok? then SUCCESS else if retries >= 2 then FAILURE else RETRY
    ensures outcome == RETRY ==> broker.queue == old(broker.queue) + [Sent(TeardownMsg(id, retries + 1), 5_000_000)]
    ensures outcome != RETRY ==> broker.queue == old(broker.queue)
    ensures r.Err? ==> (r.error == NoRow && id !in old(db.rows)) || (r.error == DbError && !db.reliable)
    ensures id !in old(db.rows) ==> r.Err?
    ensures old(db.rows).Keys <= db.rows.Keys
    ensures manager.daemon.calls == old(manager.daemon.calls) + said
    ensures manager.daemon.world == old(manager.daemon.world) ||
            (id in old(db.rows) &&
             TornDown(old(db.rows)[id], old(manager.daemon.world), manager.daemon.world, manager.daemon.reliable, said))
    ensures r.Ok? ==>
              && id in before && TornDown(old(db.rows)[id], old(manager.daemon.world), manager.daemon.world, manager.daemon.reliable, said)
              && manager.daemon.asked == old(manager.daemon.asked) + RequestsOf(old(db.rows)[id])
              && db.rows == StoppedTable(before, id, SetStatus(old(db.rows)[id], Stopping, old(manager.daemon.now)),
                                         manager.daemon.now)
    ensures outcome == SUCCESS ==> id in db.rows && db.rows[id].status == Stopped
    ensures saved ==> outcome == FAILURE && id in db.rows && db.rows[id].status == Failed
    ensures outcome == FAILURE && db.reliable && id in old(db.rows) ==> saved
  {
    ghost var rows, started := db.rows, manager.daemon.now;
    var tried, b, calls := TryTeardown(db, manager, id);
    r, before, saved, said := tried, b, false, calls;
    if tried.Ok? {
      StopOverwrites(before[id], SetStatus(rows[id], Stopping, started), manager.daemon.now);
      metrics.CountTeardown(SUCCESS);
      outcome := SUCCESS;
    } else {
      var o, marked := GiveUpOrRetryTeardown(db, broker, metrics, id, retries, manager.daemon.now);
      outcome, saved := o, marked;
    }
  }

  /** What the chain needs to know of one attempt. */
  twostate predicate TeardownAttempted(db: Database, metrics: Metrics, id: EnvId, retries: nat, outcome: Outcome, saved: bool)
    reads db, metrics
  {
    && metrics.teardowns == old(metrics.teardowns) + [outcome]
    && old(db.rows).Keys <= db.rows.Keys
    && (outcome == RETRY <==> outcome != SUCCESS && retries < TEARDOWN_RETRIES)
    && (outcome == SUCCESS ==> id in old(db.rows) && id in db.rows && db.rows[id].status == Stopped)
    && (saved ==> outcome == FAILURE && id in db.rows && db.rows[id].status == Failed)
    && (outcome == FAILURE && db.reliable && id in old(db.rows) ==> saved)
    && (outcome != SUCCESS ==> id !in old(db.rows) || !db.reliable)
  }

  method AttemptTeardown(db: Database, manager: DockerManager, broker: Broker, metrics: Metrics, id: EnvId, retries: nat)
    returns (outcome: Outcome, ghost saved: bool)
    modifies db`rows, manager.daemon`world, manager.daemon`now, manager.daemon`asked, manager.daemon`calls, broker, metrics`teardowns
    ensures broker.queue == old(broker.queue) + ResentTeardown(id, retries, outcome)
    ensures TeardownAttempted(db, metrics, id, retries, outcome, saved)
  {
    ghost var r, before, said;
    outcome, r, before, saved, said := TeardownEnvironment(db, manager, broker, metrics, id, retries);
  }

  /** The outcomes of a chain with k retries. */
  predicate TeardownsCounted(before: seq<Outcome>, after: seq<Outcome>, k: nat, last: Outcome) {
    && |after| == |before| + k + 1 && after[..|before|] == before
    && (forall i :: |before| <= i < |before| + k ==> after[i] == RETRY)
    && after[|before| + k] == last
  }

  /**
   * A teardown message whose attempts are all delivered, none of them killed: k retries, at most two, and then
   * one success or failure, five seconds apart; it fails only after both retries, and then for want of the row or
   * of the database. The row ends STOPPED, or FAILED if the last write was saved.
   */
  method TeardownChain(db: Database, manager: DockerManager, broker: Broker, metrics: Metrics, id: EnvId)
    returns (outcome: Outcome, k: nat, waited: Time, ghost saved: bool)
    modifies db`rows, manager.daemon`world, manager.daemon`now, manager.daemon`asked, manager.daemon`calls, broker, metrics`teardowns
    ensures k <= 2 && outcome != RETRY && (outcome == FAILURE ==> k == 2)
    ensures TeardownsCounted(old(metrics.teardowns), metrics.teardowns, k, outcome)
    ensures waited == k * 5_000_000
    ensures broker.queue == old(broker.queue)
    ensures outcome == SUCCESS ==> id in db.rows && db.rows[id].status == Stopped
    ensures saved ==> outcome == FAILURE && id in db.rows && db.rows[id].status == Failed
    ensures db.reliable && id in old(db.rows) ==> outcome == SUCCESS && k == 0
  {
    k, waited := 0, 0;
    outcome, saved := AttemptTeardown(db, manager, broker, metrics, id, 0);
    while outcome == RETRY
      invariant k <= TEARDOWN_RETRIES
      invariant outcome == RETRY <==> outcome != SUCCESS && k < TEARDOWN_RETRIES
      invariant broker.queue == old(broker.queue) + ResentTeardown(id, k, outcome)
      invariant TeardownsCounted(old(metrics.teardowns), metrics.teardowns, k, outcome)
      invariant waited == k * TEARDOWN_DELAY
      invariant outcome == SUCCESS ==> id in db.rows && db.rows[id].status == Stopped
      invariant saved ==> outcome == FAILURE && id in db.rows && db.rows[id].status == Failed
      invariant db.reliable && id in old(db.rows) ==> outcome == SUCCESS && k == 0
      decreases TEARDOWN_RETRIES - k
    {
      var next := Redeliver(db, manager.daemon, broker);
      assert next == Sent(TeardownMsg(id, k + 1), TEARDOWN_DELAY) && broker.queue == old(broker.queue);
      waited, k := waited + next.countdown, next.msg.retries;
      outcome, saved := AttemptTeardown(db, manager, broker, metrics, id, k);
    }
  }
}

/** The environment row, its status machine, and what the two database sweeps do to a whole table. */
module Lifecycle {

  datatype Option<+T> = None | Some(value: T)

  datatype Result<+T, +E> = Ok(value: T) | Err(error: E)

  /** Microseconds since the epoch; Python's datetimes carry no finer instant. */
  type Time = int

  /** A UUID read as its integer. */
  type EnvId = nat

  /** The id Docker gives a container or a network. */
  type ResId = nat

  const SECOND: Time := 1_000_000

  datatype Status = Pending | Provisioning | Running | Stopping | Stopped | Failed

  /** Statuses in which no Docker resource should exist any more. */
  predicate Terminal(s: Status) {
    s == Stopped || s == Failed
  }

  datatype Reason =
    | PresumedDead(stuckIn: Status, timeout: nat)
    | Message(text: string)

  datatype Row = Row(
    owner: string, name: string, template: string, ttl: nat,
    status: Status, statusChangedAt: Option<Time>,
    containerIds: seq<ResId>, networkId: Option<ResId>, hostPort: Option<nat>,
    startedAt: Option<Time>, expiresAt: Option<Time>, stoppedAt: Option<Time>,
    error: Option<Reason>)

  type Table = map<EnvId, Row>

  /** `resolvable` is whether the environment block formats; `dependsOn` is None when the key is absent. */
  datatype Spec = Spec(
    role: string, dependsOn: Option<string>, exposePort: Option<nat>, healthcheck: bool, resolvable: bool)

  type Template = seq<Spec>

  datatype Config = Config(
    quota: nat, grace: nat,
    pendingTimeout: nat, provisioningTimeout: nat, stoppingTimeout: nat,
    readyTimeout: nat, templates: map<string, Template>)

  /** The values config.py ships, with a choice of templates. */
  function Shipped(templates: map<string, Template>): Config {
    Config(5, 900 * SECOND, 600 * SECOND, 900 * SECOND, 600 * SECOND, 120 * SECOND, templates)
  }

  /** Every transition goes through here, so the staleness sweeps can trust the timestamp. */
  function SetStatus(r: Row, s: Status, now: Time): Row {
    r.(status := s, statusChangedAt := Some(now))
  }

  /** Error messages are cut at the width of their column. */
  function Cut(text: string): string {
    if |text| <= 500 then text else text[..500]
  }

  function FailWith(r: Row, why: Reason, now: Time): Row {
    SetStatus(r, Failed, now).(error := Some(why))
  }

  function NewRow(owner: string, name: string, template: string, ttl: nat, now: Time): Row {
    Row(owner, name, template, ttl, Pending, Some(now), [], None, None, None, None, None, None)
  }

  /** The row a successful provision commits. */
  function Launched(r: Row, network: ResId, containers: seq<ResId>, port: nat, now: Time): Row {
    SetStatus(r, Running, now).(
      networkId := Some(network), containerIds := containers, hostPort := Some(port),
      startedAt := Some(now), expiresAt := Some(now + r.ttl * SECOND))
  }

  /** The row a finished teardown commits. */
  function Stop(r: Row, now: Time): Row {
    SetStatus(r, Stopped, now).(stoppedAt := Some(now))
  }

  /** Every resource a row admits to owning. */
  function Recorded(r: Row): set<ResId> {
    (set c | c in r.containerIds) + (if r.networkId.Some? then {r.networkId.value} else {})
  }

  /** Nothing younger than this is swept. */
  function Cutoff(c: Config, now: Time): Time {
    now - c.grace
  }

  // ---- Reaping -------------------------------------------------------------

  /** A NULL expiry compares as unknown in SQL, so such a row is never selected. */
  predicate Expired(r: Row, now: Time) {
    r.status == Running && r.expiresAt.Some? && r.expiresAt.value <= now
  }

  function ExpiredIds(rows: Table, now: Time): set<EnvId> {
    set id | id in rows && Expired(rows[id], now)
  }

  function ReapRows(rows: Table, now: Time): Table {
    map id | id in rows :: if Expired(rows[id], now) then SetStatus(rows[id], Stopping, now) else rows[id]
  }

  // ---- Recovering ----------------------------------------------------------

  function TimeoutOf(c: Config, s: Status): Option<nat> {
    match s
    case Pending => Some(c.pendingTimeout)
    case Provisioning => Some(c.provisioningTimeout)
    case Stopping => Some(c.stoppingTimeout)
    case _ => None
  }

  predicate StaleIn(r: Row, s: Status, timeout: nat, now: Time) {
    r.status == s && r.statusChangedAt.Some? && r.statusChangedAt.value <= now - timeout
  }

  predicate Stale(c: Config, r: Row, now: Time) {
    TimeoutOf(c, r.status).Some? && StaleIn(r, r.status, TimeoutOf(c, r.status).value, now)
  }

  function RecoverRow(c: Config, r: Row, now: Time): Row {
    if Stale(c, r, now) then FailWith(r, PresumedDead(r.status, TimeoutOf(c, r.status).value), now) else r
  }

  function RecoverRows(c: Config, rows: Table, now: Time): Table {
    map id | id in rows :: RecoverRow(c, rows[id], now)
  }

  function StaleIds(c: Config, rows: Table, now: Time): set<EnvId> {
    set id | id in rows && Stale(c, rows[id], now)
  }

  // ---- Quota ---------------------------------------------------------------

  function ActiveOf(rows: Table, owner: string): set<EnvId> {
    set id | id in rows && rows[id].owner == owner && !Terminal(rows[id].status)
  }

  function ActiveNamed(rows: Table, owner: string, name: string): set<EnvId> {
    set id | id in ActiveOf(rows, owner) && rows[id].name == name
  }

  /** The two guards of the create route: room under the quota, and the name not in use. */
  predicate CreateAllowed(c: Config, rows: Table, owner: string, name: string) {
    |ActiveOf(rows, owner)| < c.quota && ActiveNamed(rows, owner, name) == {}
  }

  /** A running row is claimed exactly if it has an expiry and that has come; every other row is left alone. */
  lemma ReapedExactly(rows: Table, now: Time, id: EnvId)
    requires id in rows
    ensures var r, r' := rows[id], ReapRows(rows, now)[id];
            if r.status == Running && r.expiresAt.Some? && r.expiresAt.value <= now
            then r' == r.(status := Stopping, statusChangedAt := Some(now))
            else r' == r
  {
  }

  /** A launched row lives as many seconds as its ttl says, to the microsecond. */
  lemma ReapedAfterItsTtl(r: Row, network: ResId, containers: seq<ResId>, port: nat, launched: Time, now: Time)
    ensures var up := Launched(r, network, containers, port, launched);
            && up.status == Running && up.statusChangedAt == up.startedAt == Some(launched)
            && up.networkId == Some(network) && up.containerIds == containers && up.hostPort == Some(port)
            && (ReapRows(map[0 := up], now)[0].status == Stopping <==> launched + r.ttl * 1_000_000 <= now)
            && (up.owner, up.name, up.template, up.ttl) == (r.owner, r.name, r.template, r.ttl)
            && up.error == r.error && up.stoppedAt == r.stoppedAt
  {
  }

  /** A row is failed exactly if it has been in a status in transit for that status's timeout, and says so. */
  lemma RecoveredExactly(c: Config, rows: Table, now: Time, id: EnvId)
    requires id in rows
    ensures var r, r' := rows[id], RecoverRows(c, rows, now)[id];
            var failed := r.(status := Failed, statusChangedAt := Some(now));
            if r.statusChangedAt.None? then r' == r
            else if r.status == Pending && r.statusChangedAt.value + c.pendingTimeout <= now
            then r' == failed.(error := Some(PresumedDead(Pending, c.pendingTimeout)))
            else if r.status == Provisioning && r.statusChangedAt.value + c.provisioningTimeout <= now
            then r' == failed.(error := Some(PresumedDead(Provisioning, c.provisioningTimeout)))
            else if r.status == Stopping && r.statusChangedAt.value + c.stoppingTimeout <= now
            then r' == failed.(error := Some(PresumedDead(Stopping, c.stoppingTimeout)))
            else r' == r
  {
  }

  /** The shipped values, in microseconds. */
  lemma ShippedValues(templates: map<string, Template>)
    ensures var c := Shipped(templates);
            && c.quota == 5 && c.grace == c.provisioningTimeout == 900_000_000
            && c.pendingTimeout == c.stoppingTimeout == 600_000_000 && c.readyTimeout == 120_000_000
            && c.templates == templates
  {
  }

  /** An error message is kept whole if it fits in 500 characters, and else its first 500 are. */
  lemma CutExactly(text: string)
    ensures Cut(text) <= text && |Cut(text)| == if |text| < 500 then |text| else 500
  {
  }

  /** A second sweep at the same instant finds nothing: neither sweep can loop on its own work. */
  lemma SweepsIdempotent(c: Config, rows: Table, now: Time)
    ensures ReapRows(ReapRows(rows, now), now) == ReapRows(rows, now)
    ensures ExpiredIds(ReapRows(rows, now), now) == {}
    ensures RecoverRows(c, RecoverRows(c, rows, now), now) == RecoverRows(c, rows, now)
    ensures StaleIds(c, RecoverRows(c, rows, now), now) == {}
  {
  }

  /** The selections of the two database sweeps do not overlap, and neither selects a terminal row. */
  lemma SweepsDisjoint(c: Config, r: Row, now: Time)
    ensures !(Expired(r, now) && Stale(c, r, now))
    ensures Terminal(r.status) ==> !Expired(r, now) && !Stale(c, r, now)
  {
  }

  /** A claim whose teardown was never sent is not lost: once the stopping timeout is over, a recover fails the row. */
  lemma LostClaimIsRecovered(c: Config, rows: Table, id: EnvId, claimed: Time, now: Time)
    requires id in ExpiredIds(rows, claimed)
    ensures var after := RecoverRows(c, ReapRows(rows, claimed), now)[id];
            if claimed + c.stoppingTimeout <= now
            then after.status == Failed && after.error == Some(PresumedDead(Stopping, c.stoppingTimeout))
            else after.status == Stopping
  {
  }
}

/** The two routes that change something: create and delete. */
module Router {
  import opened Lifecycle
  import opened Protocol
  import opened Quota
  import opened Limits
  import opened Orm
  import opened Sweeps

  /** The status codes of a refused request. */
  datatype Refusal = NotFound404 | Conflict409 | TooMany429 | ServerError500

  /** A row the caller may see. Someone else's row is reported as missing, like one that does not exist. */
  predicate Owned(rows: Table, id: EnvId, principal: string) {
    id in rows && rows[id].owner == principal
  }

  method LoadOwned(session: Session, id: EnvId, principal: string) returns (r: Result<Environment, Refusal>)
    modifies session`view
    ensures session.view == session.db.rows
    ensures r == Err(NotFound404) || r.Ok?
    ensures r.Ok? <==> Owned(session.db.rows, id, principal)
    ensures r.Ok? ==> fresh(r.value) && r.value.id == id && r.value.loaded == r.value.AsRow() == session.db.rows[id]
  {
    var env := session.Load(id);
    if env == null || env.owner != principal {
      return Err(NotFound404);
    }
    return Ok(env);
  }

  predicate IsActiveOf(r: Row, owner: string) {
    r.owner == owner && !Terminal(r.status)
  }

  /** `select count(*) where owner = ... and status not in (STOPPED, FAILED)` */
  method CountActive(session: Session, owner: string) returns (n: nat)
    ensures n == |ActiveOf(session.view, owner)|
  {
    var envs := session.Query(r => IsActiveOf(r, owner));
    SelectedIds(envs, ActiveOf(session.view, owner));
    n := |envs|;
  }

  method CountNamed(session: Session, owner: string, name: string) returns (n: nat)
    ensures n == |ActiveNamed(session.view, owner, name)|
  {
    var envs := session.Query(r => IsActiveOf(r, owner) && r.name == name);
    SelectedIds(envs, ActiveNamed(session.view, owner, name));
    n := |envs|;
  }

  /** The verdict of the guards; the second one raises when several rows match. */
  function Verdict(c: Config, rows: Table, owner: string, name: string): Option<Refusal> {
    if |ActiveOf(rows, owner)| >= c.quota then Some(TooMany429)
    else if |ActiveNamed(rows, owner, name)| == 1 then Some(Conflict409)
    else if |ActiveNamed(rows, owner, name)| > 1 then Some(ServerError500)
    else None
  }

  /** The guards let a request through exactly when the owner has room and the name is free. */
  lemma VerdictExactly(c: Config, rows: Table, owner: string, name: string)
    ensures Verdict(c, rows, owner, name) == None <==> CreateAllowed(c, rows, owner, name)
  {
    assert |ActiveNamed(rows, owner, name)| == 0 <==> ActiveNamed(rows, owner, name) == {};
  }

  /** Each refusal has its own reason: no room, or room but one active row of that name, or room but several. */
  lemma RefusedExactly(c: Config, rows: Table, owner: string, name: string)
    ensures Verdict(c, rows, owner, name) == Some(TooMany429) <==> |ActiveOf(rows, owner)| >= c.quota
    ensures Verdict(c, rows, owner, name) == Some(Conflict409) <==>
            |ActiveOf(rows, owner)| < c.quota && exists id :: ActiveNamed(rows, owner, name) == {id}
    ensures Verdict(c, rows, owner, name) != Some(NotFound404)
  {
    var named := ActiveNamed(rows, owner, name);
    if |named| == 1 {
      var id :| id in named;
      assert |named - {id}| == 0;
      assert named == {id};
    }
  }

  method Guards(c: Config, session: Session, owner: string, name: string) returns (refusal: Option<Refusal>)
    ensures refusal == Verdict(c, session.view, owner, name)
  {
    var active := CountActive(session, owner);
    if active >= c.quota {
      return Some(TooMany429);
    }
    var named := CountNamed(session, owner, name);
    return if named == 0 then None else if named == 1 then Some(Conflict409) else Some(ServerError500);
  }

  /**
   * The message is sent before the row is committed: a commit that fails leaves a provision message for a row
   * that does not exist, and a refused request leaves nothing at all. Others may write between the guards and the
   * insert, and the guards are not looked at again: a row that is committed keeps the quota if they still hold.
   */
  method CreateEnvironment(c: Config, db: Database, broker: Broker, principal: string, name: string, template: string,
                           ttl: nat, id: EnvId, now: Time) returns (r: Result<EnvId, Refusal>, ghost before: Table)
    modifies db`rows, broker
    ensures var verdict := Verdict(c, old(db.rows), principal, name);
            && (verdict.Some? ==> r == Err(verdict.value) && db.rows == old(db.rows) && broker.queue == old(broker.queue))
            && (verdict.None? && id in before ==>
                  r == Err(ServerError500) && db.rows == before && broker.queue == old(broker.queue))
            && (verdict.None? && id !in before ==>
                  && broker.queue == old(broker.queue) + [Sent(ProvisionMsg(id, 0), 0)]
                  && (r == Ok(id) || (r == Err(ServerError500) && !db.reliable))
                  && db.rows == if r.Ok? then before[id := NewRow(principal, name, template, ttl, now)] else before)
    ensures r.Ok? ==>
              && id in db.rows
              && var row := db.rows[id];
              && row.owner == principal && row.name == name && row.template == template && row.ttl == ttl
              && row.status == Pending && row.statusChangedAt == Some(now) && Recorded(row) == {}
              && row.startedAt == row.expiresAt == row.stoppedAt == None && row.error == None && row.hostPort == None
    ensures r.Ok? ==>
              && id !in before && |ActiveOf(db.rows, principal)| == |ActiveOf(before, principal)| + 1
              && (|ActiveOf(db.rows, principal)| <= c.quota <==> |ActiveOf(before, principal)| < c.quota)
  {
    var session := new Session(db);
    before := db.rows;
    var refusal := Guards(c, session, principal, name);
    if refusal.Some? {
      return Err(refusal.value), before;
    }
    db.Others();
    before := db.rows;
    session.Begin();
    if id in session.view {
      return Err(ServerError500), before;
    }
    var row := NewRow(principal, name, template, ttl, now);
    session.Insert(id, row);
    broker.Send(ProvisionMsg(id, 0), 0);
    var ok := session.Commit();
    OneMoreActive(before, id, row);
    r := if ok then Ok(id) else Err(ServerError500);
  }

  lemma OneMoreActive(rows: Table, id: EnvId, row: Row)
    requires id !in rows && row.status == Pending
    ensures |ActiveOf(rows[id := row], row.owner)| == |ActiveOf(rows, row.owner)| + 1
  {
    var before, after := ActiveOf(rows, row.owner), ActiveOf(rows[id := row], row.owner);
    assert after == before + {id} && id !in before;
  }

  /** A teardown is sent for every row of the caller's that is not stopping or stopped; a failed one may be retried. */
  method DeleteEnvironment(db: Database, broker: Broker, principal: string, id: EnvId) returns (r: Result<EnvId, Refusal>)
    modifies db`rows, broker
    ensures db.rows == old(db.rows)
    ensures broker.queue == old(broker.queue) + (if Deletable(db.rows, id, principal) then [Sent(TeardownMsg(id, 0), 0)] else [])
    ensures Deletable(db.rows, id, principal) ==> r == Ok(id) || (r == Err(ServerError500) && !db.reliable)
    ensures !Deletable(db.rows, id, principal) ==>
              r == Err(if Owned(db.rows, id, principal) then Conflict409 else NotFound404)
  {
    var session := new Session(db);
    var l := LoadOwned(session, id, principal);
    if l.Err? {
      return Err(l.error);
    }
    if l.value.status in {Stopped, Stopping} {
      return Err(Conflict409);
    }
    broker.Send(TeardownMsg(id, 0), 0);
    var ok := session.Commit();
    r := if ok then Ok(id) else Err(ServerError500);
  }

  predicate Deletable(rows: Table, id: EnvId, principal: string) {
    Owned(rows, id, principal) && rows[id].status !in {Stopped, Stopping}
  }

  /** The routes take the protocol's steps: their guards are the ones under which those steps may happen. */
  lemma GuardsAgree(c: Config, s: State, id: EnvId, owner: string, name: string, template: string, ttl: nat)
    requires id !in s.issued
    ensures Enabled(c, s, CreateRequest(id, owner, name, template, ttl)) <==> Verdict(c, s.rows, owner, name) == None
    ensures Enabled(c, s, DeleteRequest(id, owner)) <==> Deletable(s.rows, id, owner)
  {
    VerdictExactly(c, s.rows, owner, name);
  }

  /** The name guard raises exactly when there is room, and two active rows of the owner's have that name. */
  lemma RaisesExactly(c: Config, rows: Table, owner: string, name: string)
    ensures Verdict(c, rows, owner, name) == Some(ServerError500) <==>
            |ActiveOf(rows, owner)| < c.quota
            && exists i, j :: i in ActiveNamed(rows, owner, name) && j in ActiveNamed(rows, owner, name) && i != j
  {
    var named := ActiveNamed(rows, owner, name);
    if named != {} {
      var x :| x in named;
      assert |named - {x}| == |named| - 1;
      if |named| > 1 {
        var y :| y in named - {x};
      }
      if i, j :| i in named && j in named && i != j {
        assert {i, j} <= named && |{i, j}| == 2;
        SubsetSize({i, j}, named);
      }
    }
  }

  /**
   * A run to that point: with a quota of three or more, a user requests the same name twice at once, both creates
   * commit, and a third request meets a server error though there is room.
   */
  lemma NameGuardCanRaise(c: Config)
    requires c.quota > 2
    ensures exists s :: Reachable(c, s) && Verdict(c, s.rows, "alice", "web") == Some(ServerError500)
  {
    NamesCanBeShared(c);
    var s :| Reachable(c, s) && TwoOfOneName(s) && s.revived == multiset{};
    assert 0 in ActiveNamed(s.rows, "alice", "web") && 1 in ActiveNamed(s.rows, "alice", "web");
    BothActive(s.rows);
    RaisesExactly(c, s.rows, "alice", "web");
  }

  /** The name guard can only raise after a terminal row of the owner's was made active again, or creates raced. */
  lemma SharedNameNeedsRevival(c: Config, states: seq<State>, steps: seq<Step>, i: nat, owner: string, name: string)
    requires Run(c, states, steps) && i < |states| && Verdict(c, states[i].rows, owner, name) == Some(ServerError500)
    ensures states[i].revived[owner] > 0 || states[i].raced[owner] > 0
  {
    if states[i].revived[owner] == 0 == states[i].raced[owner] {
      QuotaHolds(c, states, steps, i, owner);
      OneOfEachName(states[i].rows, owner, name);
    }
  }

  lemma OneOfEachName(rows: Table, owner: string, name: string)
    requires NamesDistinct(rows, owner)
    ensures |ActiveNamed(rows, owner, name)| <= 1
  {
    var named := ActiveNamed(rows, owner, name);
    if named != {} {
      var x :| x in named;
      assert named == {x};
    }
  }
}

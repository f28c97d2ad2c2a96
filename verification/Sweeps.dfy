/** The three periodic tasks, run to their end or killed on the way. */
module Sweeps {
  import opened Lifecycle
  import opened Worlds
  import opened Protocol
  import opened Orm
  import opened Docker
  import Convergence

  datatype Sent = Sent(msg: Message, countdown: nat)

  class Broker {
    var queue: seq<Sent>

    method Send(msg: Message, countdown: nat)
      modifies this
      ensures queue == old(queue) + [Sent(msg, countdown)]
    {
      queue := queue + [Sent(msg, countdown)];
    }

    /** Delivers the message sent last. */
    method Take() returns (next: Sent)
      requires queue != []
      modifies this
      ensures next == old(queue)[|old(queue)| - 1] && queue == old(queue)[..|old(queue)| - 1]
    {
      next := queue[|queue| - 1];
      queue := queue[..|queue| - 1];
    }
  }

  lemma {:induction false} EnumerationSize(ids: seq<EnvId>, s: set<EnvId>)
    requires Enumerates(ids, s)
    ensures |ids| == |s|
  {
    if ids == [] {
      assert s == {};
    } else {
      var last, init := ids[|ids| - 1], ids[..|ids| - 1];
      assert forall id :: id in ids <==> id == last || id in init;
      EnumerationSize(init, s - {last});
    }
  }

  function IdsOf(envs: seq<Environment>): (ids: seq<EnvId>)
    ensures |ids| == |envs|
  {
    seq(|envs|, i requires 0 <= i < |envs| => envs[i].id)
  }

  /** The objects of a query are the selected rows, one each. */
  ghost predicate Selected(envs: seq<Environment>, s: set<EnvId>) {
    && DistinctIds(envs)
    && (forall i :: 0 <= i < |envs| ==> envs[i].id in s)
    && (forall id :: id in s ==> exists i :: 0 <= i < |envs| && envs[i].id == id)
  }

  lemma SelectedIds(envs: seq<Environment>, s: set<EnvId>)
    requires Selected(envs, s)
    ensures Enumerates(IdsOf(envs), s) && |envs| == |s|
  {
    var ids := IdsOf(envs);
    forall id | id in s
      ensures id in ids
    {
      var i :| 0 <= i < |envs| && envs[i].id == id;
      assert ids[i] == id;
    }
    EnumerationSize(ids, s);
  }

  /** `for env in expired: env.set_status(STOPPING)` */
  method ClaimAll(expired: seq<Environment>, now: Time)
    requires DistinctIds(expired)
    modifies set e | e in expired
    ensures forall k :: 0 <= k < |expired| ==>
              expired[k].AsRow() == SetStatus(old(expired[k].AsRow()), Stopping, now)
              && expired[k].loaded == old(expired[k].loaded)
  {
    var i := 0;
    while i < |expired|
      invariant 0 <= i <= |expired|
      invariant forall k :: 0 <= k < |expired| ==> expired[k].loaded == old(expired[k].loaded)
      invariant forall k :: 0 <= k < i ==> expired[k].AsRow() == SetStatus(old(expired[k].AsRow()), Stopping, now)
      invariant forall k :: i <= k < |expired| ==> expired[k].AsRow() == old(expired[k].AsRow())
    {
      expired[i].SetStatus(Stopping, now);
      i := i + 1;
    }
  }

  function TeardownsFor(ids: seq<EnvId>): (sent: seq<Sent>)
    ensures |sent| == |ids|
  {
    seq(|ids|, i requires 0 <= i < |ids| => Sent(TeardownMsg(ids[i], 0), 0))
  }

  /** `for env in expired: teardown_environment.delay(...)`, as far as the worker lives. */
  method SendTeardowns(broker: Broker, ids: seq<EnvId>, life: nat) returns (sent: nat)
    modifies broker
    ensures sent == (if life < |ids| then life else |ids|)
    ensures broker.queue == old(broker.queue) + TeardownsFor(ids[..sent])
  {
    sent := 0;
    while sent < |ids| && sent < life
      invariant 0 <= sent <= |ids| && sent <= life
      invariant broker.queue == old(broker.queue) + TeardownsFor(ids[..sent])
    {
      broker.Send(TeardownMsg(ids[sent], 0), 0);
      assert TeardownsFor(ids[..sent + 1]) == TeardownsFor(ids[..sent]) + [Sent(TeardownMsg(ids[sent], 0), 0)];
      sent := sent + 1;
    }
  }

  ghost predicate Enumerates(ids: seq<EnvId>, s: set<EnvId>) {
    && (forall i, j :: 0 <= i < j < |ids| ==> ids[i] != ids[j])
    && (forall id :: id in s <==> id in ids)
  }

  lemma ClaimedRows(rows: Table, view: Table, expired: seq<Environment>, now: Time)
    requires Selected(expired, ExpiredIds(rows, now)) && view.Keys == rows.Keys
    requires forall i :: 0 <= i < |expired| ==> view[expired[i].id] == SetStatus(rows[expired[i].id], Stopping, now)
    requires forall id :: id in rows && (forall i :: 0 <= i < |expired| ==> expired[i].id != id) ==> view[id] == rows[id]
    ensures view == ReapRows(rows, now)
  {
    forall id | id in rows
      ensures view[id] == ReapRows(rows, now)[id]
    {
      if id in ExpiredIds(rows, now) {
        var i :| 0 <= i < |expired| && expired[i].id == id;
      }
    }
  }

  lemma NothingExpired(rows: Table, now: Time)
    requires ExpiredIds(rows, now) == {}
    ensures ReapRows(rows, now) == rows
  {
    assert forall id :: id in rows && Expired(rows[id], now) ==> id in ExpiredIds(rows, now);
  }

  method QueryExpired(session: Session, now: Time) returns (expired: seq<Environment>)
    ensures fresh(expired) && Selected(expired, ExpiredIds(session.view, now))
    ensures forall i :: 0 <= i < |expired| ==>
              expired[i].id in session.view && expired[i].loaded == expired[i].AsRow() == session.view[expired[i].id]
  {
    expired := session.Query(r => Expired(r, now));
  }

  /** The row is STOPPING if it ran and its expiry has come, and as it was otherwise. */
  predicate ClaimedIffExpired(r: Row, r': Row, now: Time) {
    if r.status == Running && r.expiresAt.Some? && r.expiresAt.value <= now
    then r' == r.(status := Stopping, statusChangedAt := Some(now)) else r' == r
  }

  /** Selects, claims and commits; the ids are those of the claimed rows, in the order they will be sent. */
  method ClaimExpired(db: Database, now: Time) returns (ids: seq<EnvId>, ok: bool)
    modifies db`rows
    ensures Enumerates(ids, ExpiredIds(old(db.rows), now))
    ensures db.rows == if ok then ReapRows(old(db.rows), now) else old(db.rows)
    ensures ok ==> forall id :: id in old(db.rows) ==> id in db.rows && ClaimedIffExpired(old(db.rows)[id], db.rows[id], now)
    ensures db.reliable ==> ok
  {
    var session := new Session(db);
    var expired := QueryExpired(session, now);
    ids := IdsOf(expired);
    SelectedIds(expired, ExpiredIds(db.rows, now));
    if expired == [] {
      NothingExpired(db.rows, now);
      return ids, true;
    }
    ClaimAll(expired, now);
    session.FlushAll(expired);
    ClaimedRows(db.rows, session.view, expired, now);
    ok := session.Commit();
  }

  /**
   * Claim, commit, then enqueue. `life` counts the commit and the sends the worker lives to perform; None is a
   * worker killed, or one whose commit failed. Wherever it dies, the messages sent are for distinct rows whose
   * claim is committed, one each; a worker that finishes has sent exactly one for every row it claimed.
   */
  method ReapExpired(db: Database, broker: Broker, now: Time, life: nat)
    returns (reaped: Option<nat>, ghost claimed: seq<EnvId>, ghost sent: nat)
    modifies db`rows, broker
    ensures Enumerates(claimed, ExpiredIds(old(db.rows), now)) && sent <= |claimed|
    ensures db.rows == old(db.rows) || db.rows == ReapRows(old(db.rows), now)
    ensures broker.queue == old(broker.queue) + TeardownsFor(claimed[..sent])
    ensures sent > 0 ==> db.rows == ReapRows(old(db.rows), now)
    ensures reaped.Some? ==>
              && db.rows == ReapRows(old(db.rows), now)
              && sent == |claimed| == reaped.value == |ExpiredIds(old(db.rows), now)|
    ensures db.reliable && life > |ExpiredIds(old(db.rows), now)| ==> reaped.Some?
  {
    sent, claimed := 0, [];
    assert broker.queue + TeardownsFor([]) == broker.queue;
    if life == 0 {
      claimed := SomeOrder(ExpiredIds(db.rows, now));
      return None, claimed, 0;
    }
    var ids, ok := ClaimExpired(db, now);
    claimed := ids;
    EnumerationSize(ids, ExpiredIds(old(db.rows), now));
    if !ok {
      return None, claimed, 0;
    }
    var n := SendTeardowns(broker, ids, life - 1);
    sent := n;
    assert ids[..|ids|] == ids;
    reaped := if n == |ids| then Some(|ids|) else None;
  }

  lemma {:induction false} SomeOrder(s: set<EnvId>) returns (ids: seq<EnvId>)
    ensures Enumerates(ids, s)
  {
    if s == {} {
      ids := [];
    } else {
      var x :| x in s;
      ids := SomeOrder(s - {x});
      ids := ids + [x];
    }
  }

  // ---- recover_stale_transitions -------------------------------------------

  /** TRANSIENT_TIMEOUTS, in its order. */
  function TransientTimeouts(c: Config): seq<(Status, nat)> {
    [(Pending, c.pendingTimeout), (Provisioning, c.provisioningTimeout), (Stopping, c.stoppingTimeout)]
  }

  function StaleOf(rows: Table, s: Status, timeout: nat, now: Time): set<EnvId> {
    set id | id in rows && StaleIn(rows[id], s, timeout, now)
  }

  /** The table after the loop has dealt with one status. */
  function FailStale(rows: Table, s: Status, timeout: nat, now: Time): Table {
    map id | id in rows ::
      if StaleIn(rows[id], s, timeout, now) then FailWith(rows[id], PresumedDead(s, timeout), now) else rows[id]
  }

  /** The table after the first i statuses, one after the other. */
  function FailFirst(c: Config, rows: Table, i: nat, now: Time): Table
    requires i <= 3
  {
    if i == 0 then rows else
      var (s, timeout) := TransientTimeouts(c)[i - 1];
      FailStale(FailFirst(c, rows, i - 1, now), s, timeout, now)
  }

  method FailAll(stale: seq<Environment>, s: Status, timeout: nat, now: Time)
    requires DistinctIds(stale)
    modifies set e | e in stale
    ensures forall k :: 0 <= k < |stale| ==>
              stale[k].AsRow() == FailWith(old(stale[k].AsRow()), PresumedDead(s, timeout), now)
              && stale[k].loaded == old(stale[k].loaded)
  {
    var i := 0;
    while i < |stale|
      invariant 0 <= i <= |stale|
      invariant forall k :: 0 <= k < |stale| ==> stale[k].loaded == old(stale[k].loaded)
      invariant forall k :: 0 <= k < i ==>
                  stale[k].AsRow() == FailWith(old(stale[k].AsRow()), PresumedDead(s, timeout), now)
      invariant forall k :: i <= k < |stale| ==> stale[k].AsRow() == old(stale[k].AsRow())
    {
      stale[i].SetStatus(Failed, now);
      stale[i].error := Some(PresumedDead(s, timeout));
      i := i + 1;
    }
  }

  /** Fails the objects of a query, and lets the next query see it. */
  method StoreFailed(session: Session, stale: seq<Environment>, s: Status, timeout: nat, now: Time)
    requires DistinctIds(stale)
    requires forall i :: 0 <= i < |stale| ==>
               stale[i].id in session.view && stale[i].loaded == stale[i].AsRow() == session.view[stale[i].id]
    modifies session`view, set e | e in stale
    ensures session.view.Keys == old(session.view).Keys
    ensures forall i :: 0 <= i < |stale| ==>
              session.view[stale[i].id] == FailWith(old(session.view)[stale[i].id], PresumedDead(s, timeout), now)
    ensures forall id :: id in old(session.view) && (forall i :: 0 <= i < |stale| ==> stale[i].id != id) ==>
              session.view[id] == old(session.view)[id]
  {
    FailAll(stale, s, timeout, now);
    session.FlushAll(stale);
  }

  lemma FailedRows(rows: Table, view: Table, stale: seq<Environment>, s: Status, timeout: nat, now: Time)
    requires Selected(stale, StaleOf(rows, s, timeout, now)) && view.Keys == rows.Keys
    requires forall i :: 0 <= i < |stale| ==>
               view[stale[i].id] == FailWith(rows[stale[i].id], PresumedDead(s, timeout), now)
    requires forall id :: id in rows && (forall i :: 0 <= i < |stale| ==> stale[i].id != id) ==> view[id] == rows[id]
    ensures view == FailStale(rows, s, timeout, now)
  {
    forall id | id in rows
      ensures view[id] == FailStale(rows, s, timeout, now)[id]
    {
      if id in StaleOf(rows, s, timeout, now) {
        var i :| 0 <= i < |stale| && stale[i].id == id;
      }
    }
  }

  method QueryStale(session: Session, s: Status, timeout: nat, now: Time) returns (stale: seq<Environment>)
    ensures fresh(stale) && Selected(stale, StaleOf(session.view, s, timeout, now))
    ensures forall i :: 0 <= i < |stale| ==>
              stale[i].id in session.view && stale[i].loaded == stale[i].AsRow() == session.view[stale[i].id]
  {
    stale := session.Query(r => StaleIn(r, s, timeout, now));
  }

  /** One status: select, fail, and let the next query see it. */
  method RecoverOne(session: Session, s: Status, timeout: nat, now: Time) returns (count: nat)
    modifies session`view
    ensures session.view == FailStale(old(session.view), s, timeout, now)
    ensures count == |StaleOf(old(session.view), s, timeout, now)|
  {
    var stale := QueryStale(session, s, timeout, now);
    SelectedIds(stale, StaleOf(session.view, s, timeout, now));
    ghost var before := session.view;
    StoreFailed(session, stale, s, timeout, now);
    FailedRows(before, session.view, stale, s, timeout, now);
    count := |stale|;
  }

  lemma OthersStayStale(rows: Table, s: Status, timeout: nat, s': Status, timeout': nat, now: Time)
    requires s != s' && s' != Failed
    ensures StaleOf(FailStale(rows, s, timeout, now), s', timeout', now) == StaleOf(rows, s', timeout', now)
  {
  }

  /** No row is selected twice: each status sees the rows it would have seen at first. */
  lemma SelectionsIndependent(c: Config, rows: Table, i: nat, now: Time)
    requires i < 3
    ensures var (s, timeout) := TransientTimeouts(c)[i];
            StaleOf(FailFirst(c, rows, i, now), s, timeout, now) == StaleOf(rows, s, timeout, now)
  {
    var one := FailFirst(c, rows, 1, now);
    assert FailFirst(c, rows, 0, now) == rows && TransientTimeouts(c)[0] == (Pending, c.pendingTimeout);
    assert one == FailStale(rows, Pending, c.pendingTimeout, now);
    if i == 1 {
      OthersStayStale(rows, Pending, c.pendingTimeout, Provisioning, c.provisioningTimeout, now);
    } else if i == 2 {
      assert FailFirst(c, rows, 2, now) == FailStale(one, Provisioning, c.provisioningTimeout, now);
      OthersStayStale(rows, Pending, c.pendingTimeout, Stopping, c.stoppingTimeout, now);
      OthersStayStale(one, Provisioning, c.provisioningTimeout, Stopping, c.stoppingTimeout, now);
    }
  }

  /** Status by status comes to the same as one pass over the table. */
  lemma FailFirstIsOnePass(c: Config, rows: Table, now: Time)
    ensures FailFirst(c, rows, 3, now) == RecoverRows(c, rows, now)
  {
    var one := FailFirst(c, rows, 1, now);
    var two := FailFirst(c, rows, 2, now);
    assert FailFirst(c, rows, 0, now) == rows && TransientTimeouts(c)[0] == (Pending, c.pendingTimeout);
    assert one == FailStale(rows, Pending, c.pendingTimeout, now);
    assert two == FailStale(one, Provisioning, c.provisioningTimeout, now);
    var three := FailStale(two, Stopping, c.stoppingTimeout, now);
    forall id | id in rows
      ensures three[id] == RecoverRow(c, rows[id], now)
    {
    }
  }

  /** What the task reports after i statuses: those with stale rows, each with their number. */
  function Report(c: Config, rows: Table, i: nat, now: Time): map<Status, nat>
    requires i <= 3
  {
    if i == 0 then map[] else
      var (s, timeout) := TransientTimeouts(c)[i - 1];
      var n := |StaleOf(rows, s, timeout, now)|;
      if n > 0 then Report(c, rows, i - 1, now)[s := n] else Report(c, rows, i - 1, now)
  }

  function Total(c: Config, rows: Table, i: nat, now: Time): nat
    requires i <= 3
  {
    if i == 0 then 0 else
      var (s, timeout) := TransientTimeouts(c)[i - 1];
      Total(c, rows, i - 1, now) + |StaleOf(rows, s, timeout, now)|
  }

  /** The stale rows of the first i statuses. */
  function StaleFirst(c: Config, rows: Table, i: nat, now: Time): set<EnvId>
    requires i <= 3
  {
    if i == 0 then {} else
      var (s, timeout) := TransientTimeouts(c)[i - 1];
      StaleFirst(c, rows, i - 1, now) + StaleOf(rows, s, timeout, now)
  }

  lemma {:induction false} InFirst(c: Config, rows: Table, i: nat, now: Time, id: EnvId)
    requires i <= 3
    ensures id in StaleFirst(c, rows, i, now) <==>
            id in rows && exists j :: 0 <= j < i && StaleIn(rows[id], TransientTimeouts(c)[j].0, TransientTimeouts(c)[j].1, now)
  {
    if i > 0 {
      InFirst(c, rows, i - 1, now, id);
    }
  }

  lemma {:induction false} ReportCounts(c: Config, rows: Table, i: nat, now: Time)
    requires i <= 3
    ensures Total(c, rows, i, now) == |StaleFirst(c, rows, i, now)|
    ensures Report(c, rows, i, now) == map[] <==> StaleFirst(c, rows, i, now) == {}
  {
    if i > 0 {
      ReportCounts(c, rows, i - 1, now);
      var (s, timeout) := TransientTimeouts(c)[i - 1];
      var first, more := StaleFirst(c, rows, i - 1, now), StaleOf(rows, s, timeout, now);
      SelectionsDisjoint(c, rows, i - 1, now);
      assert |first + more| == |first| + |more|;
      assert more != {} ==> s in Report(c, rows, i, now);
    }
  }

  lemma SelectionsDisjoint(c: Config, rows: Table, i: nat, now: Time)
    requires i < 3
    ensures StaleFirst(c, rows, i, now) !! StaleOf(rows, TransientTimeouts(c)[i].0, TransientTimeouts(c)[i].1, now)
  {
    forall id | id in StaleFirst(c, rows, i, now)
      ensures id !in StaleOf(rows, TransientTimeouts(c)[i].0, TransientTimeouts(c)[i].1, now)
    {
      InFirst(c, rows, i, now, id);
    }
  }

  /** The report covers every stale row once: the counts add up to all of them, and it is empty if there is none. */
  lemma ReportIsComplete(c: Config, rows: Table, now: Time)
    ensures Total(c, rows, 3, now) == |StaleIds(c, rows, now)|
    ensures Report(c, rows, 3, now) == map[] <==> StaleIds(c, rows, now) == {}
  {
    ReportCounts(c, rows, 3, now);
    AllThree(c, rows, now);
  }

  lemma AllThree(c: Config, rows: Table, now: Time)
    ensures StaleFirst(c, rows, 3, now) == StaleIds(c, rows, now)
  {
    forall id
      ensures id in StaleFirst(c, rows, 3, now) <==> id in StaleIds(c, rows, now)
    {
      InFirst(c, rows, 3, now, id);
      assert TransientTimeouts(c)[0] == (Pending, c.pendingTimeout);
      assert TransientTimeouts(c)[1] == (Provisioning, c.provisioningTimeout);
      assert TransientTimeouts(c)[2] == (Stopping, c.stoppingTimeout);
    }
  }

  /** Under each status the report holds the number of rows stuck in it, and has no entry for none. */
  lemma {:induction false} ReportedExactly(c: Config, rows: Table, i: nat, j: nat, now: Time)
    requires j < i <= 3
    ensures var (s, timeout), report := TransientTimeouts(c)[j], Report(c, rows, i, now);
            var n := |StaleOf(rows, s, timeout, now)|;
            if n > 0 then s in report && report[s] == n else s !in report
  {
    if j < i - 1 {
      ReportedExactly(c, rows, i - 1, j, now);
    } else {
      NotYetReported(c, rows, j, j, now);
    }
  }

  lemma {:induction false} NotYetReported(c: Config, rows: Table, i: nat, j: nat, now: Time)
    requires i <= j < 3
    ensures TransientTimeouts(c)[j].0 !in Report(c, rows, i, now)
  {
    if i > 0 {
      NotYetReported(c, rows, i - 1, j, now);
    }
  }

  /**
   * The status-by-status loop refines one pass over the table: exactly the stale rows fail, each counted once
   * under the status it was stuck in, and the total is the number of rows changed.
   */
  method RecoverStale(c: Config, db: Database, now: Time) returns (recovered: map<Status, nat>, total: nat, ok: bool)
    modifies db`rows
    ensures db.reliable ==> ok
    ensures db.rows == if ok then RecoverRows(c, old(db.rows), now) else old(db.rows)
    ensures recovered == Report(c, old(db.rows), 3, now)
    ensures total == |StaleIds(c, old(db.rows), now)|
  {
    ghost var rows := db.rows;
    var session := new Session(db);
    recovered, total := map[], 0;
    var i := 0;
    while i < 3
      invariant 0 <= i <= 3 && db.rows == rows && session.view == FailFirst(c, rows, i, now)
      invariant recovered == Report(c, rows, i, now) && total == Total(c, rows, i, now)
    {
      var (s, timeout) := TransientTimeouts(c)[i];
      SelectionsIndependent(c, rows, i, now);
      var count := RecoverOne(session, s, timeout, now);
      if count > 0 {
        recovered := recovered[s := count];
      }
      total := total + count;
      i := i + 1;
    }
    FailFirstIsOnePass(c, rows, now);
    ReportIsComplete(c, rows, now);
    ok := true;
    if recovered != map[] {
      ok := session.Commit();
    } else {
      NothingStale(c, rows, now);
    }
  }

  lemma NothingStale(c: Config, rows: Table, now: Time)
    requires StaleIds(c, rows, now) == {}
    ensures RecoverRows(c, rows, now) == rows
  {
    assert forall id :: id in rows && Stale(c, rows[id], now) ==> id in StaleIds(c, rows, now);
  }

  // ---- reconcile_orphans ---------------------------------------------------

  /** The found containers, and networks, of the labels in a set that are sweepable. */
  function SweptUnder(rows: Table, w: World, cs: set<ResId>, labels: set<Label>): set<ResId> {
    set id | id in cs && id in w.containers && w.containers[id].tag.Some? && w.containers[id].tag.value in labels
             && Sweepable(rows, w.containers[id].tag.value)
  }

  function SweptNetworksUnder(rows: Table, w: World, ns: set<ResId>, labels: set<Label>): set<ResId> {
    set id | id in ns && id in w.networks && w.networks[id].tag.Some? && w.networks[id].tag.value in labels
             && Sweepable(rows, w.networks[id].tag.value)
  }

  function SweepableLabels(rows: Table, labels: set<Label>): set<Label> {
    set l | l in labels && Sweepable(rows, l)
  }

  /** What Docker kept of what it was asked to remove. */
  datatype Kept = Kept(containers: set<ResId>, networks: set<ResId>)

  const NONE := Kept({}, {})

  function Both(a: Kept, b: Kept): Kept {
    Kept(a.containers + b.containers, a.networks + b.networks)
  }

  predicate Within(k: Kept, cs: set<ResId>, ns: set<ResId>) {
    k.containers <= cs && k.networks <= ns
  }

  /** A removal that Docker obeyed but for what it kept. */
  function RemoveBut(w: World, cs: set<ResId>, ns: set<ResId>, k: Kept): World {
    RemoveAll(w, cs - k.containers, ns - k.networks)
  }

  /** What one more label adds to the pass. */
  lemma OneMoreLabel(rows: Table, w: World, cs: set<ResId>, ns: set<ResId>, done: set<Label>, l: Label, r: LabelledResources)
    requires l !in done && GroupOf(r, w, cs, ns, l)
    ensures var c1, n1 := SweptUnder(rows, w, cs, done), SweptNetworksUnder(rows, w, ns, done);
            var c2, n2 := SweptUnder(rows, w, cs, done + {l}), SweptNetworksUnder(rows, w, ns, done + {l});
            if Sweepable(rows, l)
            then c2 == c1 + ToSet(r.containerIds) && n2 == n1 + ToSet(r.networkIds)
                 && c1 !! ToSet(r.containerIds) && n1 !! ToSet(r.networkIds)
            else c1 == c2 && n1 == n2
  {
  }

  /** After every found label, the pass has asked for all that was found under a sweepable one. */
  lemma AllLabels(rows: Table, w: World, t1: Time, t2: Time, cutoff: Time, found: map<Label, LabelledResources>)
    requires Groups(found, w, FoundContainers(w, t1, cutoff), FoundNetworks(w, t2, cutoff))
    ensures SweptUnder(rows, w, FoundContainers(w, t1, cutoff), found.Keys) == SweptContainers(w, rows, t1, cutoff)
    ensures SweptNetworksUnder(rows, w, FoundNetworks(w, t2, cutoff), found.Keys) == SweptNetworks(w, rows, t2, cutoff)
  {
    var cs, ns := FoundContainers(w, t1, cutoff), FoundNetworks(w, t2, cutoff);
    forall id | id in cs && id in w.containers && w.containers[id].tag.Some?
      ensures w.containers[id].tag.value in found
    {
      assert Grouped(found, w, cs, ns, w.containers[id].tag.value);
      assert id in ContainersUnder(cs, w, w.containers[id].tag.value);
    }
    forall id | id in ns && id in w.networks && w.networks[id].tag.Some?
      ensures w.networks[id].tag.value in found
    {
      assert Grouped(found, w, cs, ns, w.networks[id].tag.value);
      assert id in NetworksUnder(ns, w, w.networks[id].tag.value);
    }
  }

  /** What disappeared under a pass was found by it, under a label that was sweepable. */
  predicate OnlySwept(rows: Table, before: World, after: World, cs: set<ResId>, ns: set<ResId>) {
    && Sub(after, before)
    && (forall id :: id in before.containers && id !in after.containers ==>
          id in cs && before.containers[id].tag.Some? && Sweepable(rows, before.containers[id].tag.value))
    && (forall id :: id in before.networks && id !in after.networks ==>
          id in ns && before.networks[id].tag.Some? && Sweepable(rows, before.networks[id].tag.value))
  }

  lemma SweptOneLabel(rows: Table, w: World, v: World, u: World, cs: set<ResId>, ns: set<ResId>, l: Label,
                      r: LabelledResources, k: Kept)
    requires OnlySwept(rows, w, v, cs, ns) && GroupOf(r, w, cs, ns, l) && Sweepable(rows, l)
    requires u == RemoveBut(v, ToSet(r.containerIds), ToSet(r.networkIds), k)
    ensures OnlySwept(rows, w, u, cs, ns)
  {
    RemoveAllComplete(v, ToSet(r.containerIds) - k.containers, ToSet(r.networkIds) - k.networks);
  }

  lemma CountOneMore(rows: Table, done: set<Label>, l: Label)
    requires l !in done
    ensures |SweepableLabels(rows, done + {l})| == |SweepableLabels(rows, done)| + (if Sweepable(rows, l) then 1 else 0)
  {
    assert SweepableLabels(rows, done + {l}) == SweepableLabels(rows, done) + (if Sweepable(rows, l) then {l} else {});
  }

  /** The daemon after a pass has dealt with these labels. */
  function PassSoFar(rows: Table, w: World, cs: set<ResId>, ns: set<ResId>, done: set<Label>, k: Kept): World {
    RemoveBut(w, SweptUnder(rows, w, cs, done), SweptNetworksUnder(rows, w, ns, done), k)
  }

  lemma PassStarts(rows: Table, w: World, cs: set<ResId>, ns: set<ResId>)
    ensures PassSoFar(rows, w, cs, ns, {}, NONE) == w
  {
    assert SweptUnder(rows, w, cs, {}) == {} && SweptNetworksUnder(rows, w, ns, {}) == {};
  }

  /** Sweeping label after label comes to sweeping them together, whatever Docker keeps. */
  lemma PassGoesOn(rows: Table, w: World, cs: set<ResId>, ns: set<ResId>, done: set<Label>,
                   l: Label, r: LabelledResources, k: Kept, more: Kept)
    requires OwnNetworksOnly(w) && l !in done && GroupOf(r, w, cs, ns, l) && Sweepable(rows, l)
    requires Within(k, SweptUnder(rows, w, cs, done), SweptNetworksUnder(rows, w, ns, done))
    requires Within(more, ToSet(r.containerIds), ToSet(r.networkIds))
    ensures RemoveBut(PassSoFar(rows, w, cs, ns, done, k), ToSet(r.containerIds), ToSet(r.networkIds), more)
         == PassSoFar(rows, w, cs, ns, done + {l}, Both(k, more))
  {
    OneMoreLabel(rows, w, cs, ns, done, l, r);
    var c1, n1 := SweptUnder(rows, w, cs, done), SweptNetworksUnder(rows, w, ns, done);
    var c2, n2 := ToSet(r.containerIds), ToSet(r.networkIds);
    NotTheirs(rows, w, cs, ns, done, l, r);
    RemoveAllTwice(w, c1 - k.containers, n1 - k.networks, c2 - more.containers, n2 - more.networks);
    assert (c1 - k.containers) + (c2 - more.containers) == (c1 + c2) - (k.containers + more.containers);
    assert (n1 - k.networks) + (n2 - more.networks) == (n1 + n2) - (k.networks + more.networks);
  }

  /** No container of one label keeps a network of another. */
  lemma NotTheirs(rows: Table, w: World, cs: set<ResId>, ns: set<ResId>, done: set<Label>, l: Label, r: LabelledResources)
    requires OwnNetworksOnly(w) && l !in done && GroupOf(r, w, cs, ns, l)
    ensures forall n :: n in SweptNetworksUnder(rows, w, ns, done) && n in w.networks ==>
              Attached(w, n) * ToSet(r.containerIds) == {}
  {
    forall n | n in SweptNetworksUnder(rows, w, ns, done) && n in w.networks
      ensures Attached(w, n) * ToSet(r.containerIds) == {}
    {
      assert forall k :: k in Attached(w, n) ==> w.containers[k].tag == w.networks[n].tag;
      assert forall k :: k in ToSet(r.containerIds) ==> w.containers[k].tag == Some(l);
    }
  }

  /** The removals asked for. */
  function Asked(cs: set<ResId>, ns: set<ResId>): set<Request> {
    (set c | c in cs :: ForContainer(c)) + (set n | n in ns :: ForNetwork(n))
  }

  lemma AskedOf(cids: seq<ResId>, nids: seq<ResId>)
    ensures ToSet(Requests(cids, nids)) == Asked(ToSet(cids), ToSet(nids))
  {
    forall c | c in cids
      ensures ForContainer(c) in ContainerRequests(cids)
    {
      var i :| 0 <= i < |cids| && cids[i] == c;
      assert ContainerRequests(cids)[i] == ForContainer(c);
    }
    forall n | n in nids
      ensures ForNetwork(n) in NetworkRequests(nids)
    {
      var i :| 0 <= i < |nids| && nids[i] == n;
      assert NetworkRequests(nids)[i] == ForNetwork(n);
    }
  }

  lemma AskedMore(log: seq<Request>, more: seq<Request>, c1: set<ResId>, n1: set<ResId>, c2: set<ResId>, n2: set<ResId>)
    requires ToSet(log) == Asked(c1, n1) && ToSet(more) == Asked(c2, n2)
    ensures ToSet(log + more) == Asked(c1 + c2, n1 + n2)
  {
    assert ToSet(log + more) == ToSet(log) + ToSet(more);
  }

  /** How far a pass has come once the labels in `done` are dealt with. */
  ghost predicate Progress(rows: Table, w: World, v: World, cs: set<ResId>, ns: set<ResId>,
                           done: set<Label>, removed: nat, skipped: nat, k: Kept, log: seq<Request>)
  {
    && OnlySwept(rows, w, v, cs, ns)
    && Within(k, SweptUnder(rows, w, cs, done), SweptNetworksUnder(rows, w, ns, done))
    && (OwnNetworksOnly(w) ==> v == PassSoFar(rows, w, cs, ns, done, k))
    && ToSet(log) == Asked(SweptUnder(rows, w, cs, done), SweptNetworksUnder(rows, w, ns, done))
    && removed == |SweepableLabels(rows, done)| && removed + skipped == |done|
  }

  lemma ProgressStarts(rows: Table, w: World, cs: set<ResId>, ns: set<ResId>)
    ensures Progress(rows, w, w, cs, ns, {}, 0, 0, NONE, [])
  {
    PassStarts(rows, w, cs, ns);
  }

  /** What one visit does to the daemon, and asks of it. */
  predicate Visited(rows: Table, v: World, u: World, l: Label, r: LabelledResources, k: Kept, asked: seq<Request>) {
    if Sweepable(rows, l)
    then Within(k, ToSet(r.containerIds), ToSet(r.networkIds))
         && u == RemoveBut(v, ToSet(r.containerIds), ToSet(r.networkIds), k)
         && asked == Requests(r.containerIds, r.networkIds)
    else u == v && k == NONE && asked == []
  }

  lemma ProgressSwept(rows: Table, w: World, v: World, u: World, cs: set<ResId>, ns: set<ResId>, done: set<Label>,
                      removed: nat, skipped: nat, l: Label, r: LabelledResources,
                      k: Kept, more: Kept, log: seq<Request>, asked: seq<Request>)
    requires Progress(rows, w, v, cs, ns, done, removed, skipped, k, log)
    requires Sweepable(rows, l) && Visited(rows, v, u, l, r, more, asked)
    requires l !in done && GroupOf(r, w, cs, ns, l)
    ensures Progress(rows, w, u, cs, ns, done + {l}, removed + 1, skipped, Both(k, more), log + asked)
  {
    SweptOneLabel(rows, w, v, u, cs, ns, l, r, more);
    OneMoreLabel(rows, w, cs, ns, done, l, r);
    if OwnNetworksOnly(w) {
      PassGoesOn(rows, w, cs, ns, done, l, r, k, more);
    }
    AskedOf(r.containerIds, r.networkIds);
    AskedMore(log, asked, SweptUnder(rows, w, cs, done), SweptNetworksUnder(rows, w, ns, done),
              ToSet(r.containerIds), ToSet(r.networkIds));
    CountOneMore(rows, done, l);
  }

  lemma ProgressSkipped(rows: Table, w: World, v: World, cs: set<ResId>, ns: set<ResId>, done: set<Label>,
                        removed: nat, skipped: nat, l: Label, r: LabelledResources, k: Kept, log: seq<Request>)
    requires Progress(rows, w, v, cs, ns, done, removed, skipped, k, log) && !Sweepable(rows, l)
    requires l !in done && GroupOf(r, w, cs, ns, l)
    ensures Progress(rows, w, v, cs, ns, done + {l}, removed, skipped + 1, k, log)
  {
    OneMoreLabel(rows, w, cs, ns, done, l, r);
    CountOneMore(rows, done, l);
  }

  /** One label: its row is looked up, and its resources go unless the row is in flight or the label no UUID. */
  method VisitLabel(session: Session, manager: DockerManager, l: Label, r: LabelledResources)
    returns (swept: bool, ghost k: Kept, ghost asked: seq<Request>, ghost said: seq<Call>)
    modifies session`view, manager.daemon`now, manager.daemon`world, manager.daemon`asked, manager.daemon`calls
    ensures swept == Sweepable(session.db.rows, l)
    ensures Visited(session.db.rows, old(manager.daemon.world), manager.daemon.world, l, r, k, asked)
    ensures manager.daemon.asked == old(manager.daemon.asked) + asked
    ensures manager.daemon.calls == old(manager.daemon.calls) + said && Excused(k.containers, k.networks, said)
    ensures if swept then Dialogue(said, r.containerIds, r.networkIds) else said == []
    ensures manager.daemon.reliable ==> k == NONE
  {
    if !l.Uuid? {
      return false, NONE, [], [];
    }
    var env := session.Load(l.id);
    if env != null && !Terminal(env.status) {
      return false, NONE, [], [];
    }
    var keptContainers, keptNetworks, calls := manager.RemoveResources(r.containerIds, r.networkIds);
    return true, Kept(keptContainers, keptNetworks), Requests(r.containerIds, r.networkIds), calls;
  }

  /** What the pass has asked of the daemon, and that it refused a call about whatever it kept. */
  predicate Tracked(daemon: Daemon, before: seq<Request>, calls: seq<Call>, k: Kept, log: seq<Request>, said: seq<Call>)
    reads daemon
  {
    && daemon.asked == before + log && daemon.calls == calls + said
    && Excused(k.containers, k.networks, said) && (daemon.reliable ==> k == NONE)
  }

  /** One trip round the loop. */
  method CountLabel(session: Session, manager: DockerManager, l: Label, r: LabelledResources, removed: nat, skipped: nat,
                    ghost w: World, ghost cs: set<ResId>, ghost ns: set<ResId>, ghost done: set<Label>,
                    ghost before: seq<Request>, ghost calls: seq<Call>, ghost k: Kept, ghost log: seq<Request>, ghost said: seq<Call>)
    returns (removed': nat, skipped': nat, ghost k': Kept, ghost log': seq<Request>, ghost said': seq<Call>)
    requires l !in done && GroupOf(r, w, cs, ns, l) && Tracked(manager.daemon, before, calls, k, log, said)
    requires Progress(session.db.rows, w, manager.daemon.world, cs, ns, done, removed, skipped, k, log)
    modifies session`view, manager.daemon`now, manager.daemon`world, manager.daemon`asked, manager.daemon`calls
    ensures Tracked(manager.daemon, before, calls, k', log', said')
    ensures Progress(session.db.rows, w, manager.daemon.world, cs, ns, done + {l}, removed', skipped', k', log')
  {
    ghost var rows, v := session.db.rows, manager.daemon.world;
    var swept, more, asked, talk := VisitTracked(session, manager, l, r, before, calls, k, log, said);
    k', log', said' := Both(k, more), log + asked, said + talk;
    if swept {
      ProgressSwept(rows, w, v, manager.daemon.world, cs, ns, done, removed, skipped, l, r, k, more, log, asked);
      return removed + 1, skipped, k', log', said';
    } else {
      ProgressSkipped(rows, w, v, cs, ns, done, removed, skipped, l, r, k, log);
      assert Both(k, NONE) == k && log + [] == log;
      return removed, skipped + 1, k', log', said';
    }
  }

  method VisitTracked(session: Session, manager: DockerManager, l: Label, r: LabelledResources,
                      ghost before: seq<Request>, ghost calls: seq<Call>, ghost k: Kept, ghost log: seq<Request>, ghost said: seq<Call>)
    returns (swept: bool, ghost more: Kept, ghost asked: seq<Request>, ghost talk: seq<Call>)
    requires Tracked(manager.daemon, before, calls, k, log, said)
    modifies session`view, manager.daemon`now, manager.daemon`world, manager.daemon`asked, manager.daemon`calls
    ensures swept == Sweepable(session.db.rows, l)
    ensures Visited(session.db.rows, old(manager.daemon.world), manager.daemon.world, l, r, more, asked)
    ensures Tracked(manager.daemon, before, calls, Both(k, more), log + asked, said + talk)
  {
    swept, more, asked, talk := VisitLabel(session, manager, l, r);
    ExcusedOn(k.containers, k.networks, said, more.containers, more.networks, talk);
  }

  /** The loop over the found labels, in any order. */
  method SweepLabels(db: Database, manager: DockerManager, found: map<Label, LabelledResources>,
                     ghost cs: set<ResId>, ghost ns: set<ResId>)
    returns (removed: nat, skipped: nat, ghost k: Kept, ghost log: seq<Request>, ghost said: seq<Call>)
    requires Groups(found, manager.daemon.world, cs, ns)
    modifies manager.daemon`now, manager.daemon`world, manager.daemon`asked, manager.daemon`calls
    ensures Progress(db.rows, old(manager.daemon.world), manager.daemon.world, cs, ns, found.Keys, removed, skipped, k, log)
    ensures Tracked(manager.daemon, old(manager.daemon.asked), old(manager.daemon.calls), k, log, said)
  {
    ghost var w, before, calls := manager.daemon.world, manager.daemon.asked, manager.daemon.calls;
    removed, skipped, k, log, said := 0, 0, NONE, [], [];
    var session := new Session(db);
    var left := found.Keys;
    ProgressStarts(db.rows, w, cs, ns);
    assert found.Keys - left == {};
    while left != {}
      invariant left <= found.Keys
      invariant Progress(db.rows, w, manager.daemon.world, cs, ns, found.Keys - left, removed, skipped, k, log)
      invariant Tracked(manager.daemon, before, calls, k, log, said)
      decreases |left|
    {
      var l :| l in left;
      assert Grouped(found, w, cs, ns, l);
      removed, skipped, k, log, said :=
        CountLabel(session, manager, l, found[l], removed, skipped, w, cs, ns, found.Keys - left, before, calls, k, log, said);
      OneLess(found.Keys, left, l);
      left := left - {l};
    }
    assert found.Keys - left == found.Keys;
  }

  lemma OneLess(all: set<Label>, left: set<Label>, l: Label)
    requires l in left && left <= all
    ensures (all - left) + {l} == all - (left - {l}) && |left - {l}| < |left|
  {
  }

  /**
   * The outcome of a pass that listed at t1 and t2: nothing went but what was found old enough under a sweepable
   * label; all of that was asked for, and nothing else; and what is gone is what one simultaneous removal of it
   * takes, but for what Docker kept.
   */
  predicate Swept(rows: Table, w: World, v: World, t1: Time, t2: Time, cutoff: Time, k: Kept, log: seq<Request>) {
    && OnlySwept(rows, w, v, FoundContainers(w, t1, cutoff), FoundNetworks(w, t2, cutoff))
    && ToSet(log) == Asked(SweptContainers(w, rows, t1, cutoff), SweptNetworks(w, rows, t2, cutoff))
    && Within(k, SweptContainers(w, rows, t1, cutoff), SweptNetworks(w, rows, t2, cutoff))
    && (OwnNetworksOnly(w) ==>
          v == RemoveBut(w, SweptContainers(w, rows, t1, cutoff), SweptNetworks(w, rows, t2, cutoff), k))
  }

  /** With a grace period a pass is one tick of the sweep's schedule, refusals included, whenever it listed. */
  lemma PassIsTick(c: Config, rows: Table, w: World, v: World, t0: Time, t1: Time, t2: Time, k: Kept, log: seq<Request>)
    requires c.grace > 0 && t0 <= t1 <= t2 && OwnNetworksOnly(w) && Swept(rows, w, v, t1, t2, Cutoff(c, t0), k, log)
    ensures Convergence.Store(rows, v) ==
            Convergence.Effect(c, Convergence.Store(rows, w), Convergence.ReconcileTick(t0, k.containers, k.networks))
  {
    SweptWhenever(w, rows, t0, t1, t2, Cutoff(c, t0));
  }

  lemma SweptWhenever(w: World, rows: Table, t0: Time, t1: Time, t2: Time, cutoff: Time)
    requires cutoff < t0 <= t1 <= t2
    ensures SweptContainers(w, rows, t1, cutoff) == SweptContainers(w, rows, t0, cutoff)
    ensures SweptNetworks(w, rows, t2, cutoff) == SweptNetworks(w, rows, t0, cutoff)
  {
    FoundWhenever(w, t0, t1, cutoff);
    FoundWhenever(w, t0, t2, cutoff);
  }

  /** The labels found, whichever resources carry them. */
  function TagsOf(w: World, cs: set<ResId>, ns: set<ResId>): set<Label> {
    (set id | id in cs && id in w.containers && w.containers[id].tag.Some? :: w.containers[id].tag.value)
    + (set id | id in ns && id in w.networks && w.networks[id].tag.Some? :: w.networks[id].tag.value)
  }

  lemma TagsAreKeys(w: World, cs: set<ResId>, ns: set<ResId>, found: map<Label, LabelledResources>)
    requires Groups(found, w, cs, ns)
    ensures found.Keys == TagsOf(w, cs, ns)
  {
    forall l: Label
      ensures l in found.Keys <==> l in TagsOf(w, cs, ns)
    {
      assert Grouped(found, w, cs, ns, l);
      assert forall id :: id in cs && id in w.containers && w.containers[id].tag == Some(l) ==> id in ContainersUnder(cs, w, l);
      assert forall id :: id in ns && id in w.networks && w.networks[id].tag == Some(l) ==> id in NetworksUnder(ns, w, l);
    }
  }

  /** `removed` counts the sweepable labels found, and `skipped` the others. */
  predicate Counted(rows: Table, w: World, t1: Time, t2: Time, cutoff: Time, removed: nat, skipped: nat) {
    var tags := TagsOf(w, FoundContainers(w, t1, cutoff), FoundNetworks(w, t2, cutoff));
    removed == |SweepableLabels(rows, tags)| && removed + skipped == |tags|
  }

  lemma PassEnds(rows: Table, w: World, v: World, found: map<Label, LabelledResources>, cs: set<ResId>, ns: set<ResId>,
                 t1: Time, t2: Time, cutoff: Time, removed: nat, skipped: nat, k: Kept, log: seq<Request>)
    requires cs == FoundContainers(w, t1, cutoff) && ns == FoundNetworks(w, t2, cutoff) && Groups(found, w, cs, ns)
    requires Progress(rows, w, v, cs, ns, found.Keys, removed, skipped, k, log)
    ensures Swept(rows, w, v, t1, t2, cutoff, k, log) && Counted(rows, w, t1, t2, cutoff, removed, skipped)
  {
    TagsAreKeys(w, cs, ns, found);
    AllLabels(rows, w, t1, t2, cutoff, found);
  }

  /** The whole task: rows are read one label at a time, and everything found under a sweepable label is asked for. */
  method ReconcileOrphans(c: Config, db: Database, manager: DockerManager)
    returns (removed: nat, skipped: nat, ghost t1: Time, ghost t2: Time, ghost cutoff: Time,
             ghost k: Kept, ghost log: seq<Request>, ghost said: seq<Call>)
    modifies manager.daemon`now, manager.daemon`world, manager.daemon`asked, manager.daemon`calls
    ensures old(manager.daemon.now) <= t1 <= t2 && cutoff == Cutoff(c, old(manager.daemon.now))
    ensures Swept(db.rows, old(manager.daemon.world), manager.daemon.world, t1, t2, cutoff, k, log)
    ensures Counted(db.rows, old(manager.daemon.world), t1, t2, cutoff, removed, skipped)
    ensures Tracked(manager.daemon, old(manager.daemon.asked), old(manager.daemon.calls), k, log, said)
  {
    ghost var w := manager.daemon.world;
    cutoff := Cutoff(c, manager.daemon.now);
    var found, u1, u2 := manager.FindLabelled(c.grace);
    t1, t2 := u1, u2;
    ghost var cs, ns := FoundContainers(w, t1, cutoff), FoundNetworks(w, t2, cutoff);
    removed, skipped, k, log, said := SweepLabels(db, manager, found, cs, ns);
    PassEnds(db.rows, w, manager.daemon.world, found, cs, ns, t1, t2, cutoff, removed, skipped, k, log);
  }
}

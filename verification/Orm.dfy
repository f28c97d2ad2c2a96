/** Rows as mutable objects, and the sessions that write them back. */
module Orm {
  import opened Lifecycle

  /** A mapped row: its columns, and the values the session believes are stored. */
  class Environment {
    const id: EnvId
    var owner: string
    var name: string
    var template: string
    var ttl: nat
    var status: Status
    var statusChangedAt: Option<Time>
    var containerIds: seq<ResId>
    var networkId: Option<ResId>
    var hostPort: Option<nat>
    var startedAt: Option<Time>
    var expiresAt: Option<Time>
    var stoppedAt: Option<Time>
    var error: Option<Reason>
    var loaded: Row

    function AsRow(): Row
      reads this
    {
      Row(owner, name, template, ttl, status, statusChangedAt, containerIds, networkId, hostPort,
          startedAt, expiresAt, stoppedAt, error)
    }

    constructor (id: EnvId, row: Row)
      ensures this.id == id && AsRow() == row && loaded == row
    {
      this.id := id;
      owner, name, template, ttl := row.owner, row.name, row.template, row.ttl;
      status, statusChangedAt := row.status, row.statusChangedAt;
      containerIds, networkId, hostPort := row.containerIds, row.networkId, row.hostPort;
      startedAt, expiresAt, stoppedAt := row.startedAt, row.expiresAt, row.stoppedAt;
      error := row.error;
      loaded := row;
    }

    /** Changes the status and notes when. */
    method SetStatus(s: Status, now: Time)
      modifies this`status, this`statusChangedAt
      ensures AsRow() == Lifecycle.SetStatus(old(AsRow()), s, now)
    {
      status := s;
      statusChangedAt := Some(now);
    }
  }

  /** An UPDATE names only the columns that differ from what was loaded; the others keep what is stored. */
  function Merge(stored: Row, loaded: Row, row: Row): Row {
    Row(if row.owner != loaded.owner then row.owner else stored.owner,
        if row.name != loaded.name then row.name else stored.name,
        if row.template != loaded.template then row.template else stored.template,
        if row.ttl != loaded.ttl then row.ttl else stored.ttl,
        if row.status != loaded.status then row.status else stored.status,
        if row.statusChangedAt != loaded.statusChangedAt then row.statusChangedAt else stored.statusChangedAt,
        if row.containerIds != loaded.containerIds then row.containerIds else stored.containerIds,
        if row.networkId != loaded.networkId then row.networkId else stored.networkId,
        if row.hostPort != loaded.hostPort then row.hostPort else stored.hostPort,
        if row.startedAt != loaded.startedAt then row.startedAt else stored.startedAt,
        if row.expiresAt != loaded.expiresAt then row.expiresAt else stored.expiresAt,
        if row.stoppedAt != loaded.stoppedAt then row.stoppedAt else stored.stoppedAt,
        if row.error != loaded.error then row.error else stored.error)
  }

  /** With nobody writing in between, an update stores the row as it is; otherwise it keeps the others' columns. */
  lemma MergeKeepsOthers(stored: Row, loaded: Row, row: Row)
    ensures stored == loaded ==> Merge(stored, loaded, row) == row
    ensures row == loaded ==> Merge(stored, loaded, row) == stored
  {
  }

  /** An update of one column leaves what others wrote in the rest. */
  lemma MergeIsByColumn(stored: Row, loaded: Row, s: Status, now: Option<Time>, e: Option<Reason>)
    ensures loaded.status != s ==> Merge(stored, loaded, loaded.(status := s)) == stored.(status := s)
    ensures loaded.statusChangedAt != now ==> Merge(stored, loaded, loaded.(statusChangedAt := now)) == stored.(statusChangedAt := now)
    ensures loaded.error != e ==> Merge(stored, loaded, loaded.(error := e)) == stored.(error := e)
  {
  }

  /** The committed table. `reliable` says that no transaction fails. */
  class Database {
    var rows: Table
    const reliable: bool

    /** Anything other transactions may do meanwhile; they never delete. */
    method Others()
      modifies this`rows
      ensures forall id :: id in old(rows) ==> id in rows
    {
      var more: Table := *;
      rows := rows + more;
    }
  }

  predicate DistinctIds(envs: seq<Environment>) {
    forall i, j :: 0 <= i < j < |envs| ==> envs[i].id != envs[j].id
  }

  class Session {
    const db: Database
    var view: Table

    constructor (db: Database)
      ensures this.db == db && view == db.rows
    {
      this.db := db;
      view := db.rows;
    }

    method Begin()
      modifies this`view
      ensures view == db.rows
    {
      view := db.rows;
    }

    method Load(id: EnvId) returns (env: Environment?)
      modifies this`view
      ensures view == db.rows
      ensures env == null <==> id !in db.rows
      ensures env != null ==> fresh(env) && env.id == id && env.loaded == env.AsRow() == db.rows[id]
    {
      Begin();
      if id in view {
        env := new Environment(id, view[id]);
      } else {
        env := null;
      }
    }

    /** One fresh object for each row that passes the filter, as the transaction sees the table. */
    method Query(filter: Row -> bool) returns (envs: seq<Environment>)
      ensures fresh(envs) && DistinctIds(envs)
      ensures forall i :: 0 <= i < |envs| ==>
                envs[i].id in view && envs[i].loaded == envs[i].AsRow() == view[envs[i].id] && filter(view[envs[i].id])
      ensures forall id :: id in view && filter(view[id]) ==> exists i :: 0 <= i < |envs| && envs[i].id == id
    {
      envs := [];
      var left := set id | id in view && filter(view[id]);
      ghost var all := left;
      while left != {}
        invariant left <= all && fresh(envs) && DistinctIds(envs)
        invariant forall i :: 0 <= i < |envs| ==>
                    envs[i].id in all && envs[i].id !in left && envs[i].loaded == envs[i].AsRow() == view[envs[i].id]
        invariant forall id :: id in all && id !in left ==> exists i :: 0 <= i < |envs| && envs[i].id == id
        decreases |left|
      {
        var id :| id in left;
        var env := new Environment(id, view[id]);
        ghost var before := envs;
        envs := envs + [env];
        left := left - {id};
        assert envs[|before|].id == id;
        forall k | k in all && k !in left
          ensures exists i :: 0 <= i < |envs| && envs[i].id == k
        {
          if k != id {
            var i :| 0 <= i < |before| && before[i].id == k;
            assert envs[i].id == k;
          }
        }
      }
      assert forall id :: id in view && filter(view[id]) ==> id in all;
    }

    /** Emits the INSERT of a new row. */
    method Insert(id: EnvId, row: Row)
      requires id !in view
      modifies this`view
      ensures view == old(view)[id := row]
    {
      view := view[id := row];
    }

    /** Emits the UPDATE of one object. */
    method Flush(env: Environment)
      requires env.id in view
      modifies this`view, env`loaded
      ensures view == old(view)[env.id := Merge(old(view)[env.id], old(env.loaded), env.AsRow())]
      ensures env.loaded == env.AsRow()
    {
      view := view[env.id := Merge(view[env.id], env.loaded, env.AsRow())];
      env.loaded := env.AsRow();
    }

    /** Emits the UPDATEs of several objects whose rows nobody else has touched since they were read. */
    method FlushAll(envs: seq<Environment>)
      requires DistinctIds(envs)
      requires forall i :: 0 <= i < |envs| ==> envs[i].id in view && envs[i].loaded == view[envs[i].id]
      modifies this`view, (set e | e in envs)`loaded
      ensures view.Keys == old(view).Keys
      ensures forall i :: 0 <= i < |envs| ==> view[envs[i].id] == envs[i].AsRow()
      ensures forall id :: id in old(view) && (forall i :: 0 <= i < |envs| ==> envs[i].id != id) ==> view[id] == old(view)[id]
    {
      var k := 0;
      while k < |envs|
        invariant 0 <= k <= |envs| && view.Keys == old(view).Keys
        invariant forall i :: 0 <= i < k ==> view[envs[i].id] == envs[i].AsRow()
        invariant forall i :: k <= i < |envs| ==> envs[i].loaded == view[envs[i].id] == old(view)[envs[i].id]
        invariant forall id :: id in old(view) && (forall i :: 0 <= i < |envs| ==> envs[i].id != id) ==> view[id] == old(view)[id]
      {
        FlushUntouched(envs[k]);
        k := k + 1;
      }
    }

    method FlushUntouched(env: Environment)
      requires env.id in view && env.loaded == view[env.id]
      modifies this`view, env`loaded
      ensures view == old(view)[env.id := env.AsRow()]
      ensures env.loaded == env.AsRow() == old(env.AsRow())
    {
      MergeKeepsOthers(view[env.id], env.loaded, env.AsRow());
      Flush(env);
    }

    method Commit() returns (ok: bool)
      modifies db`rows
      ensures db.rows == if ok then view else old(db.rows)
      ensures db.reliable ==> ok
    {
      ok := *;
      if db.reliable {
        ok := true;
      }
      if ok {
        db.rows := view;
      }
    }
  }
}

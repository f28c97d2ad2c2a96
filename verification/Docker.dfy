/** The daemon, as far as a worker can see it, and the manager that drives it. */
module Docker {
  import opened Lifecycle
  import opened Naming
  import opened Worlds
  import opened Templates

  datatype ContainerStatus = Created | Up | Exited | Dead | OtherStatus

  datatype Health = Starting | Healthy | Unhealthy

  /** What one reload of a container shows. */
  datatype Observation = Observation(
    status: ContainerStatus, health: Option<Health>, oomKilled: bool, hostPort: Option<nat>)

  datatype ApiError = NotFound | OtherApiError

  datatype Failure =
    | UnknownTemplate | BadPlaceholder                  // ValueError
    | Died | OutOfMemory | FailedHealthcheck | NotReady | NoPort
    | Api(error: ApiError)

  predicate IsValueError(f: Failure) {
    f == UnknownTemplate || f == BadPlaceholder
  }

  datatype StackResult = StackResult(networkId: ResId, containerIds: seq<ResId>, hostPort: nat)

  datatype LabelledResources = LabelledResources(containerIds: seq<ResId>, networkIds: seq<ResId>)

  // ---- The daemon ----------------------------------------------------------

  /** What w has beyond v is env's: its label, names derived from its id, stamped between the two instants. */
  predicate GrewFor(v: World, w: World, env: EnvId, from: Time, until: Time) {
    && Sub(v, w)
    && (forall id :: id in w.containers && id !in v.containers ==>
          w.containers[id].tag == Some(Canonical(env)) && StampedIn(w.containers[id].createdAt, from, until)
          && w.containers[id].name == ContainerName(env, w.containers[id].role))
    && (forall id :: id in w.networks && id !in v.networks ==>
          w.networks[id].tag == Some(Canonical(env)) && StampedIn(w.networks[id].createdAt, from, until)
          && w.networks[id].name == NetworkName(env))
  }

  predicate StampedIn(stamp: Option<Time>, from: Time, until: Time) {
    stamp.Some? && from <= stamp.value <= until
  }

  predicate NameTaken(w: World, name: string) {
    exists id :: id in w.containers && w.containers[id].name == name
  }

  /** One line of a listing. */
  datatype Listed = Listed(id: ResId, tag: Option<Label>, createdAt: Option<Time>)

  /** The listing has each resource once, in some order. */
  predicate Lists(found: seq<Listed>, all: map<ResId, (Option<Label>, Option<Time>)>) {
    && (forall i, j :: 0 <= i < j < |found| ==> found[i].id != found[j].id)
    && (forall i :: 0 <= i < |found| ==> found[i].id in all && all[found[i].id] == (found[i].tag, found[i].createdAt))
    && (forall id :: id in all ==> exists i :: 0 <= i < |found| && found[i].id == id)
  }

  method ListAll(all: map<ResId, (Option<Label>, Option<Time>)>) returns (found: seq<Listed>)
    ensures Lists(found, all)
  {
    found := [];
    var left := all.Keys;
    while left != {}
      invariant left <= all.Keys
      invariant forall i, j :: 0 <= i < j < |found| ==> found[i].id != found[j].id
      invariant forall i :: 0 <= i < |found| ==>
                  found[i].id in all && found[i].id !in left && all[found[i].id] == (found[i].tag, found[i].createdAt)
      invariant forall id :: id in all && id !in left ==> exists i :: 0 <= i < |found| && found[i].id == id
      decreases |left|
    {
      var id :| id in left;
      ghost var before := found;
      found := found + [Listed(id, all[id].0, all[id].1)];
      left := left - {id};
      assert found[|before|].id == id;
      forall k | k in all && k !in left
        ensures exists i :: 0 <= i < |found| && found[i].id == k
      {
        if k != id {
          var i :| 0 <= i < |before| && before[i].id == k;
          assert found[i].id == k;
        }
      }
    }
  }

  /** What the daemon is asked for before it is asked to remove it. */
  datatype Request = ForContainer(id: ResId) | ForNetwork(id: ResId)

  predicate Holds(w: World, what: Request) {
    match what
    case ForContainer(id) => id in w.containers
    case ForNetwork(id) => id in w.networks
  }

  /** The calls of a removal, as the daemon answered them. */
  datatype Verb = LookUp | Halt | Delete

  datatype Call = Call(verb: Verb, what: Request, ok: bool)

  /** Some call about it was refused. */
  predicate RefusedIn(said: seq<Call>, what: Request) {
    exists i :: 0 <= i < |said| && said[i].what == what && !said[i].ok
  }

  /** A container is looked up, stopped and removed, each as long as the call before it succeeded. */
  predicate ContainerTalk(id: ResId, talk: seq<Call>) {
    var what := ForContainer(id);
    || talk == [Call(LookUp, what, false)]
    || talk == [Call(LookUp, what, true), Call(Halt, what, false)]
    || talk == [Call(LookUp, what, true), Call(Halt, what, true), Call(Delete, what, false)]
    || talk == [Call(LookUp, what, true), Call(Halt, what, true), Call(Delete, what, true)]
  }

  predicate NetworkTalk(id: ResId, talk: seq<Call>) {
    var what := ForNetwork(id);
    || talk == [Call(LookUp, what, false)]
    || talk == [Call(LookUp, what, true), Call(Delete, what, false)]
    || talk == [Call(LookUp, what, true), Call(Delete, what, true)]
  }

  ghost predicate ContainerTalks(said: seq<Call>, cids: seq<ResId>) {
    exists talks: seq<seq<Call>> ::
      |talks| == |cids| && said == Flat(talks) && forall i :: 0 <= i < |cids| ==> ContainerTalk(cids[i], talks[i])
  }

  ghost predicate NetworkTalks(said: seq<Call>, nids: seq<ResId>) {
    exists talks: seq<seq<Call>> ::
      |talks| == |nids| && said == Flat(talks) && forall i :: 0 <= i < |nids| ==> NetworkTalk(nids[i], talks[i])
  }

  /** All that is said in one removal: every container's turn, in order, and then every network's. */
  ghost predicate Dialogue(said: seq<Call>, cids: seq<ResId>, nids: seq<ResId>) {
    exists n :: 0 <= n <= |said| && ContainerTalks(said[..n], cids) && NetworkTalks(said[n..], nids)
  }

  /** Whatever was kept, Docker refused a call about it. */
  predicate Excused(containers: set<ResId>, networks: set<ResId>, said: seq<Call>) {
    && (forall id :: id in containers ==> RefusedIn(said, ForContainer(id)))
    && (forall id :: id in networks ==> RefusedIn(said, ForNetwork(id)))
  }

  lemma StillRefused(said: seq<Call>, more: seq<Call>, what: Request)
    ensures RefusedIn(said, what) || RefusedIn(more, what) <==> RefusedIn(said + more, what)
  {
    var all := said + more;
    if RefusedIn(said, what) {
      var i :| 0 <= i < |said| && said[i].what == what && !said[i].ok;
      assert all[i] == said[i];
    }
    if RefusedIn(more, what) {
      var i :| 0 <= i < |more| && more[i].what == what && !more[i].ok;
      assert all[|said| + i] == more[i];
    }
  }

  lemma RefusedOn(said: seq<Call>, more: seq<Call>)
    ensures forall what: Request :: RefusedIn(said, what) || RefusedIn(more, what) ==> RefusedIn(said + more, what)
  {
    forall what: Request
      ensures RefusedIn(said, what) || RefusedIn(more, what) ==> RefusedIn(said + more, what)
    {
      StillRefused(said, more, what);
    }
  }

  lemma ExcusedOn(a: set<ResId>, b: set<ResId>, said: seq<Call>, c: set<ResId>, d: set<ResId>, more: seq<Call>)
    requires Excused(a, b, said) && Excused(c, d, more)
    ensures Excused(a + c, b + d, said + more)
  {
    RefusedOn(said, more);
  }

  lemma OneContainerMore(said: seq<Call>, cids: seq<ResId>, id: ResId, talk: seq<Call>)
    requires ContainerTalks(said, cids) && ContainerTalk(id, talk)
    ensures ContainerTalks(said + talk, cids + [id])
  {
    var talks: seq<seq<Call>> :|
      |talks| == |cids| && said == Flat(talks) && forall i :: 0 <= i < |cids| ==> ContainerTalk(cids[i], talks[i]);
    FlatGrew(talks, talk);
    assert |talks + [talk]| == |cids + [id]|;
  }

  lemma OneNetworkMore(said: seq<Call>, nids: seq<ResId>, id: ResId, talk: seq<Call>)
    requires NetworkTalks(said, nids) && NetworkTalk(id, talk)
    ensures NetworkTalks(said + talk, nids + [id])
  {
    var talks: seq<seq<Call>> :|
      |talks| == |nids| && said == Flat(talks) && forall i :: 0 <= i < |nids| ==> NetworkTalk(nids[i], talks[i]);
    FlatGrew(talks, talk);
    assert |talks + [talk]| == |nids + [id]|;
  }

  /** Docker refused a call about every listed container that is still there. */
  predicate LeftExcused(w: World, cids: seq<ResId>, said: seq<Call>) {
    forall id :: id in cids && id in w.containers ==> RefusedIn(said, ForContainer(id))
  }

  predicate LeftNetworksExcused(w: World, nids: seq<ResId>, said: seq<Call>) {
    forall id :: id in nids && id in w.networks ==> RefusedIn(said, ForNetwork(id))
  }

  /** How the first loop stands after these containers. */
  predicate ContainersSoFar(before: World, v: World, cids: seq<ResId>, said: seq<Call>, reliable: bool) {
    && Sub(v, before) && v.networks == before.networks && LeftExcused(v, cids, said)
    && (forall id :: id in before.containers && id !in cids ==> id in v.containers)
    && (reliable ==> forall id :: id in cids ==> id !in v.containers)
  }

  lemma ContainersLeft(before: World, v: World, cids: seq<ResId>, said: seq<Call>, reliable: bool, kept: set<ResId>)
    requires ContainersSoFar(before, v, cids, said, reliable) && kept == set id | id in cids && id in v.containers
    ensures v == before.(containers := before.containers - (ToSet(cids) - kept)) && Excused(kept, {}, said)
    ensures reliable ==> kept == {}
  {
    assert v.containers == before.containers - (ToSet(cids) - kept);
  }

  /** One container's turn. */
  lemma ContainerTurn(before: World, w: World, v: World, said: seq<Call>, cids: seq<ResId>, i: nat, talk: seq<Call>, reliable: bool)
    requires i < |cids| && ContainerTalks(said, cids[..i]) && ContainerTalk(cids[i], talk)
    requires ContainersSoFar(before, w, cids[..i], said, reliable) && (v == w || v == RemoveContainer(w, cids[i]))
    requires cids[i] in v.containers ==> RefusedIn(talk, ForContainer(cids[i])) && !reliable
    ensures ContainerTalks(said + talk, cids[..i + 1]) && ContainersSoFar(before, v, cids[..i + 1], said + talk, reliable)
    ensures ContainerRequests(cids[..i + 1]) == ContainerRequests(cids[..i]) + [ForContainer(cids[i])]
  {
    assert cids[..i + 1] == cids[..i] + [cids[i]];
    OneContainerMore(said, cids[..i], cids[i], talk);
    RefusedOn(said, talk);
  }

  /** One network's turn. */
  lemma NetworkTurn(left: World, w: World, v: World, said: seq<Call>, nids: seq<ResId>, i: nat, talk: seq<Call>, reliable: bool)
    requires i < |nids| && NetworkTalks(said, nids[..i]) && NetworkTalk(nids[i], talk)
    requires NetworksSoFar(left, w, nids[..i], said, reliable) && (v == w || v == RemoveNetwork(w, nids[i]))
    requires nids[i] in v.networks ==> RefusedIn(talk, ForNetwork(nids[i])) && (Attached(w, nids[i]) == {} ==> !reliable)
    ensures NetworkTalks(said + talk, nids[..i + 1]) && NetworksSoFar(left, v, nids[..i + 1], said + talk, reliable)
    ensures NetworkRequests(nids[..i + 1]) == NetworkRequests(nids[..i]) + [ForNetwork(nids[i])]
  {
    assert nids[..i + 1] == nids[..i] + [nids[i]];
    assert Attached(w, nids[i]) == Attached(left, nids[i]);
    assert Removable(left, nids[..i + 1]) ==
           Removable(left, nids[..i]) + (if Attached(left, nids[i]) == {} then {nids[i]} else {});
    OneNetworkMore(said, nids[..i], nids[i], talk);
    RefusedOn(said, talk);
  }

  /** How the second loop stands after these networks. */
  predicate NetworksSoFar(left: World, v: World, nids: seq<ResId>, said: seq<Call>, reliable: bool) {
    && Sub(v, left) && v.containers == left.containers && LeftNetworksExcused(v, nids, said)
    && (forall id :: id in left.networks && id !in Removable(left, nids) ==> id in v.networks)
    && (reliable ==> Removable(left, nids) !! v.networks.Keys)
  }

  /** The networks that nothing was in the way of, and that are still there. */
  function KeptOf(left: World, v: World, nids: seq<ResId>): set<ResId> {
    set n | n in Removable(left, nids) && n in v.networks
  }

  lemma NetworksLeft(left: World, v: World, nids: seq<ResId>, said: seq<Call>, reliable: bool)
    requires NetworksSoFar(left, v, nids, said, reliable)
    ensures reliable ==> KeptOf(left, v, nids) == {}
    ensures v == left.(networks := left.networks - (Removable(left, nids) - KeptOf(left, v, nids)))
    ensures Excused({}, KeptOf(left, v, nids), said) && forall n :: n in KeptOf(left, v, nids) ==> Attached(v, n) == {}
  {
    forall n | n in KeptOf(left, v, nids)
      ensures Attached(v, n) == {}
    {
      assert Attached(v, n) == Attached(left, n);
    }
    assert v.networks == left.networks - (Removable(left, nids) - KeptOf(left, v, nids));
  }

  lemma NoTalks()
    ensures ContainerTalks([], []) && NetworkTalks([], [])
  {
    var talks: seq<seq<Call>> := [];
    assert Flat(talks) == [];
  }

  function ContainerRequests(cids: seq<ResId>): (asked: seq<Request>)
    ensures |asked| == |cids|
  {
    seq(|cids|, i requires 0 <= i < |cids| => ForContainer(cids[i]))
  }

  function NetworkRequests(nids: seq<ResId>): (asked: seq<Request>)
    ensures |asked| == |nids|
  {
    seq(|nids|, i requires 0 <= i < |nids| => ForNetwork(nids[i]))
  }

  /** The requests of one removal: every container before any network. */
  function Requests(cids: seq<ResId>, nids: seq<ResId>): seq<Request> {
    ContainerRequests(cids) + NetworkRequests(nids)
  }

  function FailedCall<T>(r: Result<T, ApiError>): seq<ApiError> {
    if r.Err? then [r.error] else []
  }

  /** The failed call, if that is what a provision, or a part of it, ended in. */
  function ErrorIn<T>(r: Result<T, Failure>): seq<ApiError> {
    if r.Err? && r.error.Api? then [r.error.error] else []
  }

  /**
   * Calls may fail, or succeed unanswered; each takes at most `callTime`. `reliable` says that no call fails
   * other than for what it was asked. `asked` and `calls` log the removals, `observed` the reloads, and `errors`
   * the calls of a provision that failed.
   */
  class Daemon {
    var world: World
    var now: Time
    var nextId: ResId
    var observed: seq<(ResId, Observation)>
    var asked: seq<Request>
    var calls: seq<Call>
    var errors: seq<ApiError>
    const callTime: nat
    const reliable: bool

    predicate Valid()
      reads this
    {
      && (forall id :: id in world.containers ==> id < nextId)
      && (forall id :: id in world.networks ==> id < nextId)
    }

    /** Lets between 0 and callTime pass. */
    method Wait()
      modifies this`now
      ensures old(now) <= now <= old(now) + callTime
    {
      var dt: nat :| dt <= callTime;
      now := now + dt;
    }

    method Sleep(dt: nat)
      modifies this`now
      ensures now == old(now) + dt
    {
      now := now + dt;
    }

    method CreateNetwork(env: EnvId) returns (r: Result<ResId, ApiError>)
      requires Valid()
      modifies this`world, this`now, this`nextId, this`errors
      ensures errors == old(errors) + FailedCall(r)
      ensures Valid() && old(now) <= now <= old(now) + callTime
      ensures GrewFor(old(world), world, env, old(now), now) && world.containers == old(world).containers
      ensures r.Ok? ==> r.value !in old(world).networks && r.value in world.networks
      ensures r.Ok? ==> forall id :: id in world.networks ==> id == r.value || id in old(world).networks
    {
      Wait();
      var made, answered := *, *;
      if made || reliable {
        var n := Network(NetworkName(env), Some(Canonical(env)), Some(now));
        world := world.(networks := world.networks[nextId := n]);
        r := if answered || reliable then Ok(nextId) else Err(OtherApiError);
        nextId := nextId + 1;
      } else {
        r := Err(OtherApiError);
      }
      errors := errors + FailedCall(r);
    }

    /** Docker refuses a name in use; otherwise it may make the container and yet fail to start it, or to answer. */
    method RunContainer(env: EnvId, role: string, network: ResId) returns (r: Result<ResId, ApiError>)
      requires Valid()
      modifies this`world, this`now, this`nextId, this`errors
      ensures errors == old(errors) + FailedCall(r)
      ensures Valid() && old(now) <= now <= old(now) + callTime
      ensures GrewFor(old(world), world, env, old(now), now) && world.networks == old(world).networks
      ensures forall id :: id in world.containers && id !in old(world).containers ==>
                world.containers[id].role == role && world.containers[id].network == Some(network)
      ensures NameTaken(old(world), ContainerName(env, role)) ==> r.Err? && world == old(world)
      ensures r.Ok? ==> r.value !in old(world).containers && r.value in world.containers
    {
      Wait();
      var made, started := *, *;
      var taken := exists id :: id in world.containers && world.containers[id].name == ContainerName(env, role);
      if made && !taken {
        var k := Container(ContainerName(env, role), Some(Canonical(env)), role, Some(network), Some(now));
        world := world.(containers := world.containers[nextId := k]);
        r := if started then Ok(nextId) else Err(OtherApiError);
        nextId := nextId + 1;
      } else {
        r := Err(OtherApiError);
      }
      errors := errors + FailedCall(r);
    }

    /** Looks something up, on the way to its removal. */
    method Get(what: Request) returns (r: Result<(), ApiError>)
      modifies this`now, this`asked, this`calls
      ensures asked == old(asked) + [what] && calls == old(calls) + [Call(LookUp, what, r.Ok?)]
      ensures !Holds(world, what) ==> r.Err?
      ensures reliable ==> r == if Holds(world, what) then Ok(()) else Err(NotFound)
    {
      asked := asked + [what];
      r := Answer(LookUp, what);
    }

    /** NotFound exactly for what is not there; an unreliable daemon may fail otherwise. */
    method Answer(verb: Verb, what: Request) returns (r: Result<(), ApiError>)
      modifies this`now, this`calls
      ensures calls == old(calls) + [Call(verb, what, r.Ok?)]
      ensures !Holds(world, what) ==> r.Err?
      ensures reliable ==> r == if Holds(world, what) then Ok(()) else Err(NotFound)
    {
      Wait();
      var answered := *;
      r := if !Holds(world, what) then Err(if answered || reliable then NotFound else OtherApiError)
           else if answered || reliable then Ok(()) else Err(OtherApiError);
      calls := calls + [Call(verb, what, r.Ok?)];
    }

    method StopContainer(cid: ResId) returns (r: Result<(), ApiError>)
      modifies this`now, this`calls
      ensures calls == old(calls) + [Call(Halt, ForContainer(cid), r.Ok?)]
      ensures reliable && cid in world.containers ==> r.Ok?
    {
      r := Answer(Halt, ForContainer(cid));
    }

    /** It may obey and yet not say so; but what it says is done is done. */
    method RemoveContainer(cid: ResId) returns (r: Result<(), ApiError>)
      modifies this`world, this`now, this`calls
      ensures calls == old(calls) + [Call(Delete, ForContainer(cid), r.Ok?)]
      ensures world == Worlds.RemoveContainer(old(world), cid) || world == old(world)
      ensures r.Ok? ==> world == Worlds.RemoveContainer(old(world), cid)
      ensures reliable ==> r.Ok?
    {
      Wait();
      var obeyed, answered := *, *;
      if obeyed || reliable {
        world := Worlds.RemoveContainer(world, cid);
      }
      r := if (obeyed && answered) || reliable then Ok(()) else Err(OtherApiError);
      calls := calls + [Call(Delete, ForContainer(cid), r.Ok?)];
    }

    /** A network in use is refused. */
    method RemoveNetwork(nid: ResId) returns (r: Result<(), ApiError>)
      modifies this`world, this`now, this`calls
      ensures calls == old(calls) + [Call(Delete, ForNetwork(nid), r.Ok?)]
      ensures world == Worlds.RemoveNetwork(old(world), nid) || world == old(world)
      ensures r.Ok? ==> Attached(old(world), nid) == {} && world == Worlds.RemoveNetwork(old(world), nid)
      ensures reliable && Attached(old(world), nid) == {} ==> r.Ok?
    {
      Wait();
      var obeyed, answered := *, *;
      var free := Attached(world, nid) == {};
      if obeyed || reliable {
        world := Worlds.RemoveNetwork(world, nid);
      }
      r := if free && ((obeyed && answered) || reliable) then Ok(()) else Err(OtherApiError);
      calls := calls + [Call(Delete, ForNetwork(nid), r.Ok?)];
    }

    method ListContainers() returns (found: seq<Listed>)
      modifies this`now
      ensures now >= old(now)
      ensures Lists(found, map id | id in world.containers :: (world.containers[id].tag, world.containers[id].createdAt))
    {
      Wait();
      found := ListAll(map id | id in world.containers :: (world.containers[id].tag, world.containers[id].createdAt));
    }

    method ListNetworks() returns (found: seq<Listed>)
      modifies this`now
      ensures now >= old(now)
      ensures Lists(found, map id | id in world.networks :: (world.networks[id].tag, world.networks[id].createdAt))
    {
      Wait();
      found := ListAll(map id | id in world.networks :: (world.networks[id].tag, world.networks[id].createdAt));
    }

    /** What a reload shows is the container's business. */
    method Reload(cid: ResId) returns (r: Result<Observation, ApiError>)
      modifies this`now, this`observed, this`errors
      ensures errors == old(errors) + FailedCall(r)
      ensures old(now) <= now <= old(now) + callTime
      ensures r.Ok? ==> observed == old(observed) + [(cid, r.value)]
      ensures r.Err? ==> observed == old(observed)
    {
      Wait();
      var answered, oom := *, *;
      var status: ContainerStatus := *;
      var health: Option<Health> := *;
      var port: Option<nat> := *;
      if answered {
        r := Ok(Observation(status, health, oom, port));
        observed := observed + [(cid, r.value)];
      } else {
        r := Err(OtherApiError);
      }
      errors := errors + FailedCall(r);
    }
  }

  // ---- Readiness -----------------------------------------------------------

  predicate ReadyNow(s: Spec, o: Observation) {
    o.status == Up && (s.healthcheck ==> o.health == Some(Healthy))
  }

  predicate FailedNow(s: Spec, o: Observation) {
    o.status in {Exited, Dead} || (o.status == Up && s.healthcheck && o.health == Some(Unhealthy))
  }

  predicate Undecided(s: Spec, o: Observation) {
    !ReadyNow(s, o) && !FailedNow(s, o)
  }

  function FailureShown(o: Observation): Failure {
    if o.status in {Exited, Dead} then (if o.oomKilled then OutOfMemory else Died) else FailedHealthcheck
  }

  /** The observations of one wait: all of its own container, and only the last can settle it. */
  predicate WaitShape(s: Spec, cid: ResId, seen: seq<(ResId, Observation)>) {
    && (forall i :: 0 <= i < |seen| ==> seen[i].0 == cid)
    && (forall i :: 0 <= i < |seen| - 1 ==> Undecided(s, seen[i].1))
  }

  /** The result of a wait is what its last observation settles, or else that the deadline passed or a call failed. */
  predicate WaitResult(s: Spec, seen: seq<(ResId, Observation)>, r: Result<(), Failure>, deadlinePassed: bool) {
    match r
    case Ok(_) => seen != [] && ReadyNow(s, seen[|seen| - 1].1)
    case Err(f) =>
      match f
      case Died | OutOfMemory | FailedHealthcheck =>
        seen != [] && FailedNow(s, seen[|seen| - 1].1) && f == FailureShown(seen[|seen| - 1].1)
      case NotReady => deadlinePassed && (seen != [] ==> Undecided(s, seen[|seen| - 1].1))
      case Api(_) => seen != [] ==> Undecided(s, seen[|seen| - 1].1)
      case _ => false
  }

  const POLL: Time := 2 * SECOND

  /** What the first loop has asked, said and done after these containers; likewise the second, after these networks. */
  ghost predicate AfterContainers(daemon: Daemon, before: World, asked: seq<Request>, calls: seq<Call>, cids: seq<ResId>,
                                  said: seq<Call>)
    reads daemon
  {
    && daemon.asked == asked + ContainerRequests(cids) && daemon.calls == calls + said
    && ContainerTalks(said, cids) && ContainersSoFar(before, daemon.world, cids, said, daemon.reliable)
  }

  ghost predicate AfterNetworks(daemon: Daemon, left: World, asked: seq<Request>, calls: seq<Call>, nids: seq<ResId>,
                                said: seq<Call>)
    reads daemon
  {
    && daemon.asked == asked + NetworkRequests(nids) && daemon.calls == calls + said
    && NetworkTalks(said, nids) && NetworksSoFar(left, daemon.world, nids, said, daemon.reliable)
  }

  class DockerManager {
    const daemon: Daemon
    const templates: map<string, Template>
    const readyTimeout: nat
    var trace: seq<Event>

    constructor (daemon: Daemon, templates: map<string, Template>, readyTimeout: nat)
      ensures this.daemon == daemon && this.templates == templates && this.readyTimeout == readyTimeout && trace == []
    {
      this.daemon := daemon;
      this.templates := templates;
      this.readyTimeout := readyTimeout;
      trace := [];
    }

    /** A timeout of None or zero means the configured one. */
    function Deadline(timeout: Option<nat>): nat {
      if timeout.Some? && timeout.value != 0 then timeout.value else readyTimeout
    }

    /** `seen` is what the reloads showed, in order. */
    method WaitForReady(cid: ResId, s: Spec, timeout: Option<nat>)
      returns (r: Result<(), Failure>, ghost seen: View)
      modifies daemon`now, daemon`observed, daemon`errors
      ensures daemon.observed == old(daemon.observed) + seen
      ensures daemon.errors == old(daemon.errors) + ErrorIn(r)
      ensures daemon.now <= old(daemon.now) + Times(|seen|, 2_000_000 + daemon.callTime) + daemon.callTime
      ensures r == Err(NotReady) ==> daemon.now <= old(daemon.now) + Times(|seen|, 2_000_000 + daemon.callTime)
      ensures WaitShape(s, cid, seen) && WaitResult(s, seen, r, daemon.now >= old(daemon.now) + Deadline(timeout))
      ensures old(daemon.now) <= daemon.now <= old(daemon.now) + Deadline(timeout) + POLL + daemon.callTime
      ensures r == Err(NotReady) && (timeout == None || timeout == Some(0)) ==> daemon.now >= old(daemon.now) + readyTimeout
      ensures r == Err(NotReady) && timeout.Some? ==> daemon.now >= old(daemon.now) + timeout.value
      ensures readyTimeout > 0 && timeout == None && r.Err? ==> seen != [] || r.error.Api?
      ensures seen != [] ==> daemon.now >= old(daemon.now) + 2_000_000 * (|seen| - 1)
      ensures r == Err(NotReady) ==> daemon.now >= old(daemon.now) + 2_000_000 * |seen|
    {
      var deadline := daemon.now + Deadline(timeout);
      seen := [];
      while daemon.now < deadline
        invariant daemon.observed == old(daemon.observed) + seen
        invariant WaitShape(s, cid, seen) && (seen != [] ==> Undecided(s, seen[|seen| - 1].1))
        invariant old(daemon.now) <= daemon.now <= deadline + POLL + daemon.callTime
        invariant daemon.now >= old(daemon.now) + 2_000_000 * |seen|
        invariant seen == [] ==> daemon.now == old(daemon.now)
        invariant daemon.errors == old(daemon.errors)
        invariant daemon.now <= old(daemon.now) + Times(|seen|, 2_000_000 + daemon.callTime)
        decreases deadline - daemon.now
      {
        var o := daemon.Reload(cid);
        if o.Err? {
          return Err(Api(o.error)), seen;
        }
        seen := seen + [(cid, o.value)];
        if o.value.status in {Exited, Dead} {
          return Err(if o.value.oomKilled then OutOfMemory else Died), seen;
        }
        if o.value.status == Up {
          if !s.healthcheck {
            return Ok(()), seen;
          }
          if o.value.health == Some(Healthy) {
            return Ok(()), seen;
          }
          if o.value.health == Some(Unhealthy) {
            return Err(FailedHealthcheck), seen;
          }
        }
        daemon.Sleep(POLL);
      }
      return Err(NotReady), seen;
    }

    function RoleTime(): nat {
      RoleLimit(readyTimeout, daemon.callTime)
    }

    /**
     * Whatever way it ends, an attempt adds to the daemon only what carries its own label, keeps within the time
     * of its roles, and has started and waited for a prefix of the start order; it succeeds with one container
     * for each role in that order, and never when some role's name was already taken.
     */
    method Provision(env: EnvId, templateName: string)
      returns (r: Result<StackResult, Failure>, ghost ids: seq<ResId>, ghost views: seq<View>)
      requires daemon.Valid()
      modifies daemon`world, daemon`now, daemon`nextId, daemon`observed, daemon`errors, this`trace
      ensures daemon.Valid()
      ensures GrewFor(old(daemon.world), daemon.world, env, old(daemon.now), daemon.now)
      ensures !Known(templateName) ==>
                r == Err(UnknownTemplate) && daemon.world == old(daemon.world) && daemon.now == old(daemon.now)
      ensures r == Err(UnknownTemplate) <==> !(templateName in templates && templates[templateName] != [])
      ensures r.Err? ==> FailsFor(templateName, r.error, views, old(daemon.now))
      ensures daemon.errors == old(daemon.errors) + ErrorIn(r)
      ensures daemon.observed == old(daemon.observed) + Flat(views)
      ensures Known(templateName) ==>
                old(daemon.now) <= daemon.now <= old(daemon.now) + AttemptLimit(templateName)
      ensures Known(templateName) ==>
                var order := StartOrder(templates[templateName]);
                && StartedPart(old(trace), trace, order)
                && (r.Ok? ==> Succeeded(old(daemon.world), r.value, env, order) && r.value.containerIds == ids
                              && trace == old(trace) + StartTrace(order)
                              && ViewsOf(views, ids, order) && LastPort(order, views) == Some(r.value.hostPort))
                && (r == Err(NoPort) ==> StackUp(daemon.world, old(daemon.world), ids, order)
                                         && ViewsOf(views, ids, order) && LastPort(order, views) == None)
    {
      ids, views := [], [];
      if !Known(templateName) {
        return Err(UnknownTemplate), ids, views;
      }
      var specs := StartOrder(templates[templateName]);
      PickKeepsAll(templates[templateName]);
      r, ids, views := BuildStack(env, specs);
    }

    /** The network, and one role after the other. */
    method BuildStack(env: EnvId, specs: Template)
      returns (r: Result<StackResult, Failure>, ghost ids: seq<ResId>, ghost views: seq<View>)
      requires daemon.Valid()
      modifies daemon`world, daemon`now, daemon`nextId, daemon`observed, daemon`errors, this`trace
      ensures daemon.Valid() && GrewFor(old(daemon.world), daemon.world, env, old(daemon.now), daemon.now)
      ensures old(daemon.now) <= daemon.now <= old(daemon.now) + StackLimit(|specs|, readyTimeout, daemon.callTime)
      ensures daemon.observed == old(daemon.observed) + Flat(views) && daemon.errors == old(daemon.errors) + ErrorIn(r)
      ensures StartedPart(old(trace), trace, specs)
      ensures r.Ok? ==> Succeeded(old(daemon.world), r.value, env, specs) && r.value.containerIds == ids
                        && trace == old(trace) + StartTrace(specs)
                        && ViewsOf(views, ids, specs) && LastPort(specs, views) == Some(r.value.hostPort)
      ensures r == Err(NoPort) ==> StackUp(daemon.world, old(daemon.world), ids, specs)
                                   && ViewsOf(views, ids, specs) && LastPort(specs, views) == None
      ensures r.Err? && r.error != NoPort && !r.error.Api? ==> LastFailed(views, specs, r.error)
      ensures r == Err(NotReady) ==> daemon.now >= old(daemon.now) + readyTimeout
    {
      ids, views := [], [];
      var network := daemon.CreateNetwork(env);
      NothingStarted(trace, specs);
      if network.Err? {
        TimesMonotone(0, |specs|, RoleTime());
        return Err(Api(network.error)), ids, views;
      }
      ghost var before, mid := daemon.world, daemon.now;
      var roles, shown := StartRoles(env, network.value, specs);
      views := shown;
      GrewOn(old(daemon.world), before, daemon.world, env, old(daemon.now), mid, daemon.now);
      if roles.Err? {
        return Err(roles.error), ids, views;
      }
      ids := roles.value.0;
      StackSince(old(daemon.world), before, daemon.world, ids, env, network.value, specs);
      if roles.value.1.None? {
        return Err(NoPort), ids, views;
      }
      return Ok(StackResult(network.value, roles.value.0, roles.value.1.value)), ids, views;
    }

    /** Where a provision stands: an attempt of env that found the daemon so at `from`. */
    ghost predicate Growing(before: World, from: Time, env: EnvId, limit: nat, observed: View, views: seq<View>)
      reads daemon
    {
      && daemon.Valid() && daemon.world.networks == before.networks
      && GrewFor(before, daemon.world, env, from, daemon.now) && from <= daemon.now <= from + limit
      && daemon.observed == observed + Flat(views)
    }

    /** The first roles of the order are up. */
    ghost predicate Built(before: World, env: EnvId, network: ResId, order: Template, events: seq<Event>,
                          ids: seq<ResId>, port: Option<nat>, views: seq<View>)
      reads this, daemon
    {
      && trace == events + StartTrace(order)
      && RolesUp(before, daemon.world, env, network, ids, views, order) && port == LastPort(order, views)
    }

    /** The loop of provision: the containers in start order, and the last host port seen. */
    method StartRoles(env: EnvId, network: ResId, specs: Template)
      returns (r: Result<(seq<ResId>, Option<nat>), Failure>, ghost views: seq<View>)
      requires daemon.Valid()
      modifies daemon`world, daemon`now, daemon`nextId, daemon`observed, daemon`errors, this`trace
      ensures Growing(old(daemon.world), old(daemon.now), env, Times(|specs|, RoleTime()), old(daemon.observed), views)
      ensures StartedPart(old(trace), trace, specs)
      ensures r.Ok? ==> Built(old(daemon.world), env, network, specs, old(trace), r.value.0, r.value.1, views)
      ensures r.Err? ==> LastFailed(views, specs, r.error)
      ensures daemon.errors == old(daemon.errors) + ErrorIn(r)
      ensures r == Err(NotReady) ==> daemon.now >= old(daemon.now) + readyTimeout
    {
      ghost var before, from, events, observed := daemon.world, daemon.now, trace, daemon.observed;
      views := [];
      var containerIds: seq<ResId> := [];
      var hostPort: Option<nat> := None;
      var i := 0;
      assert specs[..0] == [];
      while i < |specs|
        invariant 0 <= i <= |specs|
        invariant Growing(before, from, env, Times(i, RoleTime()), observed, views)
        invariant Built(before, env, network, specs[..i], events, containerIds, hostPort, views)
        invariant daemon.errors == old(daemon.errors)
      {
        TimesMonotone(i + 1, |specs|, RoleTime());
        var c, shown := NextRole(env, network, specs, i, before, from, events, observed, containerIds, hostPort, views);
        views := shown;
        if c.Err? {
          EarlierReady(views, containerIds, specs, i);
          return Err(c.error), views;
        }
        containerIds := containerIds + [c.value.0];
        if c.value.1.Some? {
          hostPort := c.value.1;
        }
        i := i + 1;
      }
      assert specs[..|specs|] == specs;
      WholeTrace(events, specs);
      return Ok((containerIds, hostPort)), views;
    }

    /** One role more, or the end. */
    method NextRole(env: EnvId, network: ResId, specs: Template, i: nat,
                    ghost before: World, ghost from: Time, ghost events: seq<Event>, ghost observed: View,
                    ghost ids: seq<ResId>, ghost port: Option<nat>, ghost views: seq<View>)
      returns (c: Result<(ResId, Option<nat>), Failure>, ghost views': seq<View>)
      requires i < |specs| && Growing(before, from, env, Times(i, RoleTime()), observed, views)
      requires Built(before, env, network, specs[..i], events, ids, port, views)
      modifies daemon`world, daemon`now, daemon`nextId, daemon`observed, daemon`errors, this`trace
      ensures Growing(before, from, env, Times(i + 1, RoleTime()), observed, views')
      ensures StartedPart(events, trace, specs)
      ensures c.Ok? ==> Built(before, env, network, specs[..i + 1], events, ids + [c.value.0],
                              if c.value.1.Some? then c.value.1 else port, views')
      ensures daemon.errors == old(daemon.errors) + ErrorIn(c)
      ensures |views'| == i + 1 && views'[..i] == views && (c.Err? ==> RoleFailed(specs[i], views'[i], c.error))
      ensures c == Err(NotReady) ==> daemon.now >= old(daemon.now) + readyTimeout
    {
      ghost var v := daemon.world;
      PartOfTrace(events, specs, i);
      ghost var view;
      c, view := GrowByRole(env, network, specs[i], before, from, Times(i, RoleTime()), observed, views);
      views' := views + [view];
      if c.Ok? {
        RolesGrew(before, v, daemon.world, env, network, ids, c.value.0, views, view, specs, i);
      }
    }

    /** Whatever becomes of one role more, the attempt grows by it. */
    method GrowByRole(env: EnvId, network: ResId, s: Spec, ghost before: World, ghost from: Time, ghost limit: nat,
                      ghost observed: View, ghost views: seq<View>)
      returns (c: Result<(ResId, Option<nat>), Failure>, ghost view: View)
      requires Growing(before, from, env, limit, observed, views)
      modifies daemon`world, daemon`now, daemon`nextId, daemon`observed, daemon`errors, this`trace
      ensures Growing(before, from, env, limit + RoleTime(), observed, views + [view]) && Sub(old(daemon.world), daemon.world)
      ensures trace == old(trace) || trace == old(trace) + [Started(s.role)]
              || trace == old(trace) + [Started(s.role)] + [Ready(s.role)]
      ensures c.Ok? ==> trace == old(trace) + [Started(s.role)] + [Ready(s.role)]
      ensures c.Ok? ==> RoleUp(old(daemon.world), daemon.world, env, network, s, c.value.0)
      ensures c.Ok? ==> ViewOf(s, view, c.value.0) && c.value.1 == PortIn(s, view)
      ensures daemon.errors == old(daemon.errors) + ErrorIn(c)
      ensures c.Err? ==> RoleFailed(s, view, c.error)
      ensures c == Err(NotReady) ==> daemon.now >= old(daemon.now) + readyTimeout
    {
      ghost var v, mid := daemon.world, daemon.now;
      c, view := StartRole(env, network, s);
      FlatGrew(views, view);
      GrewOn(before, v, daemon.world, env, from, mid, daemon.now);
    }

    /** One trip round provision's loop: the new container, and the host port it was seen to have, if any. */
    method StartRole(env: EnvId, network: ResId, s: Spec)
      returns (r: Result<(ResId, Option<nat>), Failure>, ghost view: View)
      requires daemon.Valid()
      modifies daemon`world, daemon`now, daemon`nextId, daemon`observed, daemon`errors, this`trace
      ensures daemon.Valid() && daemon.world.networks == old(daemon.world).networks
      ensures GrewFor(old(daemon.world), daemon.world, env, old(daemon.now), daemon.now)
      ensures old(daemon.now) <= daemon.now <= old(daemon.now) + RoleTime()
      ensures trace == old(trace) || trace == old(trace) + [Started(s.role)]
              || trace == old(trace) + [Started(s.role)] + [Ready(s.role)]
      ensures r.Ok? ==> trace == old(trace) + [Started(s.role)] + [Ready(s.role)]
      ensures r.Ok? ==> RoleUp(old(daemon.world), daemon.world, env, network, s, r.value.0)
      ensures daemon.observed == old(daemon.observed) + view
      ensures r.Ok? ==> ViewOf(s, view, r.value.0) && r.value.1 == PortIn(s, view)
      ensures daemon.errors == old(daemon.errors) + ErrorIn(r)
      ensures r.Err? ==> RoleFailed(s, view, r.error)
      ensures r == Err(BadPlaceholder) <==> !s.resolvable
      ensures !s.resolvable ==> daemon.world == old(daemon.world)
      ensures r == Err(NotReady) ==> daemon.now >= old(daemon.now) + readyTimeout
    {
      view := [];
      if !s.resolvable {
        return Err(BadPlaceholder), view;
      }
      var c := daemon.RunContainer(env, s.role, network);
      if c.Err? {
        return Err(Api(c.error)), view;
      }
      trace := trace + [Started(s.role)];
      var port, seen := AwaitRole(c.value, s);
      view := seen;
      r := if port.Ok? then Ok((c.value, port.value)) else Err(port.error);
    }

    /** A role just started: waited for, and asked for its port if it exposes one. */
    method AwaitRole(cid: ResId, s: Spec) returns (r: Result<Option<nat>, Failure>, ghost view: View)
      modifies daemon`now, daemon`observed, daemon`errors, this`trace
      ensures old(daemon.now) <= daemon.now <= old(daemon.now) + readyTimeout + POLL + 2 * daemon.callTime
      ensures trace == old(trace) + [Ready(s.role)] || (r.Err? && trace == old(trace))
      ensures daemon.observed == old(daemon.observed) + view && daemon.errors == old(daemon.errors) + ErrorIn(r)
      ensures r.Ok? ==> ViewOf(s, view, cid) && r.value == PortIn(s, view)
      ensures r.Err? ==> r.error != BadPlaceholder && RoleFailed(s, view, r.error)
      ensures r == Err(NotReady) ==> daemon.now >= old(daemon.now) + readyTimeout
    {
      var w, seen := WaitForReady(cid, s, None);
      view := seen;
      if w.Err? {
        return Err(w.error), view;
      }
      trace := trace + [Ready(s.role)];
      var port: Option<nat> := None;
      if Exposes(s) {
        var o := daemon.Reload(cid);
        if o.Err? {
          return Err(Api(o.error)), view;
        }
        port := o.value.hostPort;
        view := view + [(cid, o.value)];
      }
      return Ok(port), view;
    }

    /**
     * Containers first, then networks; an error is logged and the loop goes on, so everything listed has its turn,
     * once. What happens is the removal of the lists but for what Docker kept though nothing was in the way, having
     * refused a call about it; a network with a container still on it is never taken.
     */
    method RemoveResources(cids: seq<ResId>, nids: seq<ResId>)
      returns (ghost keptContainers: set<ResId>, ghost keptNetworks: set<ResId>, ghost said: seq<Call>)
      modifies daemon`world, daemon`now, daemon`asked, daemon`calls
      ensures daemon.asked == old(daemon.asked) + Requests(cids, nids)
      ensures daemon.calls == old(daemon.calls) + said && Dialogue(said, cids, nids)
      ensures keptContainers <= ToSet(cids) && keptNetworks <= ToSet(nids) && Excused(keptContainers, keptNetworks, said)
      ensures keptContainers <= daemon.world.containers.Keys && keptNetworks <= daemon.world.networks.Keys
      ensures daemon.world == RemoveAll(old(daemon.world), ToSet(cids) - keptContainers, ToSet(nids) - keptNetworks)
      ensures daemon.reliable ==> keptContainers == {} == keptNetworks
    {
      ghost var first, rest;
      keptContainers, first := RemoveContainers(cids);
      ghost var left := daemon.world;
      keptNetworks, rest := RemoveNetworks(nids);
      said := first + rest;
      assert said[..|first|] == first && said[|first|..] == rest;
      ExcusedOn(keptContainers, {}, first, {}, keptNetworks, rest);
      assert keptContainers + {} == keptContainers && {} + keptNetworks == keptNetworks;
      assert Removable(left, nids) - keptNetworks == set n | n in ToSet(nids) - keptNetworks && Attached(left, n) == {};
    }

    /** The first loop. */
    method RemoveContainers(cids: seq<ResId>) returns (ghost kept: set<ResId>, ghost said: seq<Call>)
      modifies daemon`world, daemon`now, daemon`asked, daemon`calls
      ensures daemon.asked == old(daemon.asked) + ContainerRequests(cids)
      ensures daemon.calls == old(daemon.calls) + said && ContainerTalks(said, cids)
      ensures kept <= ToSet(cids) && kept <= daemon.world.containers.Keys && Excused(kept, {}, said)
      ensures daemon.world == old(daemon.world).(containers := old(daemon.world).containers - (ToSet(cids) - kept))
      ensures daemon.reliable ==> kept == {}
    {
      said := [];
      NoTalks();
      ghost var before, asked, calls := daemon.world, daemon.asked, daemon.calls;
      var i := 0;
      while i < |cids|
        invariant 0 <= i <= |cids|
        invariant AfterContainers(daemon, before, asked, calls, cids[..i], said)
      {
        said := NextContainer(cids, i, before, asked, calls, said);
        i := i + 1;
      }
      assert cids[..i] == cids;
      kept := set id | id in cids && id in daemon.world.containers;
      ContainersLeft(before, daemon.world, cids, said, daemon.reliable, kept);
    }

    /** One trip round the first loop. */
    method NextContainer(cids: seq<ResId>, i: nat, ghost before: World, ghost asked: seq<Request>, ghost calls: seq<Call>,
                         ghost said: seq<Call>) returns (ghost said': seq<Call>)
      requires i < |cids| && AfterContainers(daemon, before, asked, calls, cids[..i], said)
      modifies daemon`world, daemon`now, daemon`asked, daemon`calls
      ensures AfterContainers(daemon, before, asked, calls, cids[..i + 1], said')
    {
      ghost var w := daemon.world;
      ghost var talk := RemoveOneContainer(cids[i]);
      ContainerTurn(before, w, daemon.world, said, cids, i, talk, daemon.reliable);
      said' := said + talk;
    }

    method RemoveOneContainer(cid: ResId) returns (ghost talk: seq<Call>)
      modifies daemon`world, daemon`now, daemon`asked, daemon`calls
      ensures daemon.asked == old(daemon.asked) + [ForContainer(cid)]
      ensures daemon.calls == old(daemon.calls) + talk && ContainerTalk(cid, talk)
      ensures daemon.world == old(daemon.world) || daemon.world == Worlds.RemoveContainer(old(daemon.world), cid)
      ensures cid in daemon.world.containers ==> RefusedIn(talk, ForContainer(cid)) && !daemon.reliable
    {
      var got := daemon.Get(ForContainer(cid));
      talk := [Call(LookUp, ForContainer(cid), got.Ok?)];
      if got.Ok? {
        var stopped := daemon.StopContainer(cid);
        talk := talk + [Call(Halt, ForContainer(cid), stopped.Ok?)];
        if stopped.Ok? {
          var removed := daemon.RemoveContainer(cid);
          talk := talk + [Call(Delete, ForContainer(cid), removed.Ok?)];
        }
      }
      assert !talk[|talk| - 1].ok ==> RefusedIn(talk, ForContainer(cid));
    }

    /** The second loop. */
    method RemoveNetworks(nids: seq<ResId>) returns (ghost kept: set<ResId>, ghost said: seq<Call>)
      modifies daemon`world, daemon`now, daemon`asked, daemon`calls
      ensures daemon.asked == old(daemon.asked) + NetworkRequests(nids)
      ensures daemon.calls == old(daemon.calls) + said && NetworkTalks(said, nids)
      ensures kept <= ToSet(nids) && kept <= daemon.world.networks.Keys && Excused({}, kept, said)
      ensures forall n :: n in kept ==> Attached(daemon.world, n) == {}
      ensures daemon.world ==
              old(daemon.world).(networks := old(daemon.world).networks - (Removable(old(daemon.world), nids) - kept))
      ensures daemon.reliable ==> kept == {}
    {
      said := [];
      NoTalks();
      ghost var left, asked, calls := daemon.world, daemon.asked, daemon.calls;
      var i := 0;
      while i < |nids|
        invariant 0 <= i <= |nids|
        invariant AfterNetworks(daemon, left, asked, calls, nids[..i], said)
      {
        said := NextNetwork(nids, i, left, asked, calls, said);
        i := i + 1;
      }
      assert nids[..i] == nids;
      kept := KeptOf(left, daemon.world, nids);
      NetworksLeft(left, daemon.world, nids, said, daemon.reliable);
    }

    /** One trip round the second loop. */
    method NextNetwork(nids: seq<ResId>, i: nat, ghost left: World, ghost asked: seq<Request>, ghost calls: seq<Call>,
                       ghost said: seq<Call>) returns (ghost said': seq<Call>)
      requires i < |nids| && AfterNetworks(daemon, left, asked, calls, nids[..i], said)
      modifies daemon`world, daemon`now, daemon`asked, daemon`calls
      ensures AfterNetworks(daemon, left, asked, calls, nids[..i + 1], said')
    {
      ghost var w := daemon.world;
      ghost var talk := RemoveOneNetwork(nids[i]);
      NetworkTurn(left, w, daemon.world, said, nids, i, talk, daemon.reliable);
      said' := said + talk;
    }

    method RemoveOneNetwork(nid: ResId) returns (ghost talk: seq<Call>)
      modifies daemon`world, daemon`now, daemon`asked, daemon`calls
      ensures daemon.asked == old(daemon.asked) + [ForNetwork(nid)]
      ensures daemon.calls == old(daemon.calls) + talk && NetworkTalk(nid, talk)
      ensures daemon.world == old(daemon.world) || daemon.world == Worlds.RemoveNetwork(old(daemon.world), nid)
      ensures nid in daemon.world.networks ==> RefusedIn(talk, ForNetwork(nid))
      ensures nid in daemon.world.networks && Attached(old(daemon.world), nid) == {} ==> !daemon.reliable
    {
      var got := daemon.Get(ForNetwork(nid));
      talk := [Call(LookUp, ForNetwork(nid), got.Ok?)];
      if got.Ok? {
        var removed := daemon.RemoveNetwork(nid);
        talk := talk + [Call(Delete, ForNetwork(nid), removed.Ok?)];
      }
      assert !talk[|talk| - 1].ok ==> RefusedIn(talk, ForNetwork(nid));
    }

    method Teardown(cids: seq<ResId>, network: Option<ResId>)
      returns (ghost keptContainers: set<ResId>, ghost keptNetworks: set<ResId>, ghost said: seq<Call>)
      modifies daemon`world, daemon`now, daemon`asked, daemon`calls
      ensures daemon.asked == old(daemon.asked) + Requests(cids, ListOf(network))
      ensures daemon.calls == old(daemon.calls) + said && Dialogue(said, cids, ListOf(network))
      ensures keptContainers <= ToSet(cids) && keptNetworks <= ToSet(ListOf(network))
      ensures Excused(keptContainers, keptNetworks, said)
      ensures keptContainers <= daemon.world.containers.Keys && keptNetworks <= daemon.world.networks.Keys
      ensures daemon.world ==
              RemoveAll(old(daemon.world), ToSet(cids) - keptContainers, ToSet(ListOf(network)) - keptNetworks)
      ensures daemon.reliable ==> keptContainers == {} == keptNetworks
    {
      keptContainers, keptNetworks, said := RemoveResources(cids, ListOf(network));
    }

    /** Every labelled resource that is old enough, once, under its own label; and no label without one. */
    method FindLabelled(minAge: nat)
      returns (found: map<Label, LabelledResources>, ghost atContainers: Time, ghost atNetworks: Time)
      modifies daemon`now
      ensures old(daemon.now) <= atContainers <= atNetworks == daemon.now
      ensures var cutoff := old(daemon.now) - minAge;
              Groups(found, daemon.world, FoundContainers(daemon.world, atContainers, cutoff),
                     FoundNetworks(daemon.world, atNetworks, cutoff))
    {
      var cutoff := daemon.now - minAge;
      var containers := daemon.ListContainers();
      var afterContainers := daemon.now;
      atContainers := daemon.now;
      var networks := daemon.ListNetworks();
      atNetworks := daemon.now;
      found := GroupByLabel(containers, networks, afterContainers, daemon.now, cutoff);
      GroupsOfListings(found, daemon.world, containers, networks, atContainers, atNetworks, cutoff);
    }

    /** The longest an attempt of a known template can take. */
    function AttemptLimit(name: string): nat
      requires Known(name)
    {
      StackLimit(|templates[name]|, readyTimeout, daemon.callTime)
    }

    predicate Known(name: string) {
      name in templates && templates[name] != []
    }

    /** What an attempt that began at `from` and ended in this failure had come to; views is what it saw, role by role. */
    predicate FailsFor(name: string, f: Failure, views: seq<View>, from: Time)
      reads daemon
    {
      match f
      case UnknownTemplate => name !in templates || templates[name] == []
      case NoPort =>
        && Known(name) && |views| == |StartOrder(templates[name])|
        && LastPort(StartOrder(templates[name]), views) == None
      case Api(_) => Known(name)
      case _ =>
        && Known(name) && LastFailed(views, StartOrder(templates[name]), f)
        && (f == NotReady ==> daemon.now >= from + readyTimeout)
    }

    predicate Succeeded(before: World, r: StackResult, env: EnvId, order: Template)
      reads daemon
    {
      && r.networkId in daemon.world.networks && r.networkId !in before.networks
      && StackIn(daemon.world, before, r.containerIds, r.networkId, order)
      && NamesFree(before, env, order)
    }
  }

  /** One new container a role, in order, on the given network. */
  predicate StackIn(w: World, before: World, ids: seq<ResId>, network: ResId, order: Template) {
    && |ids| == |order|
    && forall k :: 0 <= k < |order| ==>
         && ids[k] in w.containers && ids[k] !in before.containers
         && w.containers[ids[k]].role == order[k].role && w.containers[ids[k]].network == Some(network)
  }

  predicate NamesFree(w: World, env: EnvId, order: Template) {
    forall k :: 0 <= k < |order| ==> !NameTaken(w, ContainerName(env, order[k].role))
  }

  /** What the reloads of one role showed, in order. */
  type View = seq<(ResId, Observation)>

  function Flat<T>(parts: seq<seq<T>>): seq<T> {
    if parts == [] then [] else Flat(parts[..|parts| - 1]) + parts[|parts| - 1]
  }

  /**
   * What is seen of a role that comes up: undecided up to the one look that shows it ready, and, if it exposes a
   * port, one look more.
   */
  predicate ViewOf(s: Spec, view: View, id: ResId) {
    var n := |view| - (if s.exposePort.Some? && s.exposePort.value != 0 then 1 else 0);
    && n > 0 && ReadyNow(s, view[n - 1].1)
    && (forall i :: 0 <= i < n - 1 ==> Undecided(s, view[i].1))
    && (forall i :: 0 <= i < |view| ==> view[i].0 == id)
  }

  predicate WasReady(s: Spec, view: View) {
    view != [] && ViewOf(s, view, view[0].0)
  }

  /** What is seen of a role that a provision fails on. */
  predicate RoleFailed(s: Spec, view: View, f: Failure) {
    match f
    case BadPlaceholder => !s.resolvable && view == []
    case Died | OutOfMemory | FailedHealthcheck =>
      && view != [] && FailedNow(s, view[|view| - 1].1) && f == FailureShown(view[|view| - 1].1)
      && forall i :: 0 <= i < |view| - 1 ==> Undecided(s, view[i].1)
    case NotReady => forall i :: 0 <= i < |view| ==> Undecided(s, view[i].1)
    case Api(_) => true
    case _ => false
  }

  /** The roles before it were all ready. */
  predicate LastFailed(views: seq<View>, order: Template, f: Failure) {
    && 0 < |views| <= |order| && RoleFailed(order[|views| - 1], views[|views| - 1], f)
    && forall k :: 0 <= k < |views| - 1 ==> WasReady(order[k], views[k])
  }

  lemma EarlierReady(views: seq<View>, ids: seq<ResId>, order: Template, i: nat)
    requires i < |order| && |views| == i + 1 && ViewsOf(views[..i], ids, order[..i])
    ensures forall k :: 0 <= k < i ==> WasReady(order[k], views[k])
  {
    forall k | 0 <= k < i
      ensures WasReady(order[k], views[k])
    {
      assert ViewOf(order[..i][k], views[..i][k], ids[k]);
    }
  }

  predicate ViewsOf(views: seq<View>, ids: seq<ResId>, order: Template) {
    |views| == |ids| == |order| && forall k :: 0 <= k < |order| ==> ViewOf(order[k], views[k], ids[k])
  }

  /** The port of a role that exposes one is what its last reload showed. */
  function PortIn(s: Spec, view: View): Option<nat> {
    if s.exposePort.Some? && s.exposePort.value != 0 && view != [] then view[|view| - 1].1.hostPort else None
  }

  /** The last binding seen. */
  function LastPort(order: Template, views: seq<View>): Option<nat>
    requires |order| == |views|
  {
    if order == [] then None
    else
      var n := |order| - 1;
      if PortIn(order[n], views[n]).Some? then PortIn(order[n], views[n]) else LastPort(order[..n], views[..n])
  }

  /** There is no binding exactly if no role that exposes a port showed one when it was last reloaded. */
  lemma {:induction false} NoBinding(order: Template, views: seq<View>)
    requires |order| == |views|
    ensures LastPort(order, views) == None <==> forall k :: 0 <= k < |order| ==> PortIn(order[k], views[k]) == None
  {
    if order != [] {
      var n := |order| - 1;
      NoBinding(order[..n], views[..n]);
      assert forall k :: 0 <= k < n ==> order[..n][k] == order[k] && views[..n][k] == views[k];
    }
  }

  predicate RoleUp(v: World, w: World, env: EnvId, network: ResId, s: Spec, id: ResId) {
    && id !in v.containers && id in w.containers
    && w.containers[id].role == s.role && w.containers[id].network == Some(network)
    && !NameTaken(v, ContainerName(env, s.role))
  }

  predicate RolesUp(before: World, w: World, env: EnvId, network: ResId, ids: seq<ResId>, views: seq<View>, order: Template) {
    StackIn(w, before, ids, network, order) && NamesFree(before, env, order) && ViewsOf(views, ids, order)
  }

  /** One new container a role, in order, all on one network. */
  ghost predicate StackUp(w: World, before: World, ids: seq<ResId>, order: Template) {
    exists network :: StackIn(w, before, ids, network, order)
  }

  lemma FlatGrew<T>(parts: seq<seq<T>>, part: seq<T>)
    ensures Flat(parts + [part]) == Flat(parts) + part
  {
    assert (parts + [part])[..|parts|] == parts;
  }

  lemma RolesGrew(before: World, v: World, w: World, env: EnvId, network: ResId, ids: seq<ResId>, id: ResId,
                  views: seq<View>, view: View, order: Template, i: nat)
    requires i < |order| && RolesUp(before, v, env, network, ids, views, order[..i]) && Sub(before, v) && Sub(v, w)
    requires RoleUp(v, w, env, network, order[i], id) && ViewOf(order[i], view, id)
    ensures RolesUp(before, w, env, network, ids + [id], views + [view], order[..i + 1])
    ensures LastPort(order[..i + 1], views + [view]) ==
            if PortIn(order[i], view).Some? then PortIn(order[i], view) else LastPort(order[..i], views)
  {
    assert order[..i + 1] == order[..i] + [order[i]];
    assert order[..i + 1][..i] == order[..i] && (views + [view])[..i] == views;
    StackGrew(before, v, w, ids, id, env, network, order, i);
  }

  lemma GrewOn(u: World, v: World, w: World, env: EnvId, from: Time, mid: Time, until: Time)
    requires from <= mid <= until && GrewFor(u, v, env, from, mid) && GrewFor(v, w, env, mid, until)
    ensures GrewFor(u, w, env, from, until)
  {
  }

  lemma StackGrew(before: World, v: World, w: World, ids: seq<ResId>, id: ResId, env: EnvId, network: ResId,
                  order: Template, i: nat)
    requires i < |order| && StackIn(v, before, ids, network, order[..i]) && Sub(before, v) && Sub(v, w)
    requires id in w.containers && id !in v.containers
    requires w.containers[id].role == order[i].role && w.containers[id].network == Some(network)
    requires NamesFree(before, env, order[..i]) && !NameTaken(v, ContainerName(env, order[i].role))
    ensures StackIn(w, before, ids + [id], network, order[..i + 1]) && NamesFree(before, env, order[..i + 1])
  {
    assert order[..i + 1] == order[..i] + [order[i]];
  }

  lemma StackSince(before: World, v: World, w: World, ids: seq<ResId>, env: EnvId, network: ResId, order: Template)
    requires StackIn(w, v, ids, network, order) && NamesFree(v, env, order) && Sub(before, v)
    ensures StackIn(w, before, ids, network, order) && NamesFree(before, env, order)
  {
    forall k | 0 <= k < |order|
      ensures !NameTaken(before, ContainerName(env, order[k].role))
    {
      assert !NameTaken(v, ContainerName(env, order[k].role));
      assert forall id :: id in before.containers ==> v.containers[id] == before.containers[id];
    }
  }

  /** `[network_id] if network_id else []` */
  function ListOf(network: Option<ResId>): seq<ResId> {
    if network.Some? then [network.value] else []
  }

  function Removable(w: World, nids: seq<ResId>): set<ResId> {
    set n | n in nids && Attached(w, n) == {}
  }

  function ContainersUnder(ids: set<ResId>, w: World, l: Label): set<ResId> {
    set id | id in ids && id in w.containers && w.containers[id].tag == Some(l)
  }

  function NetworksUnder(ids: set<ResId>, w: World, l: Label): set<ResId> {
    set id | id in ids && id in w.networks && w.networks[id].tag == Some(l)
  }

  predicate NoRepeats(ids: seq<ResId>) {
    forall i, j :: 0 <= i < j < |ids| ==> ids[i] != ids[j]
  }

  predicate GroupOf(r: LabelledResources, w: World, cs: set<ResId>, ns: set<ResId>, l: Label) {
    && ToSet(r.containerIds) == ContainersUnder(cs, w, l) && NoRepeats(r.containerIds)
    && ToSet(r.networkIds) == NetworksUnder(ns, w, l) && NoRepeats(r.networkIds)
  }

  /** `found` groups the containers cs and the networks ns by their labels. */
  ghost predicate Groups(found: map<Label, LabelledResources>, w: World, cs: set<ResId>, ns: set<ResId>) {
    forall l: Label :: Grouped(found, w, cs, ns, l)
  }

  /** The entry of one label is its group, and it has an entry exactly when there is a group. */
  predicate Grouped(found: map<Label, LabelledResources>, w: World, cs: set<ResId>, ns: set<ResId>, l: Label) {
    && (l in found ==> GroupOf(found[l], w, cs, ns, l))
    && (l in found <==> ContainersUnder(cs, w, l) != {} || NetworksUnder(ns, w, l) != {})
  }

  /** The listed ids of one label that are old enough, in listing order. */
  function Chosen(xs: seq<Listed>, l: Label, now: Time, cutoff: Time): seq<ResId> {
    if xs == [] then [] else
      var x := xs[|xs| - 1];
      Chosen(xs[..|xs| - 1], l, now, cutoff) + (if Fits(x, l, now, cutoff) then [x.id] else [])
  }

  predicate Fits(x: Listed, l: Label, now: Time, cutoff: Time) {
    Found(x.tag, x.createdAt, now, cutoff) && x.tag == Some(l)
  }

  /** `found.setdefault(l, LabelledResources())` */
  function At(found: map<Label, LabelledResources>, l: Label): LabelledResources {
    if l in found then found[l] else LabelledResources([], [])
  }

  /**
   * The two loops of find_labelled, appending to the entry of each resource's label. The keys are the labels
   * with at least one resource old enough, and each list is the filter of its listing, in order.
   */
  method GroupByLabel(containers: seq<Listed>, networks: seq<Listed>, atContainers: Time, atNetworks: Time, cutoff: Time)
    returns (found: map<Label, LabelledResources>)
    ensures forall l: Label ::
              At(found, l) == LabelledResources(Chosen(containers, l, atContainers, cutoff),
                                                Chosen(networks, l, atNetworks, cutoff))
    ensures forall l: Label :: l in found ==> found[l] != LabelledResources([], [])
  {
    found := GroupContainers(containers, atContainers, cutoff);
    found := GroupNetworks(found, networks, atNetworks, cutoff);
  }

  /** The first loop. */
  method GroupContainers(containers: seq<Listed>, now: Time, cutoff: Time) returns (found: map<Label, LabelledResources>)
    ensures forall l: Label :: At(found, l) == LabelledResources(Chosen(containers, l, now, cutoff), [])
    ensures forall l: Label :: l in found ==> found[l] != LabelledResources([], [])
  {
    found := map[];
    var i := 0;
    while i < |containers|
      invariant 0 <= i <= |containers|
      invariant forall l: Label :: At(found, l) == LabelledResources(Chosen(containers[..i], l, now, cutoff), [])
      invariant forall l: Label :: l in found ==> found[l] != LabelledResources([], [])
    {
      var x := containers[i];
      assert containers[..i + 1][..i] == containers[..i];
      if x.tag.Some? && ReadStamp(x.createdAt, now) <= cutoff {
        var entry := At(found, x.tag.value);
        found := found[x.tag.value := entry.(containerIds := entry.containerIds + [x.id])];
      }
      i := i + 1;
    }
    assert containers[..i] == containers;
  }

  /** The second loop goes on with the entries of the first. */
  method GroupNetworks(started: map<Label, LabelledResources>, networks: seq<Listed>, now: Time, cutoff: Time)
    returns (found: map<Label, LabelledResources>)
    requires forall l: Label :: At(started, l).networkIds == []
    requires forall l: Label :: l in started ==> started[l] != LabelledResources([], [])
    ensures forall l: Label ::
              At(found, l) == LabelledResources(At(started, l).containerIds, Chosen(networks, l, now, cutoff))
    ensures forall l: Label :: l in found ==> found[l] != LabelledResources([], [])
  {
    found := started;
    var i := 0;
    while i < |networks|
      invariant 0 <= i <= |networks|
      invariant forall l: Label ::
                  At(found, l) == LabelledResources(At(started, l).containerIds, Chosen(networks[..i], l, now, cutoff))
      invariant forall l: Label :: l in found ==> found[l] != LabelledResources([], [])
    {
      var x := networks[i];
      assert networks[..i + 1][..i] == networks[..i];
      if x.tag.Some? && ReadStamp(x.createdAt, now) <= cutoff {
        var entry := At(found, x.tag.value);
        found := found[x.tag.value := entry.(networkIds := entry.networkIds + [x.id])];
      }
      i := i + 1;
    }
    assert networks[..i] == networks;
  }

  /** Over a listing without repeats, the chosen ids are those that fit, each once. */
  lemma {:induction false} ChosenExactly(xs: seq<Listed>, l: Label, now: Time, cutoff: Time)
    requires forall i, j :: 0 <= i < j < |xs| ==> xs[i].id != xs[j].id
    ensures forall id :: id in Chosen(xs, l, now, cutoff) <==> FitsAt(xs, id, l, now, cutoff)
    ensures NoRepeats(Chosen(xs, l, now, cutoff))
  {
    if xs != [] {
      var n := |xs| - 1;
      var init := xs[..n];
      ChosenExactly(init, l, now, cutoff);
      assert forall i :: 0 <= i < n ==> init[i] == xs[i];
      assert forall id :: FitsAt(xs, id, l, now, cutoff) <==>
                          FitsAt(init, id, l, now, cutoff) || (id == xs[n].id && Fits(xs[n], l, now, cutoff));
      assert !FitsAt(init, xs[n].id, l, now, cutoff);
    }
  }

  ghost predicate FitsAt(xs: seq<Listed>, id: ResId, l: Label, now: Time, cutoff: Time) {
    exists i :: 0 <= i < |xs| && xs[i].id == id && Fits(xs[i], l, now, cutoff)
  }

  lemma ListedExactly(xs: seq<Listed>, all: map<ResId, (Option<Label>, Option<Time>)>, id: ResId, l: Label, now: Time, cutoff: Time)
    requires Lists(xs, all)
    ensures FitsAt(xs, id, l, now, cutoff) <==> id in all && Found(all[id].0, all[id].1, now, cutoff) && all[id].0 == Some(l)
  {
    if id in all {
      var i :| 0 <= i < |xs| && xs[i].id == id;
      assert all[id] == (xs[i].tag, xs[i].createdAt);
    }
  }

  lemma ChosenContainers(xs: seq<Listed>, w: World, l: Label, now: Time, cutoff: Time)
    requires Lists(xs, map id | id in w.containers :: (w.containers[id].tag, w.containers[id].createdAt))
    ensures ToSet(Chosen(xs, l, now, cutoff)) == ContainersUnder(FoundContainers(w, now, cutoff), w, l)
    ensures NoRepeats(Chosen(xs, l, now, cutoff))
  {
    ChosenExactly(xs, l, now, cutoff);
    forall id
      ensures FitsAt(xs, id, l, now, cutoff) <==> id in ContainersUnder(FoundContainers(w, now, cutoff), w, l)
    {
      ListedExactly(xs, map k | k in w.containers :: (w.containers[k].tag, w.containers[k].createdAt), id, l, now, cutoff);
    }
  }

  lemma ChosenNetworks(xs: seq<Listed>, w: World, l: Label, now: Time, cutoff: Time)
    requires Lists(xs, map id | id in w.networks :: (w.networks[id].tag, w.networks[id].createdAt))
    ensures ToSet(Chosen(xs, l, now, cutoff)) == NetworksUnder(FoundNetworks(w, now, cutoff), w, l)
    ensures NoRepeats(Chosen(xs, l, now, cutoff))
  {
    ChosenExactly(xs, l, now, cutoff);
    forall id
      ensures FitsAt(xs, id, l, now, cutoff) <==> id in NetworksUnder(FoundNetworks(w, now, cutoff), w, l)
    {
      ListedExactly(xs, map k | k in w.networks :: (w.networks[k].tag, w.networks[k].createdAt), id, l, now, cutoff);
    }
  }

  lemma EmptySeqEmptySet(ids: seq<ResId>)
    ensures ids == [] <==> ToSet(ids) == {}
  {
    if ids != [] {
      assert ids[0] in ToSet(ids);
    }
  }

  lemma GroupsOfListings(found: map<Label, LabelledResources>, w: World, containers: seq<Listed>, networks: seq<Listed>,
                         t1: Time, t2: Time, cutoff: Time)
    requires Lists(containers, map id | id in w.containers :: (w.containers[id].tag, w.containers[id].createdAt))
    requires Lists(networks, map id | id in w.networks :: (w.networks[id].tag, w.networks[id].createdAt))
    requires forall l: Label ::
               At(found, l) == LabelledResources(Chosen(containers, l, t1, cutoff), Chosen(networks, l, t2, cutoff))
    requires forall l: Label :: l in found ==> found[l] != LabelledResources([], [])
    ensures Groups(found, w, FoundContainers(w, t1, cutoff), FoundNetworks(w, t2, cutoff))
  {
    var cs, ns := FoundContainers(w, t1, cutoff), FoundNetworks(w, t2, cutoff);
    forall l: Label
      ensures Grouped(found, w, cs, ns, l)
    {
      ChosenContainers(containers, w, l, t1, cutoff);
      ChosenNetworks(networks, w, l, t2, cutoff);
      EmptySeqEmptySet(At(found, l).containerIds);
      EmptySeqEmptySet(At(found, l).networkIds);
    }
  }

  /** The longest one role can take: started, waited for to the last poll, and asked for its port. */
  function RoleLimit(ready: nat, call: nat): nat {
    ready + POLL + 3 * call
  }

  /** The longest a stack of n roles can take: its network, and one role after the other. */
  function StackLimit(n: nat, ready: nat, call: nat): nat {
    call + Times(n, RoleLimit(ready, call))
  }

  function Times(n: nat, each: nat): nat {
    if n == 0 then 0 else Times(n - 1, each) + each
  }

  lemma {:induction false} TimesMonotone(m: nat, n: nat, each: nat)
    requires m <= n
    ensures Times(m, each) <= Times(n, each)
  {
    if m < n {
      TimesMonotone(m, n - 1, each);
    }
  }

  lemma {:induction false} TimesIsProduct(n: nat, each: nat)
    ensures Times(n, each) == n * each
  {
    if n > 0 {
      TimesIsProduct(n - 1, each);
    }
  }

  /**
   * The worst case of a stack of n roles, and what it leaves of the shipped timeouts: with two roles, and a time
   * for the database's part, it stays below both of them exactly if that time and seven calls take under 656 s.
   */
  lemma AttemptTime(n: nat, ready: nat, call: nat, writes: nat, templates: map<string, Template>)
    ensures StackLimit(n, ready, call) == call + n * (ready + 2 * SECOND + 3 * call)
    ensures StackLimit(2, Shipped(templates).readyTimeout, call) + writes < Shipped(templates).provisioningTimeout
            <==> 7 * call + writes < 656 * SECOND
    ensures Shipped(templates).grace == Shipped(templates).provisioningTimeout
  {
    TimesIsProduct(n, RoleLimit(ready, call));
    TimesIsProduct(2, RoleLimit(Shipped(templates).readyTimeout, call));
  }

  /** The trace grew by a prefix of the start trace. */
  predicate StartedPart(before: seq<Event>, after: seq<Event>, order: Template) {
    |before| <= |after| && after[..|before|] == before && after[|before|..] <= StartTrace(order)
  }

  lemma NothingStarted(trace: seq<Event>, order: Template)
    ensures StartedPart(trace, trace, order)
  {
  }

  lemma {:induction false} TracePrefix(order: Template, i: nat)
    requires i <= |order|
    ensures StartTrace(order[..i]) <= StartTrace(order)
    decreases |order|
  {
    if i == |order| {
      assert order[..i] == order;
    } else {
      var init := order[..|order| - 1];
      TracePrefix(init, i);
      assert init[..i] == order[..i];
    }
  }

  lemma WholeTrace(before: seq<Event>, order: Template)
    ensures StartedPart(before, before + StartTrace(order), order)
  {
    assert (before + StartTrace(order))[|before|..] == StartTrace(order);
  }

  /** After i roles, with the next perhaps started and perhaps ready, the trace is a part of the start trace. */
  lemma PartOfTrace(before: seq<Event>, order: Template, i: nat)
    requires i < |order|
    ensures var t := before + StartTrace(order[..i]);
            && StartedPart(before, t, order)
            && StartedPart(before, t + [Started(order[i].role)], order)
            && StartedPart(before, t + [Started(order[i].role)] + [Ready(order[i].role)], order)
            && t + [Started(order[i].role)] + [Ready(order[i].role)] == before + StartTrace(order[..i + 1])
  {
    TracePrefix(order, i);
    TracePrefix(order, i + 1);
    assert order[..i + 1][..i] == order[..i];
    var s := StartTrace(order[..i]);
    assert StartTrace(order[..i + 1]) == s + [Started(order[i].role), Ready(order[i].role)];
    assert (before + s)[|before|..] == s;
    assert (before + s + [Started(order[i].role)])[|before|..] == s + [Started(order[i].role)];
    assert (before + s + [Started(order[i].role)] + [Ready(order[i].role)])[|before|..]
        == s + [Started(order[i].role), Ready(order[i].role)];
  }
}

/** What the Docker daemon holds, and what listing, grouping and removing mean on it. */
module Worlds {
  import opened Lifecycle

  /** The value of the environment label. Several spellings of one UUID load the same row; only the first is ours. */
  datatype Label = Uuid(id: EnvId, spelling: nat) | NotUuid(text: string)

  /** The label the create path writes: `str(row.id)`. */
  function Canonical(id: EnvId): Label {
    Uuid(id, 0)
  }

  /** `tag` is None when the label is absent or empty; `createdAt` is None when the stamp is absent or unreadable. */
  datatype Container = Container(
    name: string, tag: Option<Label>, role: string, network: Option<ResId>, createdAt: Option<Time>)

  datatype Network = Network(name: string, tag: Option<Label>, createdAt: Option<Time>)

  datatype World = World(containers: map<ResId, Container>, networks: map<ResId, Network>)

  function ToSet<T>(xs: seq<T>): set<T> {
    set x | x in xs
  }

  /** A resource without a readable stamp counts as created this very moment. */
  function ReadStamp(stamp: Option<Time>, now: Time): Time {
    if stamp.Some? then stamp.value else now
  }

  predicate Found(tag: Option<Label>, stamp: Option<Time>, now: Time, cutoff: Time) {
    tag.Some? && ReadStamp(stamp, now) <= cutoff
  }

  function FoundContainers(w: World, now: Time, cutoff: Time): set<ResId> {
    set id | id in w.containers && Found(w.containers[id].tag, w.containers[id].createdAt, now, cutoff)
  }

  function FoundNetworks(w: World, now: Time, cutoff: Time): set<ResId> {
    set id | id in w.networks && Found(w.networks[id].tag, w.networks[id].createdAt, now, cutoff)
  }

  /** The containers that keep a network from being removed. */
  function Attached(w: World, nid: ResId): set<ResId> {
    set id | id in w.containers && w.containers[id].network == Some(nid)
  }

  function RemoveContainer(w: World, id: ResId): World {
    w.(containers := w.containers - {id})
  }

  /** Docker refuses to remove a network that still has a container on it. */
  function RemoveNetwork(w: World, id: ResId): World {
    if Attached(w, id) == {} then w.(networks := w.networks - {id}) else w
  }

  /** All the containers first, then every listed network nothing is attached to any more. */
  function RemoveAll(w: World, cids: set<ResId>, nids: set<ResId>): World {
    var left := w.(containers := w.containers - cids);
    left.(networks := left.networks - (set n | n in nids && Attached(left, n) == {}))
  }

  /** Labels whose environment should own nothing: not in the table, or in it and terminal. */
  predicate Sweepable(rows: Table, tag: Label) {
    tag.Uuid? && (tag.id in rows ==> Terminal(rows[tag.id].status))
  }

  function SweptContainers(w: World, rows: Table, now: Time, cutoff: Time): set<ResId> {
    set id | id in FoundContainers(w, now, cutoff) && Sweepable(rows, w.containers[id].tag.value)
  }

  function SweptNetworks(w: World, rows: Table, now: Time, cutoff: Time): set<ResId> {
    set id | id in FoundNetworks(w, now, cutoff) && Sweepable(rows, w.networks[id].tag.value)
  }

  /** One undisturbed reconcile pass in which Docker refuses nothing it could do. */
  function Reconciled(w: World, rows: Table, now: Time, cutoff: Time): World {
    RemoveAll(w, SweptContainers(w, rows, now, cutoff), SweptNetworks(w, rows, now, cutoff))
  }

  /** Containers sit only on networks that carry their own label. */
  predicate OwnNetworksOnly(w: World) {
    forall id :: id in w.containers && w.containers[id].network.Some? && w.containers[id].network.value in w.networks ==>
      w.networks[w.containers[id].network.value].tag == w.containers[id].tag
  }

  predicate Sub(v: World, w: World) {
    && (forall id :: id in v.containers ==> id in w.containers && w.containers[id] == v.containers[id])
    && (forall id :: id in v.networks ==> id in w.networks && w.networks[id] == v.networks[id])
  }

  /** What is found: labelled, and stamped by the cutoff; without a stamp, only if the cutoff is not in the past. */
  lemma FoundExactly(w: World, now: Time, cutoff: Time, id: ResId)
    ensures id in FoundContainers(w, now, cutoff) <==>
            id in w.containers && w.containers[id].tag.Some?
            && if w.containers[id].createdAt.Some? then w.containers[id].createdAt.value <= cutoff else now <= cutoff
    ensures id in FoundNetworks(w, now, cutoff) <==>
            id in w.networks && w.networks[id].tag.Some?
            && if w.networks[id].createdAt.Some? then w.networks[id].createdAt.value <= cutoff else now <= cutoff
  {
  }

  /** With a grace period, a pass that begins at `begun` and lists later spares whatever has no readable stamp. */
  lemma UnstampedIsSpared(c: Config, w: World, rows: Table, begun: Time, now: Time, id: ResId)
    requires c.grace > 0 && begun <= now
    ensures id in w.containers && w.containers[id].createdAt == None ==> id !in SweptContainers(w, rows, now, Cutoff(c, begun))
    ensures id in w.networks && w.networks[id].createdAt == None ==> id !in SweptNetworks(w, rows, now, Cutoff(c, begun))
  {
  }

  /** Removing the same things twice is removing them once. */
  lemma RemoveAllIdempotent(w: World, cids: set<ResId>, nids: set<ResId>)
    ensures RemoveAll(RemoveAll(w, cids, nids), cids, nids) == RemoveAll(w, cids, nids)
  {
    var once := RemoveAll(w, cids, nids);
    assert once.containers - cids == once.containers;
    forall n | n in once.networks && n in nids
      ensures Attached(once, n) != {}
    {
      assert Attached(once, n) == Attached(w.(containers := w.containers - cids), n);
    }
  }

  /** A removal is complete exactly when nothing unlisted is attached to a listed network. */
  lemma RemoveAllComplete(w: World, cids: set<ResId>, nids: set<ResId>)
    ensures RemoveAll(w, cids, nids).containers.Keys == w.containers.Keys - cids
    ensures RemoveAll(w, cids, nids).networks.Keys == w.networks.Keys - nids
      <==> forall n :: n in nids && n in w.networks ==> Attached(w, n) <= cids
    ensures Sub(RemoveAll(w, cids, nids), w)
  {
    var left := w.(containers := w.containers - cids);
    forall n | n in nids && n in w.networks
      ensures n !in RemoveAll(w, cids, nids).networks <==> Attached(w, n) <= cids
    {
      assert Attached(left, n) == Attached(w, n) - cids;
      assert Attached(w, n) - cids == {} <==> Attached(w, n) <= cids by {
        if Attached(w, n) - cids == {} {
          forall x | x in Attached(w, n) ensures x in cids { assert x !in Attached(w, n) - cids; }
        }
      }
    }
    if forall n :: n in nids && n in w.networks ==> Attached(w, n) <= cids {
      assert RemoveAll(w, cids, nids).networks.Keys == w.networks.Keys - nids;
    }
  }

  /** Two removals amount to one if the second takes no container that kept a network of the first. */
  lemma RemoveAllTwice(w: World, c1: set<ResId>, n1: set<ResId>, c2: set<ResId>, n2: set<ResId>)
    requires forall n :: n in n1 && n in w.networks ==> Attached(w, n) * c2 <= c1
    ensures RemoveAll(RemoveAll(w, c1, n1), c2, n2) == RemoveAll(w, c1 + c2, n1 + n2)
  {
    var w1 := RemoveAll(w, c1, n1);
    var w2 := RemoveAll(w1, c2, n2);
    var v := RemoveAll(w, c1 + c2, n1 + n2);
    assert w2.containers == v.containers;
    forall n | n in w.networks
      ensures n in w2.networks <==> n in v.networks
    {
      AttachedLeft(w, c1, n);
      AttachedLeft(w1, c2, n);
      AttachedLeft(w, c1 + c2, n);
      assert Attached(w1, n) == Attached(w.(containers := w.containers - c1), n);
      if n in n1 {
        assert Attached(w, n) - c1 - c2 == Attached(w, n) - c1;
      }
      assert Attached(w, n) - c1 - c2 == Attached(w, n) - (c1 + c2);
    }
    assert w2.networks == v.networks;
  }

  lemma AttachedLeft(w: World, cids: set<ResId>, n: ResId)
    ensures Attached(w.(containers := w.containers - cids), n) == Attached(w, n) - cids
  {
  }

  /** With a grace period, resources without a stamp are never found, so the instant of listing does not matter. */
  lemma FoundWhenever(w: World, t1: Time, t2: Time, cutoff: Time)
    requires cutoff < t1 && cutoff < t2
    ensures FoundContainers(w, t1, cutoff) == FoundContainers(w, t2, cutoff)
    ensures FoundNetworks(w, t1, cutoff) == FoundNetworks(w, t2, cutoff)
  {
  }
}

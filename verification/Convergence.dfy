/** The three sweeps by themselves: they cannot loop, and together they clear away whatever a crash left behind. */
module Convergence {
  import opened Lifecycle
  import opened Worlds
  import opened Protocol
  import opened Invariants

  datatype Store = Store(rows: Table, world: World)

  /** One undisturbed run of a sweep, with the containers and the networks Docker kept during a reconcile pass. */
  datatype Sweep =
    | ReapTick(at: Time)
    | RecoverTick(at: Time)
    | ReconcileTick(at: Time, containers: set<ResId>, networks: set<ResId>)

  function Effect(c: Config, st: Store, k: Sweep): Store {
    match k
    case ReapTick(at) => st.(rows := ReapRows(st.rows, at))
    case RecoverTick(at) => st.(rows := RecoverRows(c, st.rows, at))
    case ReconcileTick(at, containers, networks) =>
      st.(world := RemoveAll(st.world,
                             SweptContainers(st.world, st.rows, at, Cutoff(c, at)) - containers,
                             SweptNetworks(st.world, st.rows, at, Cutoff(c, at)) - networks))
  }

  function Effects(c: Config, st: Store, ticks: seq<Sweep>): Store
    decreases |ticks|
  {
    if ticks == [] then st else Effects(c, Effect(c, st, ticks[0]), ticks[1..])
  }

  /** How many ticks of a schedule change anything. */
  function Effective(c: Config, st: Store, ticks: seq<Sweep>): nat
    decreases |ticks|
  {
    if ticks == [] then 0 else
      var next := Effect(c, st, ticks[0]);
      (if next != st then 1 else 0) + Effective(c, next, ticks[1..])
  }

  function RunningIds(rows: Table): set<EnvId> {
    set id | id in rows && rows[id].status == Running
  }

  function TransientIds(rows: Table): set<EnvId> {
    set id | id in rows && rows[id].status in {Pending, Provisioning, Stopping}
  }

  function LabelledContainers(w: World): set<ResId> {
    set id | id in w.containers && w.containers[id].tag.Some?
  }

  function LabelledNetworks(w: World): set<ResId> {
    set id | id in w.networks && w.networks[id].tag.Some?
  }

  /** Two for a running row, one for a row in transit, one for each labelled resource. */
  function Measure(st: Store): nat {
    2 * |RunningIds(st.rows)| + |TransientIds(st.rows)| + |LabelledContainers(st.world)| + |LabelledNetworks(st.world)|
  }

  lemma SetMinus<T>(a: set<T>, b: set<T>)
    requires b <= a
    ensures |a - b| == |a| - |b|
  {
    assert a == (a - b) + b;
  }

  lemma Shift<T>(r: set<T>, t: set<T>, e: set<T>)
    requires e <= r && e !! t
    ensures |r - e| == |r| - |e| && |t + e| == |t| + |e|
  {
    SetMinus(r, e);
  }

  lemma ReapMoves(rows: Table, at: Time)
    ensures RunningIds(ReapRows(rows, at)) == RunningIds(rows) - ExpiredIds(rows, at)
    ensures TransientIds(ReapRows(rows, at)) == TransientIds(rows) + ExpiredIds(rows, at)
    ensures ExpiredIds(rows, at) <= RunningIds(rows) && ExpiredIds(rows, at) !! TransientIds(rows)
  {
  }

  lemma ReapDrops(rows: Table, at: Time)
    ensures var rows' := ReapRows(rows, at);
            2 * |RunningIds(rows')| + |TransientIds(rows')| + |ExpiredIds(rows, at)|
            == 2 * |RunningIds(rows)| + |TransientIds(rows)|
  {
    ReapMoves(rows, at);
    Shift(RunningIds(rows), TransientIds(rows), ExpiredIds(rows, at));
  }

  lemma RecoverMoves(c: Config, rows: Table, at: Time)
    ensures RunningIds(RecoverRows(c, rows, at)) == RunningIds(rows)
    ensures TransientIds(RecoverRows(c, rows, at)) == TransientIds(rows) - StaleIds(c, rows, at)
    ensures StaleIds(c, rows, at) <= TransientIds(rows)
  {
  }

  lemma RecoverDrops(c: Config, rows: Table, at: Time)
    ensures var rows' := RecoverRows(c, rows, at);
            RunningIds(rows') == RunningIds(rows)
            && |TransientIds(rows')| + |StaleIds(c, rows, at)| == |TransientIds(rows)|
  {
    RecoverMoves(c, rows, at);
    SetMinus(TransientIds(rows), StaleIds(c, rows, at));
  }

  /** A sweep that selects no row leaves the table as it was. */
  lemma NothingSelected(c: Config, rows: Table, at: Time)
    ensures ExpiredIds(rows, at) == {} ==> ReapRows(rows, at) == rows
    ensures StaleIds(c, rows, at) == {} ==> RecoverRows(c, rows, at) == rows
  {
    assert forall id :: id in rows && Expired(rows[id], at) ==> id in ExpiredIds(rows, at);
    assert forall id :: id in rows && Stale(c, rows[id], at) ==> id in StaleIds(c, rows, at);
  }

  lemma RemovalDrops(w: World, cids: set<ResId>, nids: set<ResId>)
    requires cids <= LabelledContainers(w) && nids <= LabelledNetworks(w)
    ensures var v := RemoveAll(w, cids, nids);
            && |LabelledContainers(v)| <= |LabelledContainers(w)| && |LabelledNetworks(v)| <= |LabelledNetworks(w)|
            && (v != w ==> |LabelledContainers(v)| + |LabelledNetworks(v)| < |LabelledContainers(w)| + |LabelledNetworks(w)|)
  {
    var v := RemoveAll(w, cids, nids);
    LabelsLeft(w, cids, nids);
    SetMinus(LabelledContainers(w), cids);
    SetMinus(LabelledNetworks(w), w.networks.Keys - v.networks.Keys);
    NothingGone(w, cids, nids);
  }

  lemma NothingGone(w: World, cids: set<ResId>, nids: set<ResId>)
    ensures var v := RemoveAll(w, cids, nids);
            cids == {} && w.networks.Keys - v.networks.Keys == {} ==> v == w
  {
    var v := RemoveAll(w, cids, nids);
    if cids == {} && w.networks.Keys - v.networks.Keys == {} {
      assert v.containers == w.containers;
      forall n | n in w.networks
        ensures n in v.networks
      {
        assert n !in w.networks.Keys - v.networks.Keys;
      }
      assert v.networks == w.networks;
    }
  }

  lemma LabelsLeft(w: World, cids: set<ResId>, nids: set<ResId>)
    requires cids <= LabelledContainers(w) && nids <= LabelledNetworks(w)
    ensures var v := RemoveAll(w, cids, nids);
            var gone := w.networks.Keys - v.networks.Keys;
            && LabelledContainers(v) == LabelledContainers(w) - cids
            && gone <= nids && LabelledNetworks(v) == LabelledNetworks(w) - gone
  {
  }

  /** A tick that changes anything strictly lowers the measure; one that changes nothing leaves it alone. */
  lemma TickDrops(c: Config, st: Store, k: Sweep)
    ensures Effect(c, st, k) != st ==> Measure(Effect(c, st, k)) < Measure(st)
  {
    match k {
      case ReapTick(at) => ReapDrops(st.rows, at); NothingSelected(c, st.rows, at);
      case RecoverTick(at) => RecoverDrops(c, st.rows, at); NothingSelected(c, st.rows, at);
      case ReconcileTick(at, containers, networks) =>
        RemovalDrops(st.world, SweptContainers(st.world, st.rows, at, Cutoff(c, at)) - containers,
                     SweptNetworks(st.world, st.rows, at, Cutoff(c, at)) - networks);
    }
  }

  lemma {:induction false} EffectiveAtMostMeasure(c: Config, st: Store, ticks: seq<Sweep>)
    ensures Effective(c, st, ticks) + Measure(Effects(c, st, ticks)) <= Measure(st)
    decreases |ticks|
  {
    if ticks != [] {
      TickDrops(c, st, ticks[0]);
      EffectiveAtMostMeasure(c, Effect(c, st, ticks[0]), ticks[1..]);
    }
  }

  lemma MeasureAtMost(st: Store)
    ensures Measure(st) <= 2 * |st.rows| + |LabelledContainers(st.world)| + |LabelledNetworks(st.world)|
  {
    var r, t := RunningIds(st.rows), TransientIds(st.rows);
    assert r !! t && r + t <= st.rows.Keys;
    SetMinus(st.rows.Keys, r + t);
    assert |r + t| == |r| + |t|;
  }

  /**
   * The sweeps cannot loop: whatever the order, the instants and Docker's refusals, at most two ticks a row and
   * one a labelled resource ever have an effect.
   */
  lemma SweepsCannotLoop(c: Config, st: Store, ticks: seq<Sweep>)
    ensures Effective(c, st, ticks) <= 2 * |st.rows| + |LabelledContainers(st.world)| + |LabelledNetworks(st.world)|
  {
    EffectiveAtMostMeasure(c, st, ticks);
    MeasureAtMost(st);
  }

  // ---- Sweeps in runs ------------------------------------------------------

  function StoreOf(s: State): Store {
    Store(s.rows, s.world)
  }

  /** A step of the three sweeps, anywhere in the middle of them, or of the clock. */
  predicate BySweepAlone(s: State, step: Step) {
    || step.Tick? || step.ReapClaim? || step.ReapSend? || step.Recover?
    || step.ListContainers? || step.ListNetworks? || step.CheckLabel?
    || ((step.RemoveNext? || step.Leave?) && step.tid in s.workers && (s.workers[step.tid].Reconcile? || s.workers[step.tid].Reap?))
  }

  /** How many steps between the two states changed a row or a resource. */
  function Changes(states: seq<State>, i: nat, j: nat): nat
    requires i <= j < |states|
  {
    if i == j then 0
    else Changes(states, i, j - 1) + (if StoreOf(states[j]) != StoreOf(states[j - 1]) then 1 else 0)
  }

  /** A step that changes anything strictly lowers the measure. */
  lemma SweepStepDrops(c: Config, s: State, step: Step)
    requires WorkersOk(c, s) && BirthsOk(s) && Enabled(c, s, step) && BySweepAlone(s, step)
    ensures StoreOf(Apply(c, s, step)) != StoreOf(s) ==> Measure(StoreOf(Apply(c, s, step))) < Measure(StoreOf(s))
  {
    if step.RemoveNext? {
      RemovalStepDrops(c, s, step.tid, step.obeyed);
    } else if step.ReapClaim? || step.Recover? {
      TableStepDrops(c, s, step);
    } else {
      NoStoreStep(c, s, step);
    }
  }

  lemma TableStepDrops(c: Config, s: State, step: Step)
    requires Enabled(c, s, step) && (step.ReapClaim? || step.Recover?)
    ensures StoreOf(Apply(c, s, step)) != StoreOf(s) ==> Measure(StoreOf(Apply(c, s, step))) < Measure(StoreOf(s))
  {
    if step.ReapClaim? {
      TickDrops(c, StoreOf(s), ReapTick(s.now));
    } else {
      TickDrops(c, StoreOf(s), RecoverTick(s.now));
    }
  }

  lemma NoStoreStep(c: Config, s: State, step: Step)
    requires Enabled(c, s, step) && BySweepAlone(s, step) && !step.RemoveNext? && !step.ReapClaim? && !step.Recover?
    ensures StoreOf(Apply(c, s, step)) == StoreOf(s)
  {
  }

  /** What a pass has queued is labelled, so a removal lowers the number of labelled resources. */
  lemma RemovalStepDrops(c: Config, s: State, tid: TaskId, obeyed: bool)
    requires WorkersOk(c, s) && BirthsOk(s) && tid in s.workers && s.workers[tid].Reconcile?
    requires QueueOf(s.workers[tid]) != NOTHING
    ensures var s' := DoRemoveNext(s, tid, obeyed);
            StoreOf(s') != StoreOf(s) ==> Measure(StoreOf(s')) < Measure(StoreOf(s))
  {
    assert WorkerOk(c, s, s.workers[tid]);
    var q, w, s' := QueueOf(s.workers[tid]), s.world, DoRemoveNext(s, tid, obeyed);
    if s'.world != w {
      if q.containers != [] {
        var rid := q.containers[0];
        assert rid in w.containers by { assert rid !in w.containers ==> w.containers - {rid} == w.containers; }
        assert rid in Queued(q) && BornAs(s, rid, s.workers[tid].pass.visiting);
        OneRemoved(w, {rid}, {});
      } else {
        var rid := q.networks[0];
        assert rid in w.networks by { assert rid !in w.networks ==> w.networks - {rid} == w.networks; }
        assert rid in Queued(q) && BornAs(s, rid, s.workers[tid].pass.visiting);
        OneRemoved(w, {}, {rid});
      }
    }
  }

  lemma OneRemoved(w: World, cids: set<ResId>, nids: set<ResId>)
    requires cids <= LabelledContainers(w) && nids <= LabelledNetworks(w)
    requires (|cids| == 1 && nids == {}) || (cids == {} && |nids| == 1)
    ensures forall id :: cids == {id} ==> RemoveContainer(w, id) == RemoveAll(w, cids, nids)
    ensures forall id :: nids == {id} ==> RemoveNetwork(w, id) == RemoveAll(w, cids, nids)
    ensures var v := RemoveAll(w, cids, nids);
            v != w ==> |LabelledContainers(v)| + |LabelledNetworks(v)| < |LabelledContainers(w)| + |LabelledNetworks(w)|
  {
    RemovalDrops(w, cids, nids);
    var left := w.(containers := w.containers - cids);
    if cids == {} {
      assert left == w;
    }
    forall id | nids == {id}
      ensures RemoveNetwork(w, id) == RemoveAll(w, cids, nids)
    {
      assert (set n | n in nids && Attached(left, n) == {}) == if Attached(w, id) == {} then {id} else {};
    }
    forall id | cids == {id}
      ensures RemoveContainer(w, id) == RemoveAll(w, cids, nids)
    {
      assert left.networks - (set n | n in nids && Attached(left, n) == {}) == w.networks;
    }
  }

  lemma ChangeNext(c: Config, states: seq<State>, steps: seq<Step>, i: nat)
    requires Run(c, states, steps) && i < |steps| && BySweepAlone(states[i], steps[i])
    ensures StoreOf(states[i + 1]) != StoreOf(states[i]) ==> Measure(StoreOf(states[i + 1])) < Measure(StoreOf(states[i]))
  {
    InvAt(c, states, steps, i);
    assert StepAt(c, states, steps, i);
    SweepStepDrops(c, states[i], steps[i]);
  }

  lemma {:induction false} ChangesAtMostMeasure(c: Config, states: seq<State>, steps: seq<Step>, i: nat, j: nat)
    requires Run(c, states, steps) && i <= j < |states|
    requires forall k :: i <= k < j ==> BySweepAlone(states[k], steps[k])
    ensures Changes(states, i, j) + Measure(StoreOf(states[j])) <= Measure(StoreOf(states[i]))
    decreases j - i
  {
    if i < j {
      ChangesAtMostMeasure(c, states, steps, i, j - 1);
      ChangeNext(c, states, steps, j - 1);
    }
  }

  /**
   * The sweeps cannot loop, step by step: in any stretch of a run in which only they move, interleaved anyhow,
   * interrupted anywhere and refused anything, at most two steps a row and one a labelled resource change something.
   */
  lemma InterleavedSweepsCannotLoop(c: Config, states: seq<State>, steps: seq<Step>, i: nat, j: nat)
    requires Run(c, states, steps) && i <= j < |states|
    requires forall k :: i <= k < j ==> BySweepAlone(states[k], steps[k])
    ensures Changes(states, i, j) <=
            2 * |states[i].rows| + |LabelledContainers(states[i].world)| + |LabelledNetworks(states[i].world)|
  {
    ChangesAtMostMeasure(c, states, steps, i, j);
    MeasureAtMost(StoreOf(states[i]));
  }

  // ---- Convergence ---------------------------------------------------------

  predicate HasUuid(tag: Option<Label>) {
    tag.Some? && tag.value.Uuid?
  }

  /** No row is in flight or running, and nothing carrying an environment's label is left. */
  predicate Clean(st: Store) {
    && (forall id :: id in st.rows ==> Terminal(st.rows[id].status))
    && (forall rid :: rid in st.world.containers ==> !HasUuid(st.world.containers[rid].tag))
    && (forall rid :: rid in st.world.networks ==> !HasUuid(st.world.networks[rid].tag))
  }

  predicate AllExpiredBy(rows: Table, t: Time) {
    forall id :: id in rows && rows[id].status == Running && rows[id].expiresAt.Some? ==> rows[id].expiresAt.value <= t
  }

  /** After a reap past every expiry and a recover past every timeout, every row is terminal. */
  lemma RowsSettle(c: Config, s: State, t1: Time, t2: Time)
    requires RowsOk(s) && s.now <= t1
    requires AllExpiredBy(s.rows, t1)
    requires t1 + c.pendingTimeout <= t2 && t1 + c.provisioningTimeout <= t2 && t1 + c.stoppingTimeout <= t2
    ensures var rows := RecoverRows(c, ReapRows(s.rows, t1), t2);
            forall id :: id in s.rows ==>
              && id in rows
              && (if Terminal(s.rows[id].status) then rows[id] == s.rows[id] else rows[id].status == Failed)
  {
    forall id | id in s.rows
      ensures RowOk(s, id, s.rows[id])
    {
    }
  }

  /** With every row terminal, a pass past everyone's grace leaves nothing under an environment's label. */
  lemma WorldSettles(c: Config, s: State, rows: Table, t3: Time)
    requires BirthsOk(s) && OwnNetworksOnly(s.world) && s.now + c.grace <= t3
    requires forall id :: id in rows ==> Terminal(rows[id].status)
    ensures Clean(Store(rows, Reconciled(s.world, rows, t3, Cutoff(c, t3))))
  {
    var w, cut := s.world, Cutoff(c, t3);
    var cids, nids := SweptContainers(w, rows, t3, cut), SweptNetworks(w, rows, t3, cut);
    forall rid | rid in w.containers && HasUuid(w.containers[rid].tag)
      ensures rid in cids
    {
      assert BirthOk(s, s.born[rid]);
    }
    forall rid | rid in w.networks && HasUuid(w.networks[rid].tag)
      ensures rid in nids && Attached(w, rid) <= cids
    {
      assert BirthOk(s, s.born[rid]);
      assert forall k :: k in Attached(w, rid) ==> HasUuid(w.containers[k].tag);
    }
    var left := w.(containers := w.containers - cids);
    forall rid | rid in w.networks && HasUuid(w.networks[rid].tag)
      ensures Attached(left, rid) == {}
    {
      assert forall k :: k in Attached(left, rid) ==> k in Attached(w, rid);
    }
  }

  /**
   * Bounded convergence. From any reachable state, with every worker dead and every message lost, a reap after
   * the last expiry, a recover after the timeouts and a reconcile after the grace period leave every row STOPPED
   * or FAILED and no container or network under any environment's label.
   */
  lemma CrashIsReclaimed(c: Config, states: seq<State>, steps: seq<Step>, i: nat, t1: Time, t2: Time, t3: Time)
    requires Run(c, states, steps) && i < |states| && states[i].now <= t1
    requires AllExpiredBy(states[i].rows, t1)
    requires t1 + c.pendingTimeout <= t2 && t1 + c.provisioningTimeout <= t2 && t1 + c.stoppingTimeout <= t2
    requires t2 <= t3 && states[i].now + c.grace <= t3
    ensures var st := Store(states[i].rows, states[i].world);
            Clean(Effects(c, st, [ReapTick(t1), RecoverTick(t2), ReconcileTick(t3, {}, {})]))
  {
    InvAt(c, states, steps, i);
    var s := states[i];
    RowsSettle(c, s, t1, t2);
    var rows := RecoverRows(c, ReapRows(s.rows, t1), t2);
    WorldSettles(c, s, rows, t3);
    ThreeTicks(c, Store(s.rows, s.world), t1, t2, t3);
  }

  lemma ThreeTicks(c: Config, st: Store, t1: Time, t2: Time, t3: Time)
    ensures var rows := RecoverRows(c, ReapRows(st.rows, t1), t2);
            Effects(c, st, [ReapTick(t1), RecoverTick(t2), ReconcileTick(t3, {}, {})])
            == Store(rows, Reconciled(st.world, rows, t3, Cutoff(c, t3)))
  {
    var ticks := [ReapTick(t1), RecoverTick(t2), ReconcileTick(t3, {}, {})];
    var st1 := Effect(c, st, ticks[0]);
    var st2 := Effect(c, st1, ticks[1]);
    var st3 := Effect(c, st2, ticks[2]);
    assert ticks[1..][1..][1..] == [];
    assert Effects(c, st3, []) == st3;
    assert Effects(c, st2, ticks[1..][1..]) == st3;
    assert Effects(c, st1, ticks[1..]) == st3;
    var cids := SweptContainers(st.world, st2.rows, t3, Cutoff(c, t3));
    var nids := SweptNetworks(st.world, st2.rows, t3, Cutoff(c, t3));
    assert cids - {} == cids && nids - {} == nids;
  }
}

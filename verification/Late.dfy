/** The other half of the time bound: attempts that are never late, and still too slow for their row. */
module Late {
  import opened Lifecycle
  import opened Naming
  import opened Worlds
  import opened Protocol
  import opened Invariants
  import opened Safety
  import opened Passes
  import opened Limits
  import opened Pace
  import Docker
  import Templates

  /** A state reached by a run on which nobody is ever late. */
  ghost predicate PromptlyReachable(c: Config, p: Pace, s: State) {
    exists states: seq<State>, steps: seq<Step> ::
      Run(c, states, steps) && states[|steps|] == s && Prompt(c, p, states, |steps|)
  }

  /** The run to s, and one step more. */
  lemma OneStepOn(c: Config, p: Pace, s: State, step: Step, s': State) returns (states: seq<State>, steps: seq<Step>)
    requires PromptlyReachable(c, p, s) && StepOf(c, s, step, s')
    ensures Run(c, states, steps) && |steps| > 0 && steps[|steps| - 1] == step
    ensures states[|steps|] == s' && states[|steps| - 1] == s && Prompt(c, p, states, |steps| - 1)
  {
    var states0: seq<State>, steps0: seq<Step> :|
      Run(c, states0, steps0) && states0[|steps0|] == s && Prompt(c, p, states0, |steps0|);
    states, steps := states0 + [s'], steps0 + [step];
    forall i | 0 <= i < |steps|
      ensures StepAt(c, states, steps, i)
    {
      assert i < |steps0| ==> StepAt(c, states0, steps0, i);
    }
    assert forall j :: 0 <= j <= |steps0| ==> states[j] == states0[j];
  }

  lemma GoOn(c: Config, p: Pace, s: State, step: Step, s': State)
    requires PromptlyReachable(c, p, s) && StepOf(c, s, step, s') && OnTime(c, p, s')
    ensures PromptlyReachable(c, p, s')
  {
    var states, steps := OneStepOn(c, p, s, step, s');
    assert Prompt(c, p, states, |steps|);
  }

  /** A template whose provision can go all the way: it has roles, no two of one name, and every one resolves. */
  predicate Buildable(c: Config, name: string) {
    && name in c.templates && c.templates[name] != [] && Templates.DistinctRoles(c.templates[name])
    && forall i :: 0 <= i < |c.templates[name]| ==> c.templates[name][i].resolvable
  }

  lemma OrderBuildable(c: Config, name: string)
    requires Buildable(c, name)
    ensures var order := OrderOf(c, name);
            && order == Templates.StartOrder(c.templates[name]) && |order| == |c.templates[name]|
            && Templates.DistinctRoles(order) && forall i :: 0 <= i < |order| ==> order[i].resolvable
  {
    Templates.PickKeepsAll(c.templates[name]);
    Templates.StartOrderDistinct(c.templates[name]);
    var order := OrderOf(c, name);
    forall i | 0 <= i < |order|
      ensures order[i].resolvable
    {
      var a := Templates.OrderOrigin(c.templates[name], i);
    }
  }

  function RowFor(name: string): Row {
    SetStatus(NewRow("alice", "web", name, 3600, 0), Provisioning, 0)
  }

  /** One attempt is alone at work on row 0, loaded at time zero. */
  predicate AloneAtWork(s: State, name: string, a: Attempt) {
    && s.rows == map[0 := RowFor(name)] && s.workers == map[0 := Provision(a)]
    && a.env == 0 && a.phase == Working && a.loadedAt == Some(0) && a.since == s.now
  }

  /** It has had its network since t0, and the first k roles, each as late as it may be. */
  predicate RolesDone(c: Config, p: Pace, s: State, name: string, t0: nat, k: nat) {
    && AttemptAt(c, s, name, k) && NamedAfter(s.world, OrderOf(c, name), k)
    && s.now == t0 + Docker.Times(k, Role(c, p))
    && s.world.networks.Keys == {0} && (forall rid :: rid in s.born ==> rid <= k)
    && (k > 0 ==> FirstContainer(s, t0))
  }

  /** The attempt is through with k roles of the template. */
  predicate AttemptAt(c: Config, s: State, name: string, k: nat) {
    && 0 in s.workers && s.workers[0].Provision? && AloneAtWork(s, name, s.workers[0].attempt)
    && var a := s.workers[0].attempt;
    && a.order == OrderOf(c, name) && a.ready == k == |a.containers| <= |a.order|
    && a.network == Some(0) && (k > 0 ==> 1 in a.made)
  }

  /** The containers have the names of the first k roles. */
  predicate NamedAfter(w: World, order: Template, k: nat) {
    k <= |order| && forall rid :: rid in w.containers ==>
      exists i :: 0 <= i < k && w.containers[rid].name == ContainerName(0, order[i].role)
  }

  /** The first container is there, as old as the stack. */
  predicate FirstContainer(s: State, t0: nat) {
    && 1 in s.world.containers && s.world.containers[1].tag == Some(Canonical(0))
    && s.world.containers[1].createdAt == Some(t0)
  }

  function Requested(name: string): State {
    EMPTY.(rows := map[0 := NewRow("alice", "web", name, 3600, 0)], issued := {0}, bag := multiset{ProvisionMsg(0, 0)})
  }

  lemma Creates(c: Config, p: Pace, name: string)
    requires c.quota > 0
    ensures PromptlyReachable(c, p, Requested(name))
  {
    var steps: seq<Step> := [];
    assert Run(c, [EMPTY], steps) && [EMPTY][|steps|] == EMPTY && Prompt(c, p, [EMPTY], |steps|);
    assert ActiveOf(EMPTY.rows, "alice") == {} && ActiveNamed(EMPTY.rows, "alice", "web") == {};
    var s1 := EMPTY.(inserting := Requested(name).rows, issued := {0}, bag := multiset{ProvisionMsg(0, 0)});
    GoOn(c, p, EMPTY, CreateRequest(0, "alice", "web", name, 3600), s1);
    GoOn(c, p, s1, CreateCommit(0), Requested(name));
  }

  function Delivered(name: string): State {
    Requested(name).(bag := multiset{}, workers := map[0 := Start(EMPTY, ProvisionMsg(0, 0))])
  }

  function AtWorkOn(c: Config, name: string): State {
    EMPTY.(rows := map[0 := RowFor(name)], issued := {0},
           workers := map[0 := Provision(Attempt(0, 0, Working, Some(0), 0, OrderOf(c, name), 0, None, None, [], {}))])
  }

  lemma Loads(c: Config, p: Pace, name: string)
    requires c.quota > 0
    ensures PromptlyReachable(c, p, AtWorkOn(c, name))
  {
    Creates(c, p, name);
    GoOn(c, p, Requested(name), Deliver(0, ProvisionMsg(0, 0), true), Delivered(name));
    assert DoProvisionLoad(c, Delivered(name), 0) == AtWorkOn(c, name);
    GoOn(c, p, Delivered(name), ProvisionLoad(0), AtWorkOn(c, name));
  }

  /** The network takes no longer than a call may. */
  lemma MakesNetwork(c: Config, p: Pace, name: string, t0: nat) returns (s: State)
    requires c.quota > 0 && Buildable(c, name) && t0 <= p.call
    ensures PromptlyReachable(c, p, s) && RolesDone(c, p, s, name, t0, 0)
  {
    Loads(c, p, name);
    OrderBuildable(c, name);
    var late := AtWorkOn(c, name).(now := t0);
    GoOn(c, p, AtWorkOn(c, name), Tick(t0), late);
    s := DoProvisionNetwork(late, 0, 0, true);
    GoOn(c, p, late, ProvisionNetwork(0, 0, true), s);
  }

  /** One more role, as late as it may be. */
  lemma OneRoleMore(c: Config, p: Pace, s: State, name: string, t0: nat, k: nat) returns (s': State)
    requires Buildable(c, name) && k < |OrderOf(c, name)|
    requires PromptlyReachable(c, p, s) && RolesDone(c, p, s, name, t0, k)
    ensures PromptlyReachable(c, p, s') && RolesDone(c, p, s', name, t0, k + 1)
  {
    StartsRole(c, p, s, name, t0, k);
    var s1 := DoProvisionContainer(s, 0, k + 1, true);
    GoOn(c, p, s, ProvisionContainer(0, k + 1, true), s1);
    var s2 := s1.(now := s.now + Role(c, p));
    EndsRole(c, p, s1, s2, k);
    GoOn(c, p, s1, Tick(Role(c, p)), s2);
    s' := DoRoleReady(s2, 0);
    GoOn(c, p, s2, RoleReady(0), s');
    RoleAdded(c, p, s, s', name, t0, k);
  }

  lemma StartsRole(c: Config, p: Pace, s: State, name: string, t0: nat, k: nat)
    requires Buildable(c, name) && k < |OrderOf(c, name)| && RolesDone(c, p, s, name, t0, k)
    ensures var s1 := DoProvisionContainer(s, 0, k + 1, true);
            && StepOf(c, s, ProvisionContainer(0, k + 1, true), s1) && OnTime(c, p, s1) && AtRole(s1, k)
            && s1.workers[0].attempt.since == s1.now == s.now
  {
    OrderBuildable(c, name);
    NextNameFree(c, p, s, name, t0, k);
  }

  /** The only worker has started role k and waits for it. */
  predicate AtRole(s: State, k: nat) {
    && s.workers.Keys == {0} && s.workers[0].Provision?
    && var a := s.workers[0].attempt;
    && a.phase == Working && a.network.Some? && a.ready == k < |a.order| && |a.containers| == k + 1
  }

  lemma EndsRole(c: Config, p: Pace, s1: State, s2: State, k: nat)
    requires AtRole(s1, k) && s1.workers[0].attempt.since == s1.now && s2 == s1.(now := s1.now + Role(c, p))
    ensures StepOf(c, s1, Tick(Role(c, p)), s2) && OnTime(c, p, s2)
    ensures StepOf(c, s2, RoleReady(0), DoRoleReady(s2, 0)) && OnTime(c, p, DoRoleReady(s2, 0))
  {
  }

  lemma NextNameFree(c: Config, p: Pace, s: State, name: string, t0: nat, k: nat)
    requires RolesDone(c, p, s, name, t0, k) && k < |OrderOf(c, name)| && Templates.DistinctRoles(OrderOf(c, name))
    ensures forall rid :: rid in s.world.containers ==>
              s.world.containers[rid].name != ContainerName(0, OrderOf(c, name)[k].role)
  {
    var order := OrderOf(c, name);
    forall rid | rid in s.world.containers
      ensures s.world.containers[rid].name != ContainerName(0, order[k].role)
    {
      var i :| 0 <= i < k && s.world.containers[rid].name == ContainerName(0, order[i].role);
      NamesNeverCollide(0, 0, order[i].role, order[k].role);
    }
  }

  lemma RoleAdded(c: Config, p: Pace, s: State, s': State, name: string, t0: nat, k: nat)
    requires RolesDone(c, p, s, name, t0, k) && k < |OrderOf(c, name)|
    requires s' == DoRoleReady(DoProvisionContainer(s, 0, k + 1, true).(now := s.now + Role(c, p)), 0)
    ensures RolesDone(c, p, s', name, t0, k + 1)
  {
    var added := Container(ContainerName(0, OrderOf(c, name)[k].role), Some(Canonical(0)), OrderOf(c, name)[k].role,
                           Some(0), Some(s.now));
    StateAdded(c, p, s, s', name, t0, k, added);
    AttemptGoesOn(c, s, s', name, k, s.now + Role(c, p));
    NameAdded(s.world, s'.world, OrderOf(c, name), k, added);
    OldestStays(s, s', t0, k);
  }

  lemma AttemptGoesOn(c: Config, s: State, s': State, name: string, k: nat, now: Time)
    requires AttemptAt(c, s, name, k) && k < |OrderOf(c, name)|
    requires s' == DoRoleReady(DoProvisionContainer(s, 0, k + 1, true).(now := now), 0)
    ensures AttemptAt(c, s', name, k + 1)
  {
    var a := s.workers[0].attempt;
    assert s'.workers[0].attempt == a.(containers := a.containers + [k + 1], made := a.made + {k + 1}, ready := k + 1, since := now);
  }

  lemma StateAdded(c: Config, p: Pace, s: State, s': State, name: string, t0: nat, k: nat, added: Container)
    requires RolesDone(c, p, s, name, t0, k) && k < |OrderOf(c, name)|
    requires s' == DoRoleReady(DoProvisionContainer(s, 0, k + 1, true).(now := s.now + Role(c, p)), 0)
    requires added == Container(ContainerName(0, OrderOf(c, name)[k].role), Some(Canonical(0)), OrderOf(c, name)[k].role,
                                Some(0), Some(s.now))
    ensures s'.now == t0 + Docker.Times(k + 1, Role(c, p))
    ensures s'.world == s.world.(containers := s.world.containers[k + 1 := added])
    ensures forall rid :: rid in s'.born ==> rid <= k + 1
  {
  }

  lemma NameAdded(w: World, w': World, order: Template, k: nat, added: Container)
    requires k < |order| && NamedAfter(w, order, k) && added.name == ContainerName(0, order[k].role)
    requires w' == w.(containers := w.containers[k + 1 := added])
    ensures NamedAfter(w', order, k + 1)
  {
    forall rid | rid in w'.containers
      ensures exists i :: 0 <= i < k + 1 && w'.containers[rid].name == ContainerName(0, order[i].role)
    {
      if rid == k + 1 {
        assert w'.containers[rid].name == ContainerName(0, order[k].role);
      } else {
        var i :| 0 <= i < k && w.containers[rid].name == ContainerName(0, order[i].role);
        assert w'.containers[rid].name == ContainerName(0, order[i].role);
      }
    }
  }

  lemma OldestStays(s: State, s': State, t0: nat, k: nat)
    requires k > 0 ==> FirstContainer(s, t0)
    requires k + 1 in s'.world.containers && s.world.containers.Keys <= s'.world.containers.Keys
    requires forall rid :: rid in s.world.containers && rid != k + 1 ==> s'.world.containers[rid] == s.world.containers[rid]
    requires s'.world.containers[k + 1].tag == Some(Canonical(0)) && (k == 0 ==> s'.world.containers[1].createdAt == Some(t0))
    ensures FirstContainer(s', t0)
  {
  }

  lemma {:induction false} RoleByRole(c: Config, p: Pace, name: string, t0: nat, k: nat) returns (s: State)
    requires c.quota > 0 && Buildable(c, name) && k <= |OrderOf(c, name)| && t0 <= p.call
    ensures PromptlyReachable(c, p, s) && RolesDone(c, p, s, name, t0, k)
  {
    if k == 0 {
      s := MakesNetwork(c, p, name, t0);
    } else {
      s := RoleByRole(c, p, name, t0, k - 1);
      s := OneRoleMore(c, p, s, name, t0, k - 1);
    }
  }

  /** A recover at this state would fail the PROVISIONING row of a live attempt at this template. */
  ghost predicate LosesRow(c: Config, s: State, t: TaskId, name: string) {
    && t in s.workers && s.workers[t].Provision?
    && var a := s.workers[t].attempt;
    && a.loadedAt.Some? && a.order == OrderOf(c, name) && a.phase in {Working, Raised(false), Raised(true)}
    && a.env in s.rows && s.rows[a.env].status == Provisioning
    && RecoverRows(c, s.rows, s.now)[a.env].status == Failed
  }

  ghost predicate CanLoseRow(c: Config, p: Pace, name: string) {
    exists s, t :: PromptlyReachable(c, p, s) && LosesRow(c, s, t, name)
  }

  /** The attempt has raised, and there is no time left. */
  predicate OutOfTime(c: Config, p: Pace, s: State, name: string, t0: nat) {
    && s.now == t0 + HoldLimit(c, p, |OrderOf(c, name)|) && s.rows == map[0 := RowFor(name)] && s.workers.Keys == {0}
    && s.workers[0].Provision? && s.world.networks.Keys == {0} && FirstContainer(s, t0)
    && var a := s.workers[0].attempt;
    && a.env == 0 && a.phase == Raised(false) && a.loadedAt == Some(0) && a.order == OrderOf(c, name) && 1 in a.made
  }

  /** All roles, then the commit as late as it may be, an exception in it, and the clean-up as long as it may take. */
  lemma EndsLate(c: Config, p: Pace, name: string, t0: nat) returns (s: State)
    requires c.quota > 0 && Buildable(c, name) && t0 <= p.call
    ensures PromptlyReachable(c, p, s) && OutOfTime(c, p, s, name, t0)
  {
    OrderBuildable(c, name);
    var s1 := RoleByRole(c, p, name, t0, |OrderOf(c, name)|);
    var s2 := s1.(now := s1.now + p.commit);
    var s3 := SetWorker(s2, 0, Raising(s2.workers[0], false, s2.now));
    s := s3.(now := s3.now + p.marking);
    LastSteps(c, p, s1, s2, s3, s, name, t0);
    GoOn(c, p, s1, Tick(p.commit), s2);
    GoOn(c, p, s2, Raise(0, false), s3);
    GoOn(c, p, s3, Tick(p.marking), s);
  }

  lemma LastSteps(c: Config, p: Pace, s1: State, s2: State, s3: State, s: State, name: string, t0: nat)
    requires RolesDone(c, p, s1, name, t0, |OrderOf(c, name)|) && OrderOf(c, name) != []
    requires s2 == s1.(now := s1.now + p.commit) && s3 == SetWorker(s2, 0, Raising(s2.workers[0], false, s2.now))
    requires s == s3.(now := s3.now + p.marking)
    ensures StepOf(c, s1, Tick(p.commit), s2) && OnTime(c, p, s2)
    ensures StepOf(c, s2, Raise(0, false), s3) && OnTime(c, p, s3)
    ensures StepOf(c, s3, Tick(p.marking), s) && OnTime(c, p, s)
    ensures OutOfTime(c, p, s, name, t0)
  {
    WaitsToCommit(c, p, s1, s2);
    RaisesThen(c, p, s2, s3);
    WaitsToMark(c, p, s3, s);
    assert s.workers[0].attempt == s1.workers[0].attempt.(phase := Raised(false), since := s2.now);
  }

  lemma WaitsToCommit(c: Config, p: Pace, s1: State, s2: State)
    requires s1.workers.Keys == {0} && s1.workers[0].Provision? && s2 == s1.(now := s1.now + p.commit)
    requires var a := s1.workers[0].attempt;
             a.phase == Working && a.network.Some? && a.ready == |a.order| && a.since == s1.now
    ensures StepOf(c, s1, Tick(p.commit), s2) && OnTime(c, p, s2)
  {
  }

  lemma RaisesThen(c: Config, p: Pace, s2: State, s3: State)
    requires s2.workers.Keys == {0} && ProvisionAt(s2, 0, Working)
    requires s3 == SetWorker(s2, 0, Raising(s2.workers[0], false, s2.now))
    ensures StepOf(c, s2, Raise(0, false), s3) && OnTime(c, p, s3)
  {
  }

  lemma WaitsToMark(c: Config, p: Pace, s3: State, s: State)
    requires s3.workers.Keys == {0} && s3.workers[0].Provision? && s == s3.(now := s3.now + p.marking)
    requires s3.workers[0].attempt.phase != Working && s3.workers[0].attempt.since == s3.now
    ensures StepOf(c, s3, Tick(p.marking), s) && OnTime(c, p, s)
  {
  }

  /**
   * The bound on attempts is exact. For a template that can be built, a run on which nobody is ever late can come
   * to a recover that fails the row of a live attempt if and only if the sum of its parts, d + n(T + 2 + 3d) plus
   * commit and clean-up, reaches the provisioning timeout.
   */
  lemma LosesRowExactly(c: Config, p: Pace, name: string)
    requires c.quota > 0 && Buildable(c, name)
    ensures CanLoseRow(c, p, name) <==> Limit(c, p, |c.templates[name]|) >= c.provisioningTimeout
  {
    OrderBuildable(c, name);
    if CanLoseRow(c, p, name) {
      var s, t :| PromptlyReachable(c, p, s) && LosesRow(c, s, t, name);
      Spared(c, p, s, t);
    }
    if Limit(c, p, |c.templates[name]|) >= c.provisioningTimeout {
      var s := EndsLate(c, p, name, p.call);
      assert LosesRow(c, s, 0, name);
    }
  }

  /** An attempt whose bound is below the timeout keeps its row. */
  lemma Spared(c: Config, p: Pace, s: State, t: TaskId)
    requires PromptlyReachable(c, p, s) && t in s.workers && s.workers[t].Provision? && s.workers[t].attempt.loadedAt.Some?
    ensures var a := s.workers[t].attempt;
            a.env in s.rows && (Limit(c, p, |a.order|) < c.provisioningTimeout && s.rows[a.env].status == Provisioning ==>
              RecoverRows(c, s.rows, s.now)[a.env] == s.rows[a.env])
  {
    var states: seq<State>, steps: seq<Step> :|
      Run(c, states, steps) && states[|steps|] == s && Prompt(c, p, states, |steps|);
    InvAt(c, states, steps, |steps|);
    assert WorkerOk(c, s, s.workers[t]);
    LivesAtMost(c, p, states, steps, |steps|, t);
  }

  // ---- Live resources ------------------------------------------------------

  /** The step takes away a resource of a live attempt's, or of a running row's. */
  ghost predicate TakesLive(c: Config, s: State, step: Step, rid: ResId) {
    Enabled(c, s, step) && Present(s.world, rid) && Live(s, rid) && !Present(Apply(c, s, step).world, rid)
  }

  ghost predicate CanTakeLive(c: Config, p: Pace) {
    exists s, step, rid :: PromptlyReachable(c, p, s) && TakesLive(c, s, step, rid)
  }

  /** Time stands still, and the attempts with it. */
  lemma StillOnTime(c: Config, p: Pace, s: State, s': State)
    requires OnTime(c, p, s) && s'.now == s.now && SameAttempts(s, s')
    ensures OnTime(c, p, s')
  {
  }

  lemma GoOnAtOnce(c: Config, p: Pace, s: State, step: Step, s': State)
    requires PromptlyReachable(c, p, s) && StepOf(c, s, step, s') && SameAttempts(s, s') && s'.now == s.now
    ensures PromptlyReachable(c, p, s')
  {
    var states: seq<State>, steps: seq<Step> :|
      Run(c, states, steps) && states[|steps|] == s && Prompt(c, p, states, |steps|);
    assert OnTime(c, p, states[|steps|]);
    StillOnTime(c, p, s, s');
    GoOn(c, p, s, step, s');
  }

  /** The owner deletes the environment, and a teardown that finds nothing recorded stops the row at once. */
  lemma StoppedMeanwhile(c: Config, p: Pace, s: State, name: string, t0: nat) returns (s': State)
    requires PromptlyReachable(c, p, s) && OutOfTime(c, p, s, name, t0)
    ensures PromptlyReachable(c, p, s') && s'.now == s.now && s'.world == s.world && s'.workers == s.workers
    ensures 0 in s'.rows && s'.rows[0].status == Stopped
  {
    var s1 := Send(s, TeardownMsg(0, 0));
    GoOnAtOnce(c, p, s, DeleteRequest(0, "alice"), s1);
    var s2 := SetWorker(s, 1, Teardown(Removal(0, 0, Loading, NOTHING)));
    Delivers(c, s, s1, s2);
    GoOnAtOnce(c, p, s1, Deliver(1, TeardownMsg(0, 0), true), s2);
    s' := TornDownAtOnce(c, p, s, s2);
  }

  lemma TornDownAtOnce(c: Config, p: Pace, s: State, s2: State) returns (s': State)
    requires PromptlyReachable(c, p, s2) && s2 == SetWorker(s, 1, Teardown(Removal(0, 0, Loading, NOTHING)))
    requires 1 !in s.workers && 0 in s.rows && s.rows[0].containerIds == [] && s.rows[0].networkId == None
    ensures PromptlyReachable(c, p, s') && s'.now == s.now && s'.world == s.world && s'.workers == s.workers
    ensures 0 in s'.rows && s'.rows[0].status == Stopped
  {
    var s3 := DoTeardownLoad(s2, 1);
    GoOnAtOnce(c, p, s2, TeardownLoad(1), s3);
    s' := DoTeardownCommit(s3, 1);
    NothingToTear(c, s, s2, s3, s');
    GoOnAtOnce(c, p, s3, TeardownCommit(1), s');
  }

  lemma NothingToTear(c: Config, s: State, s2: State, s3: State, s': State)
    requires s2 == SetWorker(s, 1, Teardown(Removal(0, 0, Loading, NOTHING))) && 1 !in s.workers
    requires 0 in s.rows && s.rows[0].containerIds == [] && s.rows[0].networkId == None
    requires s3 == DoTeardownLoad(s2, 1) && TeardownAt(s3, 1, Working) && 0 in s3.rows && s' == DoTeardownCommit(s3, 1)
    ensures StepOf(c, s3, TeardownCommit(1), s') && SameAttempts(s3, s') && s'.workers == s.workers
    ensures 0 in s'.rows && s'.rows[0].status == Stopped && s'.now == s.now && s'.world == s.world
  {
    assert s'.workers == s.workers;
  }

  lemma Delivers(c: Config, s: State, s1: State, s2: State)
    requires s1 == Send(s, TeardownMsg(0, 0)) && 1 !in s.workers
    requires s2 == SetWorker(s, 1, Teardown(Removal(0, 0, Loading, NOTHING)))
    ensures StepOf(c, s1, Deliver(1, TeardownMsg(0, 0), true), s2)
  {
    assert s1.bag - multiset{TeardownMsg(0, 0)} == s.bag;
  }

  lemma OutOfGrace(c: Config, p: Pace, name: string)
    requires c.quota > 0 && Buildable(c, name) && HoldLimit(c, p, |c.templates[name]|) >= c.grace
    ensures CanTakeLive(c, p)
  {
    OrderBuildable(c, name);
    var s0 := EndsLate(c, p, name, 0);
    var s := StoppedMeanwhile(c, p, s0, name, 0);
    assert 1 in MadeBy(s.workers[0]);
    PassTakes(c, p, s);
  }

  lemma PassTakes(c: Config, p: Pace, s: State)
    requires PromptlyReachable(c, p, s) && 1 !in s.workers && Overdue(c, s, 1) && 1 !in s.world.networks && Live(s, 1)
    ensures CanTakeLive(c, p)
  {
    BirthsOfPrompt(c, p, s);
    var s1, s2, s3, check, s4 := OverdueCanBeSwept(c, s, 1, 1);
    PassAttempts(c, p, s, s1, ListContainers(1, Cutoff(c, s.now)));
    PassAttempts(c, p, s1, s2, ListNetworks(1));
    PassAttempts(c, p, s2, s3, check);
    Taken(c, s, s1, s2, s3, check, s4);
  }

  lemma Taken(c: Config, s: State, s1: State, s2: State, s3: State, check: Step, s4: State)
    requires StepOf(c, s, ListContainers(1, Cutoff(c, s.now)), s1) && StepOf(c, s1, ListNetworks(1), s2)
    requires check.CheckLabel? && StepOf(c, s2, check, s3) && StepOf(c, s3, RemoveNext(1, true), s4)
    requires 1 !in s.world.networks && 1 in s3.world.containers && 1 !in s4.world.containers && Live(s3, 1)
    ensures TakesLive(c, s3, RemoveNext(1, true), 1)
  {
    PassWorld(c, s, s1, s2, s3, check);
    NetworksOnlyGo(c, s3, s4);
  }

  lemma NetworksOnlyGo(c: Config, s: State, s': State)
    requires StepOf(c, s, RemoveNext(1, true), s')
    ensures s'.world.networks.Keys <= s.world.networks.Keys
  {
  }

  lemma BirthsOfPrompt(c: Config, p: Pace, s: State)
    requires PromptlyReachable(c, p, s)
    ensures BirthsOk(s)
  {
    var states: seq<State>, steps: seq<Step> :|
      Run(c, states, steps) && states[|steps|] == s && Prompt(c, p, states, |steps|);
    InvAt(c, states, steps, |steps|);
  }

  lemma PassAttempts(c: Config, p: Pace, s: State, s': State, step: Step)
    requires PromptlyReachable(c, p, s) && StepOf(c, s, step, s')
    requires step.ListContainers? || step.ListNetworks? || step.CheckLabel?
    ensures PromptlyReachable(c, p, s')
  {
    SweepAttempts(c, s, step);
    assert s'.now == s.now;
    GoOnAtOnce(c, p, s, step, s');
  }

  lemma PassWorld(c: Config, s: State, s1: State, s2: State, s3: State, check: Step)
    requires StepOf(c, s, ListContainers(1, Cutoff(c, s.now)), s1) && StepOf(c, s1, ListNetworks(1), s2)
    requires check.CheckLabel? && StepOf(c, s2, check, s3)
    ensures s3.world == s.world
  {
  }

  /**
   * The bound on what attempts hold is exact too. Where every template with roles can be built, a run on which
   * nobody is ever late can come to a step that takes away a live resource if and only if, for some template,
   * n(T + 2 + 3d) plus commit and clean-up reaches the grace period.
   */
  lemma TakesLiveExactly(c: Config, p: Pace)
    requires c.quota > 0 && forall name :: name in c.templates && c.templates[name] != [] ==> Buildable(c, name)
    ensures CanTakeLive(c, p) <==> !HoldsWithinGrace(c, p)
  {
    if CanTakeLive(c, p) {
      var s, step, rid :| PromptlyReachable(c, p, s) && TakesLive(c, s, step, rid);
      Kept(c, p, s, step, rid);
    }
    if !HoldsWithinGrace(c, p) {
      var name :| name in c.templates && c.templates[name] != [] && HoldLimit(c, p, |c.templates[name]|) >= c.grace;
      OutOfGrace(c, p, name);
    }
  }

  lemma Kept(c: Config, p: Pace, s: State, step: Step, rid: ResId)
    requires PromptlyReachable(c, p, s) && TakesLive(c, s, step, rid)
    ensures !HoldsWithinGrace(c, p)
  {
    if HoldsWithinGrace(c, p) {
      var states, steps := OneStepOn(c, p, s, step, Apply(c, s, step));
      PromptRunsAreSafe(c, p, states, steps, |steps| - 1, rid);
      assert false;
    }
  }

  /** With the shipped timeouts and templates of two roles, both limits are the same two inequalities as in `ShippedFits`. */
  lemma ShippedExactly(p: Pace, templates: map<string, Template>)
    requires templates != map[] && forall name :: name in templates ==> |templates[name]| == 2 && Buildable(Shipped(templates), name)
    ensures var c := Shipped(templates);
            && (CanTakeLive(c, p) <==> 6 * p.call + p.commit + p.marking >= 656 * SECOND)
            && forall name :: name in templates ==>
                 (CanLoseRow(c, p, name) <==> 7 * p.call + p.commit + p.marking >= 656 * SECOND)
  {
    var c := Shipped(templates);
    ShippedFits(p, templates);
    TakesLiveExactly(c, p);
    forall name | name in templates
      ensures CanLoseRow(c, p, name) <==> 7 * p.call + p.commit + p.marking >= 656 * SECOND
    {
      LosesRowExactly(c, p, name);
      assert Limit(c, p, |c.templates[name]|) == Limit(c, p, 2);
    }
  }
}

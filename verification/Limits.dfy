/** What the service does not promise, shown by runs. */
module Limits {
  import opened Lifecycle
  import opened Worlds
  import opened Protocol
  import opened Invariants
  import opened Safety
  import opened Naming
  import opened Quota
  import Templates
  import opened Passes

  ghost predicate Reachable(c: Config, s: State) {
    exists states, steps :: Run(c, states, steps) && states[|steps|] == s
  }

  lemma Extend(c: Config, s: State, step: Step, s': State)
    requires Reachable(c, s) && StepOf(c, s, step, s')
    ensures Reachable(c, s')
  {
    var states, steps :| Run(c, states, steps) && states[|steps|] == s;
    var states', steps' := states + [s'], steps + [step];
    forall i | 0 <= i < |steps'|
      ensures StepAt(c, states', steps', i)
    {
      assert i < |steps| ==> StepAt(c, states, steps, i);
    }
    assert Run(c, states', steps') && states'[|steps'|] == s';
  }

  const EMPTY := State(0, map[], map[], {}, World(map[], map[]), map[], multiset{}, map[], multiset{}, multiset{})

  lemma StartsEmpty(c: Config)
    ensures Reachable(c, EMPTY)
  {
    var steps: seq<Step> := [];
    assert Run(c, [EMPTY], steps) && [EMPTY][|steps|] == EMPTY;
  }

  function FirstRow(): Row {
    NewRow("alice", "web", "web-app", 3600, 0)
  }

  function FailedOnce(): Row {
    FailWith(FirstRow(), Message("connection lost"), 0)
  }

  /** The first row failed and its retry is queued. */
  function RetryQueued(): State {
    EMPTY.(rows := map[0 := FailedOnce()], issued := {0}, bag := multiset{ProvisionMsg(0, 1)})
  }

  lemma FirstCreated(c: Config)
    requires c.quota > 0
    ensures Reachable(c, EMPTY.(rows := map[0 := FirstRow()], issued := {0}, bag := multiset{ProvisionMsg(0, 0)}))
  {
    StartsEmpty(c);
    assert ActiveOf(EMPTY.rows, "alice") == {} && ActiveNamed(EMPTY.rows, "alice", "web") == {};
    var s1 := EMPTY.(inserting := map[0 := FirstRow()], issued := {0}, bag := multiset{ProvisionMsg(0, 0)});
    Extend(c, EMPTY, CreateRequest(0, "alice", "web", "web-app", 3600), s1);
    var s2 := EMPTY.(rows := map[0 := FirstRow()], issued := {0}, bag := multiset{ProvisionMsg(0, 0)});
    Extend(c, s1, CreateCommit(0), s2);
  }

  function FirstTry(phase: Phase): Worker {
    Provision(Attempt(0, 0, phase, None, 0, [], 0, None, None, [], {}))
  }

  /** The first attempt under way, with nothing else queued. */
  function Trying(row: Row, phase: Phase): State {
    EMPTY.(rows := map[0 := row], issued := {0}, workers := map[0 := FirstTry(phase)])
  }

  lemma FirstRaises(c: Config)
    requires c.quota > 0
    ensures Reachable(c, Trying(FirstRow(), Raised(false)))
  {
    FirstCreated(c);
    var s2 := EMPTY.(rows := map[0 := FirstRow()], issued := {0}, bag := multiset{ProvisionMsg(0, 0)});
    Extend(c, s2, Deliver(0, ProvisionMsg(0, 0), true), Trying(FirstRow(), Loading));
    Extend(c, Trying(FirstRow(), Loading), Raise(0, false), Trying(FirstRow(), Raised(false)));
  }

  lemma FirstFails(c: Config)
    requires c.quota > 0
    ensures Reachable(c, RetryQueued())
  {
    FirstRaises(c);
    Marking();
    Extend(c, Trying(FirstRow(), Raised(false)), MarkFailed(0, true, "connection lost"), Trying(FailedOnce(), Marked(false)));
    Extend(c, Trying(FailedOnce(), Marked(false)), Unwind(0), RetryQueued());
  }

  lemma Marking()
    ensures DoMarkFailed(Trying(FirstRow(), Raised(false)), 0, true, "connection lost") == Trying(FailedOnce(), Marked(false))
    ensures DoUnwind(Trying(FailedOnce(), Marked(false)), 0) == RetryQueued()
  {
    assert Cut("connection lost") == "connection lost";
  }

  /** The ids below n. */
  function Ids(n: nat): set<EnvId> {
    set id: EnvId | id < n && Below(id, n)
  }

  predicate Below(id: EnvId, n: nat) {
    id < n
  }

  lemma {:induction false} HowMany(n: nat)
    ensures |Ids(n)| == n
  {
    if n > 0 {
      HowMany(n - 1);
      assert Ids(n) == Ids(n - 1) + {n - 1};
    }
  }

  /** Another name for each row. */
  function NameOf(id: EnvId): string {
    seq(id, i => 'x')
  }

  function RowOf(id: EnvId): Row {
    NewRow("alice", NameOf(id), "web-app", 3600, 0)
  }

  /** The first row has failed, with its retry queued, and the owner has k rows more. */
  predicate MoreCreated(s: State, k: nat) {
    && s.now == 0 && s.rows.Keys == s.issued == Ids(k + 1) && s.rows[0] == FailedOnce()
    && (forall id :: 0 < id <= k ==> s.rows[id] == RowOf(id))
    && s.workers == map[] && ProvisionMsg(0, 1) in s.bag && s.raced == multiset{}
  }

  lemma ActiveMore(s: State, k: nat)
    requires MoreCreated(s, k)
    ensures ActiveOf(s.rows, "alice") == Ids(k + 1) - {0} && |ActiveOf(s.rows, "alice")| == k
    ensures ActiveNamed(s.rows, "alice", NameOf(k + 1)) == {}
  {
    HowMany(k + 1);
    ActiveAre(s, k);
    assert |Ids(k + 1) - {0}| == k;
    OtherName(s, k);
  }

  lemma ActiveAre(s: State, k: nat)
    requires MoreCreated(s, k)
    ensures ActiveOf(s.rows, "alice") == Ids(k + 1) - {0}
  {
    forall id: EnvId
      ensures id in ActiveOf(s.rows, "alice") <==> id in Ids(k + 1) - {0}
    {
      if id in s.rows && id != 0 {
        assert 0 < id <= k;
      }
    }
  }

  lemma OtherName(s: State, k: nat)
    requires MoreCreated(s, k)
    ensures ActiveNamed(s.rows, "alice", NameOf(k + 1)) == {}
  {
    forall id | id in ActiveOf(s.rows, "alice")
      ensures s.rows[id].name != NameOf(k + 1)
    {
      assert 0 < id <= k;
      assert |s.rows[id].name| == id;
    }
  }

  lemma {:induction false} CreatesMore(c: Config, k: nat) returns (s: State)
    requires k <= c.quota && c.quota > 0
    ensures Reachable(c, s) && MoreCreated(s, k)
  {
    if k == 0 {
      FirstFails(c);
      s := RetryQueued();
    } else {
      s := CreatesMore(c, k - 1);
      s := OneMoreCreated(c, s, k - 1);
    }
  }

  /** A request has passed the guards. */
  function Asking(s: State, id: EnvId): State {
    Send(s.(issued := s.issued + {id}, inserting := s.inserting[id := RowOf(id)]), ProvisionMsg(id, 0))
  }

  lemma Asks(c: Config, s: State, id: EnvId)
    requires s.now == 0 && id !in s.issued && CreateAllowed(c, s.rows, "alice", NameOf(id))
    ensures StepOf(c, s, CreateRequest(id, "alice", NameOf(id), "web-app", 3600), Asking(s, id))
  {
  }

  lemma OneMoreCreated(c: Config, s: State, k: nat) returns (s': State)
    requires k < c.quota && Reachable(c, s) && MoreCreated(s, k)
    ensures Reachable(c, s') && MoreCreated(s', k + 1)
  {
    ActiveMore(s, k);
    Asks(c, s, k + 1);
    Extend(c, s, CreateRequest(k + 1, "alice", NameOf(k + 1), "web-app", 3600), Asking(s, k + 1));
    s' := DoCreateCommit(c, Asking(s, k + 1), k + 1);
    Commits(c, Asking(s, k + 1), k + 1);
    Extend(c, Asking(s, k + 1), CreateCommit(k + 1), s');
    OneMoreRow(c, s, k);
  }

  lemma Commits(c: Config, s: State, id: EnvId)
    requires id in s.inserting
    ensures StepOf(c, s, CreateCommit(id), DoCreateCommit(c, s, id))
  {
  }

  lemma OneMoreRow(c: Config, s: State, k: nat)
    requires MoreCreated(s, k) && CreateAllowed(c, s.rows, "alice", NameOf(k + 1))
    ensures MoreCreated(DoCreateCommit(c, Asking(s, k + 1), k + 1), k + 1)
  {
    assert Ids(k + 2) == Ids(k + 1) + {k + 1};
  }

  /**
   * The quota can be exceeded, whatever it is. A provision fails and is to be retried, the owner, with no active
   * row, creates as many as the quota allows, and then the retry makes the first row active again.
   */
  lemma QuotaCanBeExceeded(c: Config)
    requires c.quota > 0
    ensures exists s :: Reachable(c, s) && |ActiveOf(s.rows, "alice")| > c.quota && s.raced == multiset{}
  {
    var s := CreatesMore(c, c.quota);
    var s1 := SetWorker(s, 0, Start(s, ProvisionMsg(0, 1)));
    Redelivered(c, s, c.quota);
    Extend(c, s, Deliver(0, ProvisionMsg(0, 1), false), s1);
    var s2 := DoProvisionLoad(c, s1, 0);
    Extend(c, s1, ProvisionLoad(0), s2);
    AllActive(s2.rows, c.quota + 1);
  }

  /** The retry is delivered, and finds the row it failed. */
  lemma Redelivered(c: Config, s: State, k: nat)
    requires MoreCreated(s, k)
    ensures var s1 := SetWorker(s, 0, Start(s, ProvisionMsg(0, 1)));
            && StepOf(c, s, Deliver(0, ProvisionMsg(0, 1), false), s1)
            && ProvisionAt(s1, 0, Loading) && s1.workers[0].attempt.env == 0 && s1.rows == s.rows
            && StepOf(c, s1, ProvisionLoad(0), DoProvisionLoad(c, s1, 0))
            && DoProvisionLoad(c, s1, 0).rows == s.rows[0 := SetStatus(FailedOnce(), Provisioning, 0)]
            && DoProvisionLoad(c, s1, 0).raced == s.raced
  {
  }

  lemma AllActive(rows: Table, n: nat)
    requires rows.Keys == Ids(n) && forall id :: id in rows ==> rows[id].owner == "alice" && !Terminal(rows[id].status)
    ensures |ActiveOf(rows, "alice")| == n
  {
    HowMany(n);
    assert ActiveOf(rows, "alice") == Ids(n);
  }

  lemma BothActive(rows: Table)
    requires rows.Keys == {0, 1} && forall id :: id in rows ==> rows[id].owner == "alice" && !Terminal(rows[id].status)
    ensures |ActiveOf(rows, "alice")| == 2
  {
    assert ActiveOf(rows, "alice") == {0, 1};
  }

  /** Of n requests that have passed the guards, the first k have committed. */
  predicate Racing(s: State, n: nat, k: nat) {
    && k <= n && s.now == 0 && s.issued == Ids(n) && s.rows.Keys == Ids(k) && s.inserting.Keys == Ids(n) - Ids(k)
    && (forall id :: id in s.rows ==> s.rows[id] == RowOf(id))
    && (forall id :: id in s.inserting ==> s.inserting[id] == RowOf(id))
    && s.revived == multiset{}
  }

  /** With no row in the table, any number of requests pass the guards. */
  lemma {:induction false} AllRequested(c: Config, n: nat) returns (s: State)
    requires c.quota > 0
    ensures Reachable(c, s) && Racing(s, n, 0)
  {
    if n == 0 {
      StartsEmpty(c);
      s := EMPTY;
    } else {
      var before := AllRequested(c, n - 1);
      assert ActiveOf(before.rows, "alice") == {} && ActiveNamed(before.rows, "alice", NameOf(n - 1)) == {};
      Asks(c, before, n - 1);
      s := Asking(before, n - 1);
      Extend(c, before, CreateRequest(n - 1, "alice", NameOf(n - 1), "web-app", 3600), s);
      OneMoreAsked(before, n - 1);
    }
  }

  lemma OneMoreAsked(s: State, n: nat)
    requires Racing(s, n, 0)
    ensures Racing(Asking(s, n), n + 1, 0)
  {
    assert Ids(n + 1) == Ids(n) + {n};
  }

  /** And then they all commit. */
  lemma {:induction false} AllCommitted(c: Config, n: nat, k: nat) returns (s: State)
    requires c.quota > 0 && k <= n
    ensures Reachable(c, s) && Racing(s, n, k)
  {
    if k == 0 {
      s := AllRequested(c, n);
    } else {
      var before := AllCommitted(c, n, k - 1);
      s := DoCreateCommit(c, before, k - 1);
      Commits(c, before, k - 1);
      Extend(c, before, CreateCommit(k - 1), s);
      OneMoreCommitted(c, before, n, k - 1);
    }
  }

  lemma OneMoreCommitted(c: Config, s: State, n: nat, k: nat)
    requires k < n && Racing(s, n, k)
    ensures Racing(DoCreateCommit(c, s, k), n, k + 1)
  {
    assert Ids(k + 1) == Ids(k) + {k};
    assert Ids(n) - Ids(k + 1) == Ids(n) - Ids(k) - {k};
  }

  /** So it can by requests at once: they all pass the guards, and then all commit, as many as one likes. */
  lemma RequestsCanRace(c: Config, n: nat)
    requires c.quota > 0
    ensures exists s :: Reachable(c, s) && |ActiveOf(s.rows, "alice")| == n && s.revived == multiset{}
  {
    var s := AllCommitted(c, n, n);
    AllActive(s.rows, n);
  }

  function TwoAlike(): State {
    EMPTY.(inserting := map[0 := FirstRow(), 1 := FirstRow()], issued := {0, 1},
           bag := multiset{ProvisionMsg(0, 0), ProvisionMsg(1, 0)})
  }

  /** Two rows, both active, with one owner and one name. */
  predicate TwoOfOneName(s: State) {
    s.rows == map[0 := FirstRow(), 1 := FirstRow()]
  }

  lemma TwoAlikeRequested(c: Config)
    requires c.quota > 0
    ensures Reachable(c, TwoAlike())
  {
    StartsEmpty(c);
    assert ActiveOf(EMPTY.rows, "alice") == {} && ActiveNamed(EMPTY.rows, "alice", "web") == {};
    var s1 := EMPTY.(inserting := map[0 := FirstRow()], issued := {0}, bag := multiset{ProvisionMsg(0, 0)});
    Extend(c, EMPTY, CreateRequest(0, "alice", "web", "web-app", 3600), s1);
    Extend(c, s1, CreateRequest(1, "alice", "web", "web-app", 3600), TwoAlike());
  }

  /** Two requests at once can share a name, whatever the quota, and within it if that is two or more. */
  lemma NamesCanBeShared(c: Config)
    requires c.quota > 0
    ensures exists s :: Reachable(c, s) && TwoOfOneName(s) && s.revived == multiset{}
  {
    TwoAlikeRequested(c);
    var s3 := DoCreateCommit(c, TwoAlike(), 0);
    Extend(c, TwoAlike(), CreateCommit(0), s3);
    var s4 := DoCreateCommit(c, s3, 1);
    Extend(c, s3, CreateCommit(1), s4);
    assert TwoOfOneName(s4);
  }

  /** They do share it, and are two. */
  lemma TwoShareAName(s: State)
    requires TwoOfOneName(s)
    ensures !NamesDistinct(s.rows, "alice") && |ActiveOf(s.rows, "alice")| == 2
  {
    BothActive(s.rows);
    assert 0 in ActiveOf(s.rows, "alice") && 1 in ActiveOf(s.rows, "alice");
  }

  // ---- A stack of one role -------------------------------------------------

  /** The template of the first row has one role. */
  predicate OneRole(c: Config, role: Spec) {
    c.quota > 0 && role.resolvable && "web-app" in c.templates && c.templates["web-app"] == [role]
  }

  lemma OrderOfOne(c: Config, role: Spec)
    requires OneRole(c, role)
    ensures OrderOf(c, "web-app") == [role]
  {
    assert [role][1..] == [];
    assert Templates.Pick([role], role.dependsOn.Some?) == [role] && Templates.Pick([role], !role.dependsOn.Some?) == [];
  }

  function AtWork(role: Spec): Attempt {
    Attempt(0, 0, Working, Some(0), 0, [role], 0, None, None, [], {})
  }

  function WithNetwork(role: Spec): Attempt {
    AtWork(role).(network := Some(0), firstMade := Some(0), made := {0})
  }

  function WithContainer(role: Spec): Attempt {
    WithNetwork(role).(containers := [1], made := {0, 1})
  }

  function TheNetwork(): Network {
    Network(NetworkName(0), Some(Canonical(0)), Some(0))
  }

  function TheContainer(role: Spec): Container {
    Container(ContainerName(0, role.role), Some(Canonical(0)), role.role, Some(0), Some(0))
  }

  function TheStack(role: Spec): World {
    World(map[1 := TheContainer(role)], map[0 := TheNetwork()])
  }

  function TheBirths(): map<ResId, Birth> {
    map[0 := Birth(Some(Canonical(0)), Some(0)), 1 := Birth(Some(Canonical(0)), Some(0))]
  }

  /** The attempt has its network and its one container, at time zero. */
  function Standing(role: Spec): State {
    EMPTY.(rows := map[0 := SetStatus(FirstRow(), Provisioning, 0)], issued := {0}, world := TheStack(role),
           born := TheBirths(), workers := map[0 := Provision(WithContainer(role))])
  }

  function Loaded(role: Spec): State {
    EMPTY.(rows := map[0 := SetStatus(FirstRow(), Provisioning, 0)], issued := {0}, workers := map[0 := Provision(AtWork(role))])
  }

  function Networked(role: Spec): State {
    Loaded(role).(world := World(map[], map[0 := TheNetwork()]), born := map[0 := Birth(Some(Canonical(0)), Some(0))],
                  workers := map[0 := Provision(WithNetwork(role))])
  }

  lemma RowLoaded(c: Config, role: Spec)
    requires OneRole(c, role)
    ensures Reachable(c, Loaded(role))
  {
    FirstCreated(c);
    OrderOfOne(c, role);
    var s2 := EMPTY.(rows := map[0 := FirstRow()], issued := {0}, bag := multiset{ProvisionMsg(0, 0)});
    Extend(c, s2, Deliver(0, ProvisionMsg(0, 0), true), Trying(FirstRow(), Loading));
    assert DoProvisionLoad(c, Trying(FirstRow(), Loading), 0) == Loaded(role);
    Extend(c, Trying(FirstRow(), Loading), ProvisionLoad(0), Loaded(role));
  }

  lemma NetworkMade(role: Spec)
    ensures DoProvisionNetwork(Loaded(role), 0, 0, true) == Networked(role)
  {
    var s, s' := DoProvisionNetwork(Loaded(role), 0, 0, true), Networked(role);
    assert s.world.networks == s'.world.networks && s.born == s'.born;
    assert AtWork(role).made + {0} == {0};
    assert s.workers[0] == s'.workers[0] && s.workers == s'.workers;
  }

  lemma ContainerMade(role: Spec)
    ensures DoProvisionContainer(Networked(role), 0, 1, true) == Standing(role)
  {
    var s, s' := DoProvisionContainer(Networked(role), 0, 1, true), Standing(role);
    assert s.world.containers == s'.world.containers && s.born == s'.born;
    assert WithNetwork(role).made + {1} == {0, 1} && WithNetwork(role).containers + [1] == [1];
    assert s.workers[0] == s'.workers[0] && s.workers == s'.workers;
  }

  lemma StackStands(c: Config, role: Spec)
    requires OneRole(c, role)
    ensures Reachable(c, Standing(role))
  {
    RowLoaded(c, role);
    NetworkMade(role);
    Extend(c, Loaded(role), ProvisionNetwork(0, 0, true), Networked(role));
    ContainerMade(role);
    Extend(c, Networked(role), ProvisionContainer(0, 1, true), Standing(role));
  }

  // ---- A live container lost -----------------------------------------------

  /** Late enough for the row to be stale and for the container to be a grace period old. */
  function TooLate(c: Config): nat {
    c.grace + c.provisioningTimeout
  }

  function Given(c: Config, role: Spec): State {
    Standing(role).(now := TooLate(c), rows := RecoverRows(c, Standing(role).rows, TooLate(c)))
  }

  /** The row has been failed over the head of an attempt that is still at work. */
  lemma GivenUp(c: Config, role: Spec)
    requires OneRole(c, role)
    ensures Reachable(c, Given(c, role)) && Overdue(c, Given(c, role), 1) && 1 in MadeBy(Given(c, role).workers[0])
  {
    StackStands(c, role);
    var late := Standing(role).(now := TooLate(c));
    Extend(c, Standing(role), Tick(TooLate(c)), late);
    Extend(c, late, Recover, Given(c, role));
    assert Stale(c, late.rows[0], TooLate(c));
  }

  /**
   * A live attempt can lose a container. If it is still at work when both its timeout and the grace period are
   * over, a recover fails its row, and then a pass takes the container from under it.
   */
  lemma LiveContainerCanBeLost(c: Config, role: Spec)
    requires OneRole(c, role)
    ensures exists s, step :: Reachable(c, s) && LosesLive(c, s, step, 1)
  {
    GivenUp(c, role);
    var s := Given(c, role);
    BirthsHold(c, s);
    var s1, s2, s3, check, s4 := OverdueCanBeSwept(c, s, 1, 1);
    Extend(c, s, ListContainers(1, Cutoff(c, s.now)), s1);
    Extend(c, s1, ListNetworks(1), s2);
    Extend(c, s2, check, s3);
    assert LosesLive(c, s3, RemoveNext(1, true), 1);
  }

  ghost predicate LosesLive(c: Config, s: State, step: Step, rid: ResId) {
    Enabled(c, s, step) && rid in s.world.containers && Live(s, rid) && rid !in Apply(c, s, step).world.containers
  }

  lemma BirthsHold(c: Config, s: State)
    requires Reachable(c, s)
    ensures BirthsOk(s)
  {
    var states: seq<State>, steps: seq<Step> :| Run(c, states, steps) && states[|steps|] == s;
    InvAt(c, states, steps, |steps|);
  }

  // ---- Stopped, and still there --------------------------------------------

  function Up(): Row {
    Launched(SetStatus(FirstRow(), Provisioning, 0), 0, [1], 8080, 0)
  }

  /** The stack runs; whatever else is the case is in the bag and the workers. */
  function Serving(role: Spec, row: Row, bag: multiset<Message>, workers: map<TaskId, Worker>): State {
    EMPTY.(rows := map[0 := row], issued := {0}, world := TheStack(role), born := TheBirths(), bag := bag, workers := workers)
  }

  lemma StackRuns(c: Config, role: Spec)
    requires OneRole(c, role)
    ensures Reachable(c, Serving(role, Up(), multiset{}, map[]))
  {
    var ready := Standing(role).(workers := map[0 := Provision(WithContainer(role).(ready := 1))]);
    StackReady(c, role, ready);
    LaunchedUp(role, ready);
    Extend(c, ready, ProvisionCommit(0, 8080, false), Serving(role, Up(), multiset{}, map[]));
  }

  lemma StackReady(c: Config, role: Spec, ready: State)
    requires OneRole(c, role)
    requires ready == Standing(role).(workers := map[0 := Provision(WithContainer(role).(ready := 1))])
    ensures Reachable(c, ready)
  {
    StackStands(c, role);
    assert DoRoleReady(Standing(role), 0) == ready;
    Extend(c, Standing(role), RoleReady(0), ready);
  }

  lemma LaunchedUp(role: Spec, ready: State)
    requires ready == Standing(role).(workers := map[0 := Provision(WithContainer(role).(ready := 1))])
    ensures DoProvisionCommit(ready, 0, 8080, false) == Serving(role, Up(), multiset{}, map[])
  {
    var s := DoProvisionCommit(ready, 0, 8080, false);
    assert s.workers == map[] && s.rows == map[0 := Up()];
  }

  function Tearing(phase: Phase, queue: Queue): map<TaskId, Worker> {
    map[0 := Teardown(Removal(0, 0, phase, queue))]
  }

  lemma TeardownStarts(c: Config, role: Spec)
    requires OneRole(c, role)
    ensures Reachable(c, Serving(role, SetStatus(Up(), Stopping, 0), multiset{}, Tearing(Working, Queue([1], [0]))))
  {
    StackRuns(c, role);
    var queued := Serving(role, Up(), multiset{TeardownMsg(0, 0)}, map[]);
    Extend(c, Serving(role, Up(), multiset{}, map[]), DeleteRequest(0, "alice"), queued);
    var loading := Serving(role, Up(), multiset{}, Tearing(Loading, NOTHING));
    Extend(c, queued, Deliver(0, TeardownMsg(0, 0), true), loading);
    var working := Serving(role, SetStatus(Up(), Stopping, 0), multiset{}, Tearing(Working, Queue([1], [0])));
    assert DoTeardownLoad(loading, 0) == working;
    Extend(c, loading, TeardownLoad(0), working);
  }

  /**
   * STOPPED says nothing about Docker: if it refuses every removal, the row ends STOPPED, without an error, and its
   * container and its network are still there.
   */
  lemma StoppedAndStillThere(c: Config, role: Spec)
    requires OneRole(c, role)
    ensures exists s :: Reachable(c, s) && StillThere(s)
  {
    AllRefused(c, role);
    var row := SetStatus(Up(), Stopping, 0);
    var s3 := Serving(role, row, multiset{}, Tearing(Working, NOTHING));
    var s4 := Serving(role, Stop(row, 0), multiset{}, map[]);
    assert DoTeardownCommit(s3, 0) == s4;
    Extend(c, s3, TeardownCommit(0), s4);
    assert StillThere(s4);
  }

  /** A quiet state with a stopped row that has both its resources. */
  predicate StillThere(s: State) {
    && s.workers == map[] && s.bag == multiset{}
    && 0 in s.rows && s.rows[0].status == Stopped && s.rows[0].error == None
    && Recorded(s.rows[0]) == {0, 1} && 1 in s.world.containers && 0 in s.world.networks
  }

  lemma AllRefused(c: Config, role: Spec)
    requires OneRole(c, role)
    ensures Reachable(c, Serving(role, SetStatus(Up(), Stopping, 0), multiset{}, Tearing(Working, NOTHING)))
  {
    TeardownStarts(c, role);
    var row := SetStatus(Up(), Stopping, 0);
    var s1 := Serving(role, row, multiset{}, Tearing(Working, Queue([1], [0])));
    var s2 := Serving(role, row, multiset{}, Tearing(Working, Queue([], [0])));
    var s3 := Serving(role, row, multiset{}, Tearing(Working, NOTHING));
    Refused(role, row);
    Extend(c, s1, RemoveNext(0, false), s2);
    Extend(c, s2, RemoveNext(0, false), s3);
  }

  lemma Refused(role: Spec, row: Row)
    ensures var s := Serving(role, row, multiset{}, Tearing(Working, Queue([1], [0])));
            DoRemoveNext(s, 0, false) == Serving(role, row, multiset{}, Tearing(Working, Queue([], [0])))
    ensures var s := Serving(role, row, multiset{}, Tearing(Working, Queue([], [0])));
            DoRemoveNext(s, 0, false) == Serving(role, row, multiset{}, Tearing(Working, NOTHING))
  {
    assert [1][1..] == [] && [0][1..] == [];
  }
}

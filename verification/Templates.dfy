/** Container specs, and the order in which a provision starts them. */
module Templates {
  import opened Lifecycle

  predicate Exposes(s: Spec) {
    s.exposePort.Some? && s.exposePort.value != 0
  }

  function Pick(t: Template, dependent: bool): Template {
    if t == [] then []
    else if t[0].dependsOn.Some? == dependent then [t[0]] + Pick(t[1..], dependent)
    else Pick(t[1..], dependent)
  }

  /** `sorted` on a two-valued key: stable, the specs without a dependency first. */
  function StartOrder(t: Template): Template {
    Pick(t, false) + Pick(t, true)
  }

  datatype Event = Started(role: string) | Ready(role: string)

  /** One role at a time: started, then waited for. */
  function StartTrace(t: Template): seq<Event> {
    if t == [] then [] else StartTrace(t[..|t| - 1]) + [Started(t[|t| - 1].role), Ready(t[|t| - 1].role)]
  }

  lemma {:induction false} PickKeepsAll(t: Template)
    ensures multiset(StartOrder(t)) == multiset(t)
    ensures |StartOrder(t)| == |t|
  {
    if t != [] {
      PickKeepsAll(t[1..]);
      assert t == [t[0]] + t[1..];
      assert multiset(StartOrder(t)) == multiset(Pick(t, false)) + multiset(Pick(t, true));
      assert multiset(StartOrder(t[1..])) == multiset(Pick(t[1..], false)) + multiset(Pick(t[1..], true));
    }
  }

  /** Position i of the picked list comes from a position of the template, and later ones from later ones. */
  lemma {:induction false} PickStable(t: Template, dependent: bool, i: nat, j: nat) returns (a: nat, b: nat)
    requires i < j < |Pick(t, dependent)|
    ensures a < b < |t| && t[a] == Pick(t, dependent)[i] && t[b] == Pick(t, dependent)[j]
  {
    if t[0].dependsOn.Some? == dependent {
      if i == 0 {
        a := 0;
        b := Origin(t[1..], dependent, j - 1);
        b := b + 1;
      } else {
        a, b := PickStable(t[1..], dependent, i - 1, j - 1);
        a, b := a + 1, b + 1;
      }
    } else {
      a, b := PickStable(t[1..], dependent, i, j);
      a, b := a + 1, b + 1;
    }
  }

  lemma {:induction false} Origin(t: Template, dependent: bool, i: nat) returns (a: nat)
    requires i < |Pick(t, dependent)|
    ensures a < |t| && t[a] == Pick(t, dependent)[i] && t[a].dependsOn.Some? == dependent
  {
    if t[0].dependsOn.Some? == dependent && i == 0 {
      a := 0;
    } else {
      a := Origin(t[1..], dependent, if t[0].dependsOn.Some? == dependent then i - 1 else i);
      a := a + 1;
    }
  }

  lemma {:induction false} Picked(t: Template, a: nat) returns (i: nat)
    requires a < |t|
    ensures i < |Pick(t, t[a].dependsOn.Some?)| && Pick(t, t[a].dependsOn.Some?)[i] == t[a]
  {
    if a == 0 {
      i := 0;
    } else {
      i := Picked(t[1..], a - 1);
      if t[0].dependsOn.Some? == t[a].dependsOn.Some? {
        i := i + 1;
      }
    }
  }

  /** Where a spec of the start order comes from. */
  lemma OrderOrigin(t: Template, i: nat) returns (a: nat)
    requires i < |StartOrder(t)|
    ensures a < |t| && t[a] == StartOrder(t)[i]
  {
    var free := |Pick(t, false)|;
    if i < free {
      a := Origin(t, false, i);
    } else {
      a := Origin(t, true, i - free);
    }
  }

  lemma StartOrderDistinct(t: Template)
    requires DistinctRoles(t)
    ensures DistinctRoles(StartOrder(t))
  {
    var free := |Pick(t, false)|;
    forall i: nat, j: nat | i < j < |StartOrder(t)|
      ensures StartOrder(t)[i].role != StartOrder(t)[j].role
    {
      if j < free {
        var a, b := PickStable(t, false, i, j);
      } else if i >= free {
        var a, b := PickStable(t, true, i - free, j - free);
      } else {
        var a := Origin(t, false, i);
        var b := Origin(t, true, j - free);
        assert a != b;
      }
    }
  }

  predicate DistinctRoles(t: Template) {
    forall a, b :: 0 <= a < b < |t| ==> t[a].role != t[b].role
  }

  /** Every dependency is itself free of dependencies, or listed before the spec that names it. */
  predicate Resolvable(t: Template) {
    forall b :: 0 <= b < |t| && t[b].dependsOn.Some? ==> DependencyPlaced(t, b)
  }

  predicate DependencyPlaced(t: Template, b: nat)
    requires b < |t| && t[b].dependsOn.Some?
  {
    exists a :: 0 <= a < |t| && t[a].role == t[b].dependsOn.value && (t[a].dependsOn.None? || a < b)
  }

  /** In this order every spec comes after the role it depends on. */
  predicate DependenciesFirst(order: Template) {
    forall j :: 0 <= j < |order| && order[j].dependsOn.Some? ==> DependencyBefore(order, j)
  }

  predicate DependencyBefore(order: Template, j: nat)
    requires j < |order| && order[j].dependsOn.Some?
  {
    exists i :: 0 <= i < j && order[i].role == order[j].dependsOn.value
  }

  /** Where a picked spec comes from, with every earlier spec of its class picked before it. */
  lemma {:induction false} OriginAfterEarlier(t: Template, dependent: bool, i: nat) returns (a: nat)
    requires i < |Pick(t, dependent)|
    ensures a < |t| && t[a] == Pick(t, dependent)[i] && t[a].dependsOn.Some? == dependent
    ensures forall c :: 0 <= c < a && t[c].dependsOn.Some? == dependent ==> PickedBefore(t, dependent, c, i)
  {
    var head := t[0].dependsOn.Some? == dependent;
    if head && i == 0 {
      a := 0;
    } else {
      var k := if head then i - 1 else i;
      var a' := OriginAfterEarlier(t[1..], dependent, k);
      a := a' + 1;
      forall c | 0 <= c < a && t[c].dependsOn.Some? == dependent
        ensures PickedBefore(t, dependent, c, i)
      {
        if c == 0 {
          assert Pick(t, dependent)[0] == t[0];
        } else {
          assert PickedBefore(t[1..], dependent, c - 1, k);
          var m :| 0 <= m < k && Pick(t[1..], dependent)[m] == t[1..][c - 1];
          assert Pick(t, dependent)[if head then m + 1 else m] == t[c];
        }
      }
    }
  }

  predicate PickedBefore(t: Template, dependent: bool, c: nat, i: nat)
    requires c < |t| && i <= |Pick(t, dependent)|
  {
    exists k :: 0 <= k < i && Pick(t, dependent)[k] == t[c]
  }

  lemma PlacedIsStartedFirst(t: Template, j: nat)
    requires Resolvable(t) && j < |StartOrder(t)| && StartOrder(t)[j].dependsOn.Some?
    ensures DependencyBefore(StartOrder(t), j)
  {
    var free, bound := Pick(t, false), Pick(t, true);
    if j < |free| {
      var a := Origin(t, false, j);
      assert false;
    }
    var b := OriginAfterEarlier(t, true, j - |free|);
    assert DependencyPlaced(t, b);
    var a :| 0 <= a < |t| && t[a].role == t[b].dependsOn.value && (t[a].dependsOn.None? || a < b);
    if t[a].dependsOn.None? {
      var i := Picked(t, a);
      assert StartOrder(t)[i] == t[a];
    } else {
      assert PickedBefore(t, true, a, j - |free|);
      var i :| 0 <= i < j - |free| && bound[i] == t[a];
      assert StartOrder(t)[|free| + i] == t[a];
    }
  }

  lemma StartedFirstIsPlaced(t: Template, b: nat)
    requires DistinctRoles(t) && DependenciesFirst(StartOrder(t)) && b < |t| && t[b].dependsOn.Some?
    ensures DependencyPlaced(t, b)
  {
    var free, bound := Pick(t, false), Pick(t, true);
    var k := Picked(t, b);
    var j := |free| + k;
    assert StartOrder(t)[j] == t[b];
    assert DependencyBefore(StartOrder(t), j);
    var i :| 0 <= i < j && StartOrder(t)[i].role == t[b].dependsOn.value;
    if i < |free| {
      var a := Origin(t, false, i);
    } else {
      var a, b' := PickStable(t, true, i - |free|, k);
      assert t[b'].role == t[b].role;
      assert b' == b;
    }
  }

  /**
   * The start order puts every dependency first if each is dependency-free or listed earlier; and only then, as
   * long as no role is listed twice.
   */
  lemma OrderIsRightExactly(t: Template)
    ensures Resolvable(t) ==> DependenciesFirst(StartOrder(t))
    ensures DistinctRoles(t) && DependenciesFirst(StartOrder(t)) ==> Resolvable(t)
  {
    if Resolvable(t) {
      forall j: nat | j < |StartOrder(t)| && StartOrder(t)[j].dependsOn.Some?
        ensures DependencyBefore(StartOrder(t), j)
      {
        PlacedIsStartedFirst(t, j);
      }
    }
    if DistinctRoles(t) && DependenciesFirst(StartOrder(t)) {
      forall b: nat | b < |t| && t[b].dependsOn.Some?
        ensures DependencyPlaced(t, b)
      {
        StartedFirstIsPlaced(t, b);
      }
    }
  }

  lemma {:induction false} TraceAt(t: Template, j: nat)
    requires j < |t|
    ensures |StartTrace(t)| == 2 * |t|
    ensures StartTrace(t)[2 * j] == Started(t[j].role) && StartTrace(t)[2 * j + 1] == Ready(t[j].role)
  {
    var n := |t| - 1;
    if n == 0 {
      assert t[..0] == [];
    } else {
      TraceAt(t[..n], if j < n then j else 0);
    }
  }

  /**
   * In the trace of a provision a role starts only after the wait for the role it depends on has returned:
   * for every spec, if each dependency is dependency-free or listed earlier, and with distinct roles only then.
   */
  lemma DependencyReadyExactly(t: Template)
    ensures Resolvable(t) ==> ReadyFirst(StartOrder(t))
    ensures DistinctRoles(t) && ReadyFirst(StartOrder(t)) ==> Resolvable(t)
  {
    OrderIsRightExactly(t);
    var order := StartOrder(t);
    forall j: nat | j < |order| && order[j].dependsOn.Some?
      ensures DependencyBefore(order, j) <==> ReadyBefore(StartTrace(order), 2 * j, order[j].dependsOn.value)
    {
      BeforeIsReady(order, j);
    }
  }

  /** Event 2 * j of the trace is the start of the role in position j. */
  predicate ReadyFirst(order: Template) {
    forall j :: 0 <= j < |order| && order[j].dependsOn.Some? ==>
      ReadyBefore(StartTrace(order), 2 * j, order[j].dependsOn.value)
  }

  predicate ReadyBefore(trace: seq<Event>, k: nat, role: string) {
    exists i :: 0 <= i < k && i < |trace| && trace[i] == Ready(role)
  }

  lemma BeforeIsReady(order: Template, j: nat)
    requires j < |order| && order[j].dependsOn.Some?
    ensures DependencyBefore(order, j) <==> ReadyBefore(StartTrace(order), 2 * j, order[j].dependsOn.value)
  {
    var role := order[j].dependsOn.value;
    TraceAt(order, j);
    forall i: nat | i < j
      ensures StartTrace(order)[2 * i] == Started(order[i].role)
      ensures StartTrace(order)[2 * i + 1] == Ready(order[i].role)
    {
      TraceAt(order, i);
    }
    if ReadyBefore(StartTrace(order), 2 * j, role) {
      var i := ReadyComesFrom(order, j, role);
    }
  }

  lemma ReadyComesFrom(order: Template, j: nat, role: string) returns (i: nat)
    requires j < |order| && ReadyBefore(StartTrace(order), 2 * j, role)
    ensures i < j && order[i].role == role
  {
    var k :| 0 <= k < 2 * j && k < |StartTrace(order)| && StartTrace(order)[k] == Ready(role);
    i := k / 2;
    TraceAt(order, i);
  }
}

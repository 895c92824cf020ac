/**
 Whether the DNS service may use topology-aware hints
 (pkg/operator/controller/controller_dns_service.go), and which node events make
 the controller look again (pkg/operator/controller/controller.go).
 */
module TopologyHints {
  import opened Wrappers
  import opened Kube

  const ZONE := "topology.kubernetes.io/zone"
  const CONTROL_PLANE := "node-role.kubernetes.io/control-plane"
  const MASTER := "node-role.kubernetes.io/master"

  datatype NodeCondition = NodeCondition(kind: string, status: string)

  /** `hasCpu`: the allocatable CPU is not zero. */
  datatype Machine = Machine(labels: Labels, conditions: seq<NodeCondition>, hasCpu: bool)

  /** The first Ready condition decides. */
  function Ready(cs: seq<NodeCondition>): bool {
    if cs == [] then false
    else if cs[0].kind == "Ready" then cs[0].status == "True"
    else Ready(cs[1..])
  }

  method NodeIsReady(cs: seq<NodeCondition>) returns (ready: bool)
    ensures ready == Ready(cs)
  {
    for i := 0 to |cs|
      invariant Ready(cs) == Ready(cs[i..])
    {
      if cs[i].kind == "Ready" {
        return cs[i].status == "True";
      }
    }
    return false;
  }

  predicate Ignored(m: Machine) {
    CONTROL_PLANE in m.labels || MASTER in m.labels || !Ready(m.conditions)
  }

  function Zone(m: Machine): string {
    if ZONE in m.labels then m.labels[ZONE] else ""
  }

  predicate ValidForHints(m: Machine) {
    m.hasCpu && Zone(m) != ""
  }

  // ---------------------------------------------------------------------
  // The decision
  // ---------------------------------------------------------------------

  predicate AllValid(ms: set<Machine>) {
    forall m :: m in ms && !Ignored(m) ==> ValidForHints(m)
  }

  function Zones(ms: set<Machine>): set<string> {
    set m | m in ms && !Ignored(m) :: Zone(m)
  }

  /** Every machine that counts is valid, and they span at least two zones. */
  predicate Hints(ms: set<Machine>) {
    AllValid(ms) && |Zones(ms)| >= 2
  }

  function Members(nodes: seq<Machine>): set<Machine> {
    set m | m in nodes
  }

  /** The scan of the listed nodes. */
  method ScanNodes(nodes: seq<Machine>) returns (enable: bool)
    ensures enable == Hints(Members(nodes))
  {
    var zones: set<string> := {};
    for i := 0 to |nodes|
      invariant zones == Zones(Members(nodes[..i]))
      invariant AllValid(Members(nodes[..i]))
    {
      var m := nodes[i];
      assert Members(nodes[..i + 1]) == Members(nodes[..i]) + {m};
      var ready := NodeIsReady(m.conditions);
      if CONTROL_PLANE in m.labels || MASTER in m.labels || !ready {
        assert Zones(Members(nodes[..i + 1])) == Zones(Members(nodes[..i]));
        continue;
      }
      if !ValidForHints(m) {
        assert m in Members(nodes);
        return false;
      }
      zones := zones + {Zone(m)};
      assert Zones(Members(nodes[..i + 1])) == Zones(Members(nodes[..i])) + {Zone(m)};
    }
    assert nodes[..|nodes|] == nodes;
    return |zones| >= 2;
  }

  /** The nodes may fail to be listed; otherwise the answer depends only on which machines there are. */
  method ShouldEnableTopologyAwareHints(listed: Option<seq<Machine>>) returns (enable: bool, failed: bool)
    ensures failed <==> listed.None?
    ensures enable <==> listed.Some? && Hints(Members(listed.value))
  {
    if listed.None? {
      return false, true;
    }
    enable := ScanNodes(listed.value);
    failed := false;
  }

  lemma OrderDoesNotMatter(a: seq<Machine>, b: seq<Machine>)
    requires multiset(a) == multiset(b)
    ensures Hints(Members(a)) == Hints(Members(b))
  {
    forall m
      ensures m in a <==> m in b
    {
      assert m in a <==> m in multiset(a);
      assert m in b <==> m in multiset(b);
    }
    assert Members(a) == Members(b);
  }

  // ---------------------------------------------------------------------
  // Node events
  // ---------------------------------------------------------------------

  type Cluster = map<string, Machine>

  datatype Event =
    | Created(name: string, node: Machine)
    | Removed(name: string)
    | Updated(name: string, node: Machine)

  /** The event can happen: names are free when created, taken when removed or updated. */
  predicate Fits(c: Cluster, e: Event) {
    e.Created? <==> e.name !in c
  }

  function Apply(c: Cluster, e: Event): Cluster {
    match e
    case Created(n, m) => c[n := m]
    case Removed(n) => c - {n}
    case Updated(n, m) => c[n := m]
  }

  /** The watch predicates: whether the event leads to a pass. */
  predicate Passes(c: Cluster, e: Event)
    requires Fits(c, e)
  {
    match e
    case Created(_, m) => !Ignored(m)
    case Removed(n) => !Ignored(c[n])
    case Updated(n, m) =>
      || Ignored(c[n]) != Ignored(m)
      || (!Ignored(m) && ValidForHints(c[n]) != ValidForHints(m))
  }

  predicate Decision(c: Cluster) {
    Hints(c.Values)
  }

  /** The machines under every name but one. */
  function Others(c: Cluster, name: string): set<Machine> {
    (c - {name}).Values
  }

  lemma SplitCluster(c: Cluster, name: string)
    requires name in c
    ensures c.Values == Others(c, name) + {c[name]}
  {
    var d := c - {name};
    forall m
      ensures m in c.Values <==> m in d.Values + {c[name]}
    {
      if m in c.Values {
        var k :| k in c && c[k] == m;
        if k != name {
          assert k in d && d[k] == m;
        }
      }
      if m in d.Values {
        var k :| k in d && d[k] == m;
        assert k in c;
      }
    }
  }

  lemma ZonesWith(ms: set<Machine>, m: Machine)
    ensures Zones(ms + {m}) == Zones(ms) + if Ignored(m) then {} else {Zone(m)}
    ensures AllValid(ms + {m}) <==> AllValid(ms) && (Ignored(m) || ValidForHints(m))
  {
    assert m in ms + {m};
  }

  /** The decision, seen from one machine and all the others. */
  lemma DecisionWith(c: Cluster, name: string)
    requires name in c
    ensures var os, m := Others(c, name), c[name];
      Decision(c) <==>
        if Ignored(m) then Hints(os) else AllValid(os) && ValidForHints(m) && |Zones(os) + {Zone(m)}| >= 2
  {
    SplitCluster(c, name);
    ZonesWith(Others(c, name), c[name]);
    assert Zones(Others(c, name)) + {} == Zones(Others(c, name));
  }

  lemma SameOthers(c: Cluster, name: string, m: Machine)
    ensures Others(c[name := m], name) == Others(c, name)
  {
    assert c[name := m] - {name} == c - {name};
  }

  lemma Absent(c: Cluster, name: string)
    requires name !in c
    ensures Others(c, name) == c.Values
  {
    assert c - {name} == c;
  }

  /** The zone of the one machine that an update moves. */
  predicate MovesZone(c: Cluster, e: Event) {
    e.Updated? && e.name in c && Zone(c[e.name]) != Zone(e.node)
  }

  /** A creation, a removal or an update within the zone that the watch drops leaves the decision as it was. */
  lemma DroppedEventsDoNotMatter(c: Cluster, e: Event)
    requires Fits(c, e) && !Passes(c, e) && !MovesZone(c, e)
    ensures Decision(Apply(c, e)) == Decision(c)
  {
    match e
    case Created(n, m) =>
      Absent(c, n);
      SameOthers(c, n, m);
      DecisionWith(c[n := m], n);
    case Removed(n) =>
      DecisionWith(c, n);
    case Updated(n, m) =>
      SameOthers(c, n, m);
      DecisionWith(c, n);
      DecisionWith(c[n := m], n);
  }

  lemma ZoneCount(zs: set<string>, z: string)
    ensures |zs + {z}| == if z in zs then |zs| else |zs| + 1
  {
    if z in zs {
      assert zs + {z} == zs;
    }
  }

  /** The other machines share a single zone, and the update moves this one into it or out of it. */
  predicate TipsTheBalance(c: Cluster, e: Event)
    requires e.Updated? && e.name in c
  {
    var os := Others(c, e.name);
    && !Ignored(e.node) && ValidForHints(e.node) && AllValid(os) && |Zones(os)| == 1
    && (Zone(c[e.name]) in Zones(os)) != (Zone(e.node) in Zones(os))
  }

  /** For an update that the watch drops, exactly when the decision goes stale. */
  lemma DroppedUpdateMattersIff(c: Cluster, e: Event)
    requires e.Updated? && Fits(c, e) && !Passes(c, e)
    ensures Decision(Apply(c, e)) != Decision(c) <==> TipsTheBalance(c, e)
  {
    var n, m := e.name, e.node;
    var zs := Zones(Others(c, n));
    SameOthers(c, n, m);
    DecisionWith(c, n);
    DecisionWith(c[n := m], n);
    ZoneCount(zs, Zone(c[n]));
    ZoneCount(zs, Zone(m));
  }

  /** Over any run of dropped events that move no machine, the last decision taken stays right. */
  lemma {:induction false} DecisionStaysRight(c: Cluster, es: seq<Event>)
    requires DroppedRun(c, es)
    ensures Decision(After(c, es)) == Decision(c)
    decreases |es|
  {
    if es != [] {
      DroppedEventsDoNotMatter(c, es[0]);
      DecisionStaysRight(Apply(c, es[0]), es[1..]);
    }
  }

  function After(c: Cluster, es: seq<Event>): Cluster
    decreases |es|
  {
    if es == [] then c else After(Apply(c, es[0]), es[1..])
  }

  predicate DroppedRun(c: Cluster, es: seq<Event>)
    decreases |es|
  {
    es == [] || (Fits(c, es[0]) && !Passes(c, es[0]) && !MovesZone(c, es[0]) && DroppedRun(Apply(c, es[0]), es[1..]))
  }

  /** Two machines in one zone; one moves to another zone and the hints stay off although they could be on. */
  lemma MissedMove(a: string, b: string)
    requires a != b && a != "" && b != ""
    ensures var at := (z: string) => Machine(map[ZONE := z], [NodeCondition("Ready", "True")], true);
      var c, e := map["m" := at(a), "n" := at(a)], Updated("n", at(b));
      Fits(c, e) && !Passes(c, e) && !Decision(c) && Decision(Apply(c, e))
  {
    var at := (z: string) => Machine(map[ZONE := z], [NodeCondition("Ready", "True")], true);
    var c, e := map["m" := at(a), "n" := at(a)], Updated("n", at(b));
    assert !Ignored(at(a)) && !Ignored(at(b)) by {
      assert ZONE != CONTROL_PLANE && ZONE != MASTER;
    }
    var d := c - {"n"};
    assert "m" in d && d["m"] == at(a) && d.Keys == {"m"};
    assert Others(c, "n") == {at(a)};
    assert Zones({at(a)}) == {a};
    DroppedUpdateMattersIff(c, e);
    DecisionWith(c, "n");
    ZoneCount({a}, a);
  }

  // ---------------------------------------------------------------------
  // In terms of the nodes
  // ---------------------------------------------------------------------

  /** The condition at `i` is the first about readiness, and it is True. */
  predicate ReadyAt(cs: seq<NodeCondition>, i: nat) {
    && i < |cs| && cs[i] == NodeCondition("Ready", "True")
    && (forall j :: 0 <= j < i ==> cs[j].kind != "Ready")
  }

  predicate IsReady(cs: seq<NodeCondition>) {
    exists i: nat :: i < |cs| && ReadyAt(cs, i)
  }

  lemma {:induction false} IsReadyIff(cs: seq<NodeCondition>)
    ensures Ready(cs) <==> IsReady(cs)
  {
    if cs != [] {
      if cs[0].kind != "Ready" {
        IsReadyIff(cs[1..]);
        if i: nat :| i < |cs[1..]| && ReadyAt(cs[1..], i) {
          assert forall j :: 1 <= j < i + 1 ==> cs[j] == cs[1..][j - 1];
          assert ReadyAt(cs, i + 1);
        }
        if i: nat :| i < |cs| && ReadyAt(cs, i) {
          assert forall j :: 0 <= j < i - 1 ==> cs[1..][j] == cs[j + 1];
          assert ReadyAt(cs[1..], i - 1);
        }
      } else if cs[0].status == "True" {
        assert ReadyAt(cs, 0);
      }
    }
  }

  /** A ready node outside the control plane. */
  predicate Worker(m: Machine) {
    && "node-role.kubernetes.io/control-plane" !in m.labels
    && "node-role.kubernetes.io/master" !in m.labels
    && IsReady(m.conditions)
  }

  lemma WorkerIff(m: Machine)
    ensures Worker(m) <==> !Ignored(m)
  {
    IsReadyIff(m.conditions);
  }

  lemma TwoMembers(zs: set<string>)
    ensures |zs| >= 2 <==> exists a, b :: a in zs && b in zs && a != b
  {
    if |zs| >= 2 {
      var a :| a in zs;
      var rest := zs - {a};
      assert |rest| == |zs| - 1;
      var b :| b in rest;
      assert b in zs;
    }
    if a, b :| a in zs && b in zs && a != b {
      assert {a, b} <= zs && |{a, b}| == 2;
      SubsetSize({a, b}, zs);
    }
  }

  lemma {:induction false} SubsetSize(a: set<string>, b: set<string>)
    requires a <= b
    ensures |a| <= |b|
  {
    if x :| x in a {
      SubsetSize(a - {x}, b - {x});
    } else {
      assert a == {};
    }
  }

  /** The machines are workers in different zones. */
  predicate Apart(m: Machine, n: Machine) {
    && Worker(m) && Worker(n)
    && "topology.kubernetes.io/zone" in m.labels && "topology.kubernetes.io/zone" in n.labels
    && m.labels["topology.kubernetes.io/zone"] != n.labels["topology.kubernetes.io/zone"]
  }

  predicate Equipped(m: Machine) {
    && m.hasCpu && "topology.kubernetes.io/zone" in m.labels && m.labels["topology.kubernetes.io/zone"] != ""
  }

  /**
   The decision in terms of the nodes: every worker has CPU and a zone, and two workers are in different zones.
   Control-plane nodes and nodes that are not ready have no say.
   */
  lemma HintsSay(ms: set<Machine>)
    ensures Hints(ms) <==>
            (forall m :: m in ms && Worker(m) ==> Equipped(m)) && (exists m, n :: m in ms && n in ms && Apart(m, n))
  {
    forall m | m in ms
      ensures Worker(m) <==> !Ignored(m)
      ensures ValidForHints(m) <==> Equipped(m)
    {
      WorkerIff(m);
    }
    TwoMembers(Zones(ms));
    if Hints(ms) {
      var a, b :| a in Zones(ms) && b in Zones(ms) && a != b;
      var m :| m in ms && !Ignored(m) && Zone(m) == a;
      var n :| n in ms && !Ignored(n) && Zone(n) == b;
      assert Apart(m, n);
    }
    if m, n :| m in ms && n in ms && Apart(m, n) {
      assert Zone(m) in Zones(ms) && Zone(n) in Zones(ms);
    }
  }

  /** Which events lead to a pass: workers coming, going, ceasing to be workers, or changing in what counts. */
  lemma PassesSays(c: Cluster, e: Event)
    requires Fits(c, e)
    ensures Passes(c, e) <==>
            match e
            case Created(_, m) => Worker(m)
            case Removed(n) => Worker(c[n])
            case Updated(n, m) => Worker(c[n]) != Worker(m) || (Worker(m) && Equipped(c[n]) != Equipped(m))
  {
    if !e.Removed? {
      WorkerIff(e.node);
    }
    if !e.Created? {
      WorkerIff(c[e.name]);
    }
  }
}

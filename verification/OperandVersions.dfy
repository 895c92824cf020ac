/**
 The versions the ClusterOperator reports while an upgrade rolls out
 (pkg/operator/controller/status/controller.go).
 */
module OperandVersions {
  import opened Wrappers

  datatype Name = Operator | CoreDns | OpenshiftCli | KubeRbacProxy | OtherName(name: string)

  type Versions = map<Name, string>

  datatype OperandVersion = OperandVersion(name: Name, version: string)

  /** A map lookup that yields the empty string for a missing key. */
  function Get(m: Versions, n: Name): string {
    if n in m then m[n] else ""
  }

  // ---------------------------------------------------------------------
  // The reported list and the map
  // ---------------------------------------------------------------------

  /** A later entry for a name overrides an earlier one. */
  function OldVersions(list: seq<OperandVersion>): Versions {
    if list == [] then map[]
    else OldVersions(list[..|list| - 1])[list[|list| - 1].name := list[|list| - 1].version]
  }

  method ComputeOldVersions(list: seq<OperandVersion>) returns (m: Versions)
    ensures m == OldVersions(list)
  {
    m := map[];
    for i := 0 to |list|
      invariant m == OldVersions(list[..i])
    {
      assert list[..i + 1][..i] == list[..i];
      m := m[list[i].name := list[i].version];
    }
    assert list[..|list|] == list;
  }

  predicate DistinctNames(list: seq<OperandVersion>) {
    forall i, j :: 0 <= i < j < |list| ==> list[i].name != list[j].name
  }

  /** The list holds exactly the entries of the map, in some order. */
  predicate Enumerates(list: seq<OperandVersion>, m: Versions) {
    && DistinctNames(list)
    && (forall e :: e in list ==> e.name in m && m[e.name] == e.version)
    && (forall n :: n in m ==> OperandVersion(n, m[n]) in list)
  }

  /** Map iteration has no order of its own, so neither has the list. */
  method ComputeOperatorStatusVersions(m: Versions) returns (list: seq<OperandVersion>)
    ensures Enumerates(list, m)
  {
    list := [];
    var todo := m.Keys;
    while todo != {}
      invariant todo <= m.Keys
      invariant DistinctNames(list)
      invariant forall e :: e in list ==> e.name in m && e.name !in todo && m[e.name] == e.version
      invariant forall n :: n in m && n !in todo ==> OperandVersion(n, m[n]) in list
      decreases todo
    {
      var n :| n in todo;
      assert forall i :: 0 <= i < |list| ==> list[i] in list;
      list, todo := list + [OperandVersion(n, m[n])], todo - {n};
    }
  }

  lemma {:induction false} OldVersionsOfDistinct(list: seq<OperandVersion>)
    requires DistinctNames(list)
    ensures forall e :: e in list ==> e.name in OldVersions(list) && OldVersions(list)[e.name] == e.version
    ensures forall n :: n in OldVersions(list) ==> exists e :: e in list && e.name == n
  {
    if list != [] {
      var front, last := list[..|list| - 1], list[|list| - 1];
      OldVersionsOfDistinct(front);
      assert list == front + [last];
      assert last in list;
    }
  }

  /** The round trip through the reported list is the identity, whatever the order. */
  lemma VersionsRoundTrip(list: seq<OperandVersion>, m: Versions)
    requires Enumerates(list, m)
    ensures OldVersions(list) == m
  {
    OldVersionsOfDistinct(list);
    var back := OldVersions(list);
    forall n | n in m
      ensures n in back && back[n] == m[n]
    {
      assert OperandVersion(n, m[n]) in list;
    }
    forall n | n in back
      ensures n in m
    {
      var e :| e in list && e.name == n;
    }
  }

  // ---------------------------------------------------------------------
  // Counting the pods at the new version
  // ---------------------------------------------------------------------

  datatype Container = Container(name: string, image: string)

  /** `available` is whether the pod has been ready for long enough. */
  datatype Pod = Pod(available: bool, containers: seq<Container>)

  function VersionNameFor(container: string): Option<Name> {
    if container == "dns" then Some(CoreDns)
    else if container == "kube-rbac-proxy" then Some(KubeRbacProxy)
    else if container == "dns-node-resolver" then Some(OpenshiftCli)
    else None
  }

  function InContainers(cs: seq<Container>, n: Name, image: string): nat {
    if cs == [] then 0
    else
      var c := cs[|cs| - 1];
      InContainers(cs[..|cs| - 1], n, image) + if VersionNameFor(c.name) == Some(n) && c.image == image then 1 else 0
  }

  /** How many containers of an operand run the given image in available pods. */
  function InPods(pods: seq<Pod>, n: Name, image: string): nat {
    if pods == [] then 0
    else
      var p := pods[|pods| - 1];
      InPods(pods[..|pods| - 1], n, image) + if p.available then InContainers(p.containers, n, image) else 0
  }

  function Tally(counts: map<Name, nat>, n: Name): nat {
    if n in counts then counts[n] else 0
  }

  lemma ContainersStep(cs: seq<Container>, i: nat, n: Name, image: string)
    requires i < |cs|
    ensures InContainers(cs[..i + 1], n, image)
         == InContainers(cs[..i], n, image)
            + if VersionNameFor(cs[i].name) == Some(n) && cs[i].image == image then 1 else 0
  {
    assert cs[..i + 1][..i] == cs[..i];
  }

  /** The counts with one more container taken into account. */
  function Counted(counts: map<Name, nat>, c: Container, newVersions: Versions): map<Name, nat> {
    var n := VersionNameFor(c.name);
    if n.Some? && c.image == Get(newVersions, n.value) then counts[n.value := Tally(counts, n.value) + 1] else counts
  }

  lemma CountedStep(counts: map<Name, nat>, cs: seq<Container>, i: nat, newVersions: Versions, n: Name)
    requires i < |cs|
    ensures Tally(Counted(counts, cs[i], newVersions), n) + InContainers(cs[..i], n, Get(newVersions, n))
         == Tally(counts, n) + InContainers(cs[..i + 1], n, Get(newVersions, n))
  {
    ContainersStep(cs, i, n, Get(newVersions, n));
  }

  method UpdateAvailableFromPod(counts: map<Name, nat>, pod: Pod, newVersions: Versions) returns (r: map<Name, nat>)
    ensures forall n :: Tally(r, n) == Tally(counts, n) + InContainers(pod.containers, n, Get(newVersions, n))
  {
    r := counts;
    for i := 0 to |pod.containers|
      invariant forall n :: Tally(r, n) == Tally(counts, n) + InContainers(pod.containers[..i], n, Get(newVersions, n))
    {
      ghost var before := r;
      var versionName := VersionNameFor(pod.containers[i].name);
      if versionName.Some? && pod.containers[i].image == Get(newVersions, versionName.value) {
        r := r[versionName.value := Tally(r, versionName.value) + 1];
      }
      assert r == Counted(before, pod.containers[i], newVersions);
      forall n
        ensures Tally(r, n) == Tally(counts, n) + InContainers(pod.containers[..i + 1], n, Get(newVersions, n))
      {
        CountedStep(before, pod.containers, i, newVersions, n);
      }
    }
    assert pod.containers[..|pod.containers|] == pod.containers;
  }

  method CountPods(counts: map<Name, nat>, pods: seq<Pod>, newVersions: Versions) returns (r: map<Name, nat>)
    ensures forall n :: Tally(r, n) == Tally(counts, n) + InPods(pods, n, Get(newVersions, n))
  {
    r := counts;
    for i := 0 to |pods|
      invariant forall n :: Tally(r, n) == Tally(counts, n) + InPods(pods[..i], n, Get(newVersions, n))
    {
      assert pods[..i + 1][..i] == pods[..i];
      if pods[i].available {
        r := UpdateAvailableFromPod(r, pods[i], newVersions);
      }
    }
    assert pods[..|pods|] == pods;
  }

  // ---------------------------------------------------------------------
  // Current versions
  // ---------------------------------------------------------------------

  /** A missing daemonset wants no pods. */
  datatype Rollout = Rollout(desiredDns: int, desiredNodeResolver: int, dnsPods: seq<Pod>, nodeResolverPods: seq<Pod>)

  function AtNew(r: Rollout, target: Versions, n: Name): nat {
    InPods(r.dnsPods, n, Get(target, n)) + InPods(r.nodeResolverPods, n, Get(target, n))
  }

  predicate DnsLevel(r: Rollout, target: Versions) {
    AtNew(r, target, CoreDns) >= r.desiredDns && AtNew(r, target, KubeRbacProxy) >= r.desiredDns
  }

  predicate NodeResolverLevel(r: Rollout, target: Versions) {
    AtNew(r, target, OpenshiftCli) >= r.desiredNodeResolver
  }

  function NewVersions(operator: string, coreDns: string, openshiftCli: string, kubeRbacProxy: string): Versions {
    map[Operator := operator, CoreDns := coreDns, OpenshiftCli := openshiftCli, KubeRbacProxy := kubeRbacProxy]
  }

  function CurrentVersions(prior: Versions, target: Versions, r: Rollout): Versions {
    var dns := if DnsLevel(r, target) then target else prior;
    var node := if NodeResolverLevel(r, target) then target else prior;
    var operator := if DnsLevel(r, target) && NodeResolverLevel(r, target) then target else prior;
    NewVersions(Get(operator, Operator), Get(dns, CoreDns), Get(node, OpenshiftCli), Get(dns, KubeRbacProxy))
  }

  method ComputeCurrentVersions(oldVersions: Versions, newVersions: Versions, r: Rollout) returns (cur: Versions)
    ensures cur == CurrentVersions(oldVersions, newVersions, r)
  {
    var operatorVersion := Get(oldVersions, Operator);
    var coreDnsVersion := Get(oldVersions, CoreDns);
    var openshiftCliVersion := Get(oldVersions, OpenshiftCli);
    var kubeRbacProxyVersion := Get(oldVersions, KubeRbacProxy);
    var available := CountPods(map[], r.dnsPods, newVersions);
    available := CountPods(available, r.nodeResolverPods, newVersions);
    var coreDnsLevel := Tally(available, CoreDns) >= r.desiredDns;
    var kubeRbacProxyLevel := Tally(available, KubeRbacProxy) >= r.desiredDns;
    if coreDnsLevel && kubeRbacProxyLevel {
      coreDnsVersion := Get(newVersions, CoreDns);
      kubeRbacProxyVersion := Get(newVersions, KubeRbacProxy);
    }
    var openshiftCliLevel := Tally(available, OpenshiftCli) >= r.desiredNodeResolver;
    if openshiftCliLevel {
      openshiftCliVersion := Get(newVersions, OpenshiftCli);
    }
    if coreDnsLevel && kubeRbacProxyLevel && openshiftCliLevel {
      operatorVersion := Get(newVersions, Operator);
    }
    cur := map[Operator := operatorVersion, CoreDns := coreDnsVersion,
               OpenshiftCli := openshiftCliVersion, KubeRbacProxy := kubeRbacProxyVersion];
  }

  // ---------------------------------------------------------------------
  // What the counts mean
  // ---------------------------------------------------------------------

  /** The containers of that name that run the image in available pods, by pod and position. */
  function Running(pods: seq<Pod>, container: string, image: string): set<(nat, nat)> {
    set i: nat, j: nat |
      i < |pods| && j < |pods[i].containers|
      && pods[i].available && pods[i].containers[j] == Container(container, image) :: (i, j)
  }

  function RunningIn(cs: seq<Container>, container: string, image: string): set<nat> {
    set j: nat | j < |cs| && cs[j] == Container(container, image)
  }

  /** Which container stands for which version. */
  predicate StandsFor(container: string, n: Name) {
    || (container == "dns" && n == CoreDns)
    || (container == "kube-rbac-proxy" && n == KubeRbacProxy)
    || (container == "dns-node-resolver" && n == OpenshiftCli)
  }

  lemma StandsForIff(container: string, other: string, n: Name)
    requires StandsFor(container, n)
    ensures VersionNameFor(other) == Some(n) <==> other == container
  {
    assert |"dns"| == 3 && |"kube-rbac-proxy"| == 15 && |"dns-node-resolver"| == 17;
  }

  lemma {:induction false} ContainersCounted(cs: seq<Container>, container: string, n: Name, image: string)
    requires StandsFor(container, n)
    ensures InContainers(cs, n, image) == |RunningIn(cs, container, image)|
  {
    if cs != [] {
      var k := |cs| - 1;
      ContainersCounted(cs[..k], container, n, image);
      StandsForIff(container, cs[k].name, n);
      var before := RunningIn(cs[..k], container, image);
      assert RunningIn(cs, container, image) ==
             if cs[k] == Container(container, image) then before + {k} else before;
    }
  }

  function Paired(i: nat, js: set<nat>): set<(nat, nat)> {
    set j | j in js :: (i, j)
  }

  lemma {:induction false} PairedSize(i: nat, js: set<nat>)
    ensures |Paired(i, js)| == |js|
  {
    if j :| j in js {
      PairedSize(i, js - {j});
      assert Paired(i, js) == Paired(i, js - {j}) + {(i, j)};
    } else {
      assert Paired(i, js) == {};
    }
  }

  /** Counting in loops over pods and containers finds the number of such containers. */
  lemma {:induction false} PodsCounted(pods: seq<Pod>, container: string, n: Name, image: string)
    requires StandsFor(container, n)
    ensures InPods(pods, n, image) == |Running(pods, container, image)|
  {
    if pods != [] {
      var k := |pods| - 1;
      PodsCounted(pods[..k], container, n, image);
      ContainersCounted(pods[k].containers, container, n, image);
      var js := if pods[k].available then RunningIn(pods[k].containers, container, image) else {};
      PairedSize(k, js);
      RunningSplit(pods, container, image);
    }
  }

  lemma RunningSplit(pods: seq<Pod>, container: string, image: string)
    requires pods != []
    ensures var k := |pods| - 1;
            var js := if pods[k].available then RunningIn(pods[k].containers, container, image) else {};
            && Running(pods, container, image) == Running(pods[..k], container, image) + Paired(k, js)
            && Running(pods[..k], container, image) !! Paired(k, js)
  {
    var k := |pods| - 1;
    assert forall i :: 0 <= i < k ==> pods[..k][i] == pods[i];
  }

  /** How many containers of that name run the image, in the pods of both daemonsets. */
  function Total(r: Rollout, container: string, image: string): nat {
    |Running(r.dnsPods, container, image)| + |Running(r.nodeResolverPods, container, image)|
  }

  lemma AtNewIsTotal(r: Rollout, target: Versions, container: string, n: Name)
    requires StandsFor(container, n)
    ensures AtNew(r, target, n) == Total(r, container, Get(target, n))
  {
    PodsCounted(r.dnsPods, container, n, Get(target, n));
    PodsCounted(r.nodeResolverPods, container, n, Get(target, n));
  }

  /** As many containers as the DNS daemonset wants pods run the new images, both of them. */
  predicate DnsDone(r: Rollout, target: Versions) {
    && Total(r, "dns", Get(target, CoreDns)) >= r.desiredDns
    && Total(r, "kube-rbac-proxy", Get(target, KubeRbacProxy)) >= r.desiredDns
  }

  predicate NodeResolverDone(r: Rollout, target: Versions) {
    Total(r, "dns-node-resolver", Get(target, OpenshiftCli)) >= r.desiredNodeResolver
  }

  lemma LevelIsDone(r: Rollout, target: Versions)
    ensures DnsLevel(r, target) <==> DnsDone(r, target)
    ensures NodeResolverLevel(r, target) <==> NodeResolverDone(r, target)
  {
    AtNewIsTotal(r, target, "dns", CoreDns);
    AtNewIsTotal(r, target, "kube-rbac-proxy", KubeRbacProxy);
    AtNewIsTotal(r, target, "dns-node-resolver", OpenshiftCli);
  }

  /** For every roll-out, which of the four versions are new and which are kept. */
  lemma CurrentVersionsSay(prior: Versions, target: Versions, r: Rollout)
    ensures var cur := CurrentVersions(prior, target, r);
            && cur.Keys == {Operator, CoreDns, OpenshiftCli, KubeRbacProxy}
            && cur[CoreDns] == Get(if DnsDone(r, target) then target else prior, CoreDns)
            && cur[KubeRbacProxy] == Get(if DnsDone(r, target) then target else prior, KubeRbacProxy)
            && cur[OpenshiftCli] == Get(if NodeResolverDone(r, target) then target else prior, OpenshiftCli)
            && cur[Operator] ==
               Get(if DnsDone(r, target) && NodeResolverDone(r, target) then target else prior, Operator)
  {
    LevelIsDone(r, target);
  }

  /** The pod is available and has a container of that name at that image. */
  predicate Runs(pod: Pod, container: string, image: string) {
    pod.available && Container(container, image) in pod.containers
  }

  lemma {:induction false} AtLeastAsMany(pairs: set<(nat, nat)>, firsts: set<nat>)
    requires forall i :: i in firsts ==> exists j: nat :: (i, j) in pairs
    ensures |firsts| <= |pairs|
  {
    if i :| i in firsts {
      var j: nat :| (i, j) in pairs;
      forall i' | i' in firsts - {i}
        ensures exists j': nat :: (i', j') in pairs - {(i, j)}
      {
        var j': nat :| (i', j') in pairs;
        assert (i', j') in pairs - {(i, j)};
      }
      AtLeastAsMany(pairs - {(i, j)}, firsts - {i});
    } else {
      assert firsts == {};
    }
  }

  /** Pods that run the container are at least as many containers. */
  lemma PodsRun(pods: seq<Pod>, which: set<nat>, container: string, image: string)
    requires forall i :: i in which ==> 0 <= i < |pods| && Runs(pods[i], container, image)
    ensures |which| <= |Running(pods, container, image)|
  {
    forall i | i in which
      ensures exists j: nat :: (i, j) in Running(pods, container, image)
    {
      var j: nat :| 0 <= j < |pods[i].containers| && pods[i].containers[j] == Container(container, image);
      assert (i, j) in Running(pods, container, image);
    }
    AtLeastAsMany(Running(pods, container, image), which);
  }

  /**
   An upgrade completes: once as many DNS pods as wanted are available with both containers at their new images,
   and as many node-resolver pods with theirs, all four versions are at their targets.
   */
  lemma RolloutCompletes(prior: Versions, target: Versions, r: Rollout, dns: set<nat>, node: set<nat>)
    requires |dns| >= r.desiredDns && |node| >= r.desiredNodeResolver
    requires forall i :: i in dns ==>
               && 0 <= i < |r.dnsPods|
               && Runs(r.dnsPods[i], "dns", Get(target, CoreDns))
               && Runs(r.dnsPods[i], "kube-rbac-proxy", Get(target, KubeRbacProxy))
    requires forall i :: i in node ==>
               && 0 <= i < |r.nodeResolverPods|
               && Runs(r.nodeResolverPods[i], "dns-node-resolver", Get(target, OpenshiftCli))
    ensures var cur := CurrentVersions(prior, target, r);
            AtTarget(cur, target, Operator) && OperandsAtTarget(cur, target)
  {
    PodsRun(r.dnsPods, dns, "dns", Get(target, CoreDns));
    PodsRun(r.dnsPods, dns, "kube-rbac-proxy", Get(target, KubeRbacProxy));
    PodsRun(r.nodeResolverPods, node, "dns-node-resolver", Get(target, OpenshiftCli));
    CurrentVersionsSay(prior, target, r);
  }

  /** And not before: with too few containers of either name, both DNS versions stay, and so does the operator's. */
  lemma RolloutWaits(prior: Versions, target: Versions, r: Rollout)
    requires || Total(r, "dns", Get(target, CoreDns)) < r.desiredDns
             || Total(r, "kube-rbac-proxy", Get(target, KubeRbacProxy)) < r.desiredDns
    ensures var cur := CurrentVersions(prior, target, r);
            && Get(cur, CoreDns) == Get(prior, CoreDns) && Get(cur, KubeRbacProxy) == Get(prior, KubeRbacProxy)
            && Get(cur, Operator) == Get(prior, Operator)
  {
    CurrentVersionsSay(prior, target, r);
  }

  // ---------------------------------------------------------------------
  // Runs
  // ---------------------------------------------------------------------

  predicate AtTarget(reported: Versions, target: Versions, n: Name) {
    Get(reported, n) == Get(target, n)
  }

  predicate OperandsAtTarget(reported: Versions, target: Versions) {
    && AtTarget(reported, target, CoreDns)
    && AtTarget(reported, target, OpenshiftCli)
    && AtTarget(reported, target, KubeRbacProxy)
  }

  /** The operator claims its own new version only once all operands have theirs. */
  predicate Honest(reported: Versions, target: Versions) {
    AtTarget(reported, target, Operator) ==> OperandsAtTarget(reported, target)
  }

  /** One pass: the reported list stays, when its write fails, or lists the current versions in some order. */
  predicate Reports(a: seq<OperandVersion>, b: seq<OperandVersion>, target: Versions, r: Rollout) {
    b == a || Enumerates(b, CurrentVersions(OldVersions(a), target, r))
  }

  predicate IsRun(lists: seq<seq<OperandVersion>>, rollouts: seq<Rollout>, target: Versions) {
    && |lists| == |rollouts| + 1
    && forall i :: 0 <= i < |rollouts| ==> ReportsAt(lists, rollouts, target, i)
  }

  predicate ReportsAt(lists: seq<seq<OperandVersion>>, rollouts: seq<Rollout>, target: Versions, i: nat)
    requires |lists| == |rollouts| + 1 && i < |rollouts|
  {
    Reports(lists[i], lists[i + 1], target, rollouts[i])
  }

  predicate IsOurs(n: Name) {
    n == Operator || n == CoreDns || n == OpenshiftCli || n == KubeRbacProxy
  }

  predicate MoveTogether(prior: Versions, now: Versions, target: Versions) {
    || (AtTarget(now, target, CoreDns) && AtTarget(now, target, KubeRbacProxy))
    || (Get(now, CoreDns) == Get(prior, CoreDns) && Get(now, KubeRbacProxy) == Get(prior, KubeRbacProxy))
  }

  lemma CurrentVersionsStep(prior: Versions, target: Versions, r: Rollout, n: Name)
    ensures var now := CurrentVersions(prior, target, r);
            && (IsOurs(n) && AtTarget(prior, target, n) ==> AtTarget(now, target, n))
            && (Honest(prior, target) ==> Honest(now, target))
            && MoveTogether(prior, now, target)
  {}

  lemma ReportsStep(a: seq<OperandVersion>, b: seq<OperandVersion>, target: Versions, r: Rollout, n: Name)
    requires Reports(a, b, target, r)
    ensures IsOurs(n) && AtTarget(OldVersions(a), target, n) ==> AtTarget(OldVersions(b), target, n)
    ensures Honest(OldVersions(a), target) ==> Honest(OldVersions(b), target)
    ensures MoveTogether(OldVersions(a), OldVersions(b), target)
  {
    if b != a {
      VersionsRoundTrip(b, CurrentVersions(OldVersions(a), target, r));
      CurrentVersionsStep(OldVersions(a), target, r, n);
    }
  }

  /** The versions of coredns and kube-rbac-proxy are always both taken from the new release or both kept. */
  lemma DnsVersionsMoveTogether(lists: seq<seq<OperandVersion>>, rollouts: seq<Rollout>, target: Versions, n: nat)
    requires IsRun(lists, rollouts, target) && n < |rollouts|
    ensures MoveTogether(OldVersions(lists[n]), OldVersions(lists[n + 1]), target)
  {
    assert ReportsAt(lists, rollouts, target, n);
    ReportsStep(lists[n], lists[n + 1], target, rollouts[n], CoreDns);
  }

  /** Across every run with fixed targets, a reported version that has reached its target never leaves it. */
  lemma {:induction false} TargetIsNeverLeft(
    lists: seq<seq<OperandVersion>>, rollouts: seq<Rollout>, target: Versions, i: nat, j: nat, n: Name)
    requires IsRun(lists, rollouts, target) && i <= j < |lists| && IsOurs(n)
    requires AtTarget(OldVersions(lists[i]), target, n)
    ensures AtTarget(OldVersions(lists[j]), target, n)
  {
    if i < j {
      TargetIsNeverLeft(lists, rollouts, target, i, j - 1, n);
      assert ReportsAt(lists, rollouts, target, j - 1);
      ReportsStep(lists[j - 1], lists[j], target, rollouts[j - 1], n);
    }
  }

  /** Across every run that starts honest, an operator at its target means that all operands are at theirs. */
  lemma {:induction false} OperatorVersionIsHonest(
    lists: seq<seq<OperandVersion>>, rollouts: seq<Rollout>, target: Versions, n: nat)
    requires IsRun(lists, rollouts, target) && n < |lists| && Honest(OldVersions(lists[0]), target)
    ensures Honest(OldVersions(lists[n]), target)
  {
    if n > 0 {
      OperatorVersionIsHonest(lists, rollouts, target, n - 1);
      assert ReportsAt(lists, rollouts, target, n - 1);
      ReportsStep(lists[n - 1], lists[n], target, rollouts[n - 1], Operator);
    }
  }

  /** A daemonset that does not exist wants no pods, so it never holds an upgrade back. */
  lemma MissingDaemonSetsAreLevel(prior: Versions, target: Versions, r: Rollout)
    requires r.desiredDns <= 0 && r.desiredNodeResolver <= 0
    ensures var cur := CurrentVersions(prior, target, r);
            AtTarget(cur, target, Operator) && OperandsAtTarget(cur, target)
  {}

  // ---------------------------------------------------------------------
  // Comparing reported lists
  // ---------------------------------------------------------------------

  function OfName(list: seq<OperandVersion>, n: Name): seq<OperandVersion> {
    if list == [] then []
    else OfName(list[..|list| - 1], n) + if list[|list| - 1].name == n then [list[|list| - 1]] else []
  }

  /** Equality after a stable sort by name. */
  predicate SameVersions(a: seq<OperandVersion>, b: seq<OperandVersion>) {
    forall e :: e in a + b ==> OfName(a, e.name) == OfName(b, e.name)
  }

  lemma {:induction false} OfNameOfDistinct(list: seq<OperandVersion>, e: OperandVersion)
    requires DistinctNames(list) && e in list
    ensures OfName(list, e.name) == [e]
  {
    var front, last := list[..|list| - 1], list[|list| - 1];
    if e == last {
      OfNameOfMissing(front, e.name);
    } else {
      OfNameOfDistinct(front, e);
    }
  }

  lemma {:induction false} OfNameOfMissing(list: seq<OperandVersion>, n: Name)
    requires forall e :: e in list ==> e.name != n
    ensures OfName(list, n) == []
  {
    if list != [] {
      OfNameOfMissing(list[..|list| - 1], n);
    }
  }

  lemma {:induction false} OldVersionsByName(list: seq<OperandVersion>, n: Name)
    ensures var own := OfName(list, n);
            if own == [] then n !in OldVersions(list)
            else n in OldVersions(list) && OldVersions(list)[n] == own[|own| - 1].version
    ensures OfName(list, n) != [] <==> exists e :: e in list && e.name == n
  {
    if list != [] {
      var front, last := list[..|list| - 1], list[|list| - 1];
      OldVersionsByName(front, n);
      assert list == front + [last] && last in list;
    }
  }

  /** Two listings of one map compare equal, whatever their orders. */
  lemma ListingsCompareEqual(a: seq<OperandVersion>, b: seq<OperandVersion>, m: Versions)
    requires Enumerates(a, m) && Enumerates(b, m)
    ensures SameVersions(a, b)
  {
    forall e | e in a + b
      ensures OfName(a, e.name) == OfName(b, e.name)
    {
      assert e == OperandVersion(e.name, m[e.name]);
      OfNameOfDistinct(a, e);
      OfNameOfDistinct(b, e);
    }
  }

  lemma SameOfName(a: seq<OperandVersion>, b: seq<OperandVersion>, n: Name)
    requires SameVersions(a, b)
    ensures OfName(a, n) == OfName(b, n)
  {
    OldVersionsByName(a, n);
    OldVersionsByName(b, n);
    assert forall e :: e in a || e in b ==> e in a + b;
  }

  lemma SameVersionsTransitive(a: seq<OperandVersion>, b: seq<OperandVersion>, c: seq<OperandVersion>)
    requires SameVersions(a, b) && SameVersions(b, c)
    ensures SameVersions(a, c)
  {
    forall e | e in a + c
      ensures OfName(a, e.name) == OfName(c, e.name)
    {
      SameOfName(a, b, e.name);
      SameOfName(b, c, e.name);
    }
  }

  lemma SameVersionsSymmetric(a: seq<OperandVersion>, b: seq<OperandVersion>)
    requires SameVersions(a, b)
    ensures SameVersions(b, a)
  {
    assert forall e :: e in b + a ==> e in a + b;
  }

  lemma SameVersionsSameMap(a: seq<OperandVersion>, b: seq<OperandVersion>)
    requires SameVersions(a, b)
    ensures OldVersions(a) == OldVersions(b)
  {
    var x, y := OldVersions(a), OldVersions(b);
    forall n
      ensures n in x <==> n in y
      ensures n in x ==> x[n] == y[n]
    {
      SameOfName(a, b, n);
      OldVersionsByName(a, n);
      OldVersionsByName(b, n);
    }
  }

  /** A second look at the same pods bumps nothing further. */
  lemma CurrentVersionsSettle(prior: Versions, target: Versions, r: Rollout)
    ensures CurrentVersions(CurrentVersions(prior, target, r), target, r) == CurrentVersions(prior, target, r)
  {}
}

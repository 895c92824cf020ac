/**
 Reconciliation of the DNS daemonset: the field-by-field diff and merge, and the
 guard on its placement (pkg/operator/controller/controller_dns_daemonset.go).

 Nil and empty lists or maps are one value here, as they are for the comparison
 options the operator uses.
 */
module DaemonSets {
  import opened Wrappers
  import opened Kube

  const DNS := "dns"
  const PROXY := "kube-rbac-proxy"

  const ENABLE_EVICTION := "cluster-autoscaler.kubernetes.io/enable-ds-eviction"
  const WORKLOAD_MANAGEMENT := "target.workload.openshift.io/management"

  datatype Probe = Probe(handler: string, initialDelay: int, period: int, timeout: int, success: int, failure: int)

  /** An absent probe compares like the zero probe. */
  const ZERO_PROBE := Probe("", 0, 0, 0, 0, 0)

  datatype VolumeMount = VolumeMount(name: string, mountPath: string, readOnly: bool)

  /** `rest` stands for the container fields that the diff does not look at. */
  datatype Container = Container(
    name: string, image: string, command: seq<string>, args: seq<string>,
    mounts: seq<VolumeMount>, readiness: Option<Probe>, rest: string)

  datatype VolumeSource =
    | ConfigMapSource(name: string, items: seq<(string, string)>, mode: Option<int>, optional: Option<bool>)
    | SecretSource(name: string, items: seq<(string, string)>, mode: Option<int>, optional: Option<bool>)
    | OtherSource(text: string)

  datatype Volume = Volume(name: string, source: VolumeSource)

  /** `meta` and `rest` stand for the metadata and the spec fields that the diff does not look at. */
  datatype DaemonSet = DaemonSet(
    meta: string, podSelector: Labels, minReadySeconds: int, strategy: string,
    annotations: Labels, containers: seq<Container>, nodeSelector: Labels,
    gracePeriod: Option<int>, tolerations: seq<Toleration>, volumes: seq<Volume>, rest: string)

  // ---------------------------------------------------------------------
  // Comparisons
  // ---------------------------------------------------------------------

  const DEFAULT_MODE := 420
  const DEFAULT_GRACE_PERIOD := 30

  function ValueOr<T>(x: Option<T>, default: T): T {
    if x.Some? then x.value else default
  }

  predicate SameGracePeriod(a: Option<int>, b: Option<int>) {
    ValueOr(a, DEFAULT_GRACE_PERIOD) == ValueOr(b, DEFAULT_GRACE_PERIOD)
  }

  /** Sources with an explicit default mode compare like sources that leave it out. */
  function Normal(s: VolumeSource): VolumeSource {
    if s.OtherSource? then s else s.(mode := Some(ValueOr(s.mode, DEFAULT_MODE)))
  }

  predicate SameVolumes(a: seq<Volume>, b: seq<Volume>) {
    |a| == |b| && forall i :: 0 <= i < |a| ==> a[i].name == b[i].name && Normal(a[i].source) == Normal(b[i].source)
  }

  /** The container fields that make the operator replace the whole container list. */
  predicate SameCommandLine(a: Container, b: Container) {
    a.command == b.command && a.args == b.args && a.mounts == b.mounts
  }

  predicate SameCommandLines(a: seq<Container>, b: seq<Container>) {
    |a| == |b| && forall i :: 0 <= i < |a| ==> SameCommandLine(a[i], b[i])
  }

  // ---------------------------------------------------------------------
  // Containers by name
  // ---------------------------------------------------------------------

  /** The index of the first container with that name, or the length of the list. */
  function Find(cs: seq<Container>, name: string): (i: nat)
    ensures i <= |cs|
    ensures i < |cs| ==> cs[i].name == name
    ensures forall j :: 0 <= j < i ==> cs[j].name != name
  {
    if cs == [] || cs[0].name == name then 0 else 1 + Find(cs[1..], name)
  }

  function ImageOf(cs: seq<Container>, name: string): string {
    var i := Find(cs, name);
    if i < |cs| then cs[i].image else ""
  }

  function Ready(c: Container): Probe {
    ValueOr(c.readiness, ZERO_PROBE)
  }

  function ReadyOf(cs: seq<Container>, name: string): Probe {
    var i := Find(cs, name);
    if i < |cs| then Ready(cs[i]) else ZERO_PROBE
  }

  /** Nothing changes where a container is found as long as names stay where they are. */
  lemma FindByNames(a: seq<Container>, b: seq<Container>, name: string)
    requires |a| == |b| && forall i :: 0 <= i < |a| ==> a[i].name == b[i].name
    ensures Find(a, name) == Find(b, name)
  {}

  // ---------------------------------------------------------------------
  // The diff, as a function
  // ---------------------------------------------------------------------

  /** What the loop over one container name makes of the container list. */
  datatype Containers = Panic | ReplaceAll | Keep(list: seq<Container>, changed: bool)

  function MergeOne(list: seq<Container>, cur: seq<Container>, exp: seq<Container>, name: string): Containers
    requires |list| == |cur|
  {
    if ImageOf(cur, name) == "" then ReplaceAll
    else
      var k := Find(cur, name);
      var image := ImageOf(exp, name);
      var list1 := if ImageOf(cur, name) != image then list[k := list[k].(image := image)] else list;
      if ReadyOf(cur, name) == ReadyOf(exp, name) then Keep(list1, ImageOf(cur, name) != image)
      else if k >= |exp| then Panic
      else Keep(list1[k := list1[k].(readiness := exp[k].readiness)], true)
  }

  lemma MergeOneKeepsNames(list: seq<Container>, cur: seq<Container>, exp: seq<Container>, name: string)
    requires |list| == |cur|
    ensures var r := MergeOne(list, cur, exp, name);
            r.Keep? ==> |r.list| == |list| && forall i :: 0 <= i < |list| ==> r.list[i].name == list[i].name
  {}

  function MergeBoth(cur: seq<Container>, exp: seq<Container>): Containers {
    match MergeOne(cur, cur, exp, DNS)
    case Panic => Panic
    case ReplaceAll => ReplaceAll
    case Keep(list, changed) =>
      MergeOneKeepsNames(cur, cur, exp, DNS);
      match MergeOne(list, cur, exp, PROXY)
      case Panic => Panic
      case ReplaceAll => ReplaceAll
      case Keep(list', changed') => Keep(list', changed || changed')
  }

  /** The container list of the update and whether it is a change; None stands for an index out of range. */
  function MergeContainers(cur: seq<Container>, exp: seq<Container>): Option<(seq<Container>, bool)> {
    match MergeBoth(cur, exp)
    case Panic => None
    case ReplaceAll => Some((exp, true))
    case Keep(list, changed) => if SameCommandLines(cur, exp) then Some((list, changed)) else Some((exp, true))
  }

  predicate Managed(key: string) {
    key == ENABLE_EVICTION || key == WORKLOAD_MANAGEMENT
  }

  predicate SameAt(a: Labels, b: Labels, key: string) {
    (key in a <==> key in b) && (key in a && key in b ==> a[key] == b[key])
  }

  function MergeAt(cur: Labels, exp: Labels, key: string): Labels {
    if key in exp then cur[key := exp[key]] else cur - {key}
  }

  function MergeAnnotations(cur: Labels, exp: Labels): Labels {
    MergeAt(MergeAt(cur, exp, ENABLE_EVICTION), exp, WORKLOAD_MANAGEMENT)
  }

  datatype Diff = Panics | Unchanged | Changed(updated: DaemonSet)

  /** What the update holds, apart from its containers. */
  function MergeFields(cur: DaemonSet, exp: DaemonSet, containers: seq<Container>): DaemonSet {
    cur.(minReadySeconds := exp.minReadySeconds,
         strategy := exp.strategy,
         annotations := MergeAnnotations(cur.annotations, exp.annotations),
         containers := containers,
         nodeSelector := exp.nodeSelector,
         gracePeriod := if SameGracePeriod(cur.gracePeriod, exp.gracePeriod) then cur.gracePeriod else exp.gracePeriod,
         tolerations := exp.tolerations,
         volumes := if SameVolumes(cur.volumes, exp.volumes) then cur.volumes else exp.volumes)
  }

  predicate SameFields(cur: DaemonSet, exp: DaemonSet) {
    && cur.minReadySeconds == exp.minReadySeconds
    && cur.strategy == exp.strategy
    && SameAt(cur.annotations, exp.annotations, ENABLE_EVICTION)
    && SameAt(cur.annotations, exp.annotations, WORKLOAD_MANAGEMENT)
    && cur.nodeSelector == exp.nodeSelector
    && SameGracePeriod(cur.gracePeriod, exp.gracePeriod)
    && cur.tolerations == exp.tolerations
    && SameVolumes(cur.volumes, exp.volumes)
  }

  function ConfigDiff(cur: DaemonSet, exp: DaemonSet): Diff {
    match MergeContainers(cur.containers, exp.containers)
    case None => Panics
    case Some((list, changed)) =>
      if !changed && SameFields(cur, exp) then Unchanged else Changed(MergeFields(cur, exp, list))
  }

  // ---------------------------------------------------------------------
  // The diff, as the operator computes it
  // ---------------------------------------------------------------------

  /** The scan for a container: its index if found, its image and its probe. */
  method Lookup(cs: seq<Container>, name: string) returns (index: nat, image: string, ready: Probe)
    ensures image == ImageOf(cs, name) && ready == ReadyOf(cs, name)
    ensures Find(cs, name) < |cs| ==> index == Find(cs, name)
  {
    index, image, ready := 0, "", ZERO_PROBE;
    for i := 0 to |cs|
      invariant Find(cs, name) >= i
      invariant index == 0 && image == "" && ready == ZERO_PROBE
    {
      if cs[i].name == name {
        return i, cs[i].image, Ready(cs[i]);
      }
    }
  }

  method AnyCommandLineDiffers(a: seq<Container>, b: seq<Container>) returns (differs: bool)
    ensures differs <==> !SameCommandLines(a, b)
  {
    if |a| != |b| {
      return true;
    }
    for i := 0 to |a|
      invariant forall j :: 0 <= j < i ==> SameCommandLine(a[j], b[j])
    {
      if !SameCommandLine(a[i], b[i]) {
        return true;
      }
    }
    return false;
  }

  method MergeNamedContainer(list: seq<Container>, cur: seq<Container>, exp: seq<Container>, name: string)
    returns (r: Containers)
    requires |list| == |cur|
    ensures r == MergeOne(list, cur, exp, name)
  {
    var updated, changed := list, false;
    var curIndex, curImage, curReady := Lookup(cur, name);
    var _, expImage, expReady := Lookup(exp, name);
    if curImage == "" {
      return ReplaceAll;
    }
    if curImage != expImage {
      updated, changed := updated[curIndex := updated[curIndex].(image := expImage)], true;
    }
    if curReady != expReady {
      if curIndex >= |exp| {
        return Panic;
      }
      updated, changed := updated[curIndex := updated[curIndex].(readiness := exp[curIndex].readiness)], true;
    }
    return Keep(updated, changed);
  }

  method MergeNamedContainers(cur: seq<Container>, exp: seq<Container>) returns (r: Containers)
    ensures r == MergeBoth(cur, exp)
  {
    var names := [DNS, PROXY];
    var list, changed := cur, false;
    for n := 0 to |names|
      invariant |list| == |cur|
      invariant n == 0 ==> list == cur && !changed
      invariant n == 1 ==> MergeOne(cur, cur, exp, DNS) == Keep(list, changed)
      invariant n == 2 ==> MergeBoth(cur, exp) == Keep(list, changed)
    {
      MergeOneKeepsNames(list, cur, exp, names[n]);
      var one := MergeNamedContainer(list, cur, exp, names[n]);
      if !one.Keep? {
        return one;
      }
      list, changed := one.list, changed || one.changed;
    }
    return Keep(list, changed);
  }

  method MergeManagedAnnotations(cur: Labels, exp: Labels) returns (merged: Labels, changed: bool)
    ensures merged == MergeAnnotations(cur, exp)
    ensures changed <==> !(SameAt(cur, exp, ENABLE_EVICTION) && SameAt(cur, exp, WORKLOAD_MANAGEMENT))
  {
    var keys := [ENABLE_EVICTION, WORKLOAD_MANAGEMENT];
    merged, changed := cur, false;
    for n := 0 to |keys|
      invariant n == 0 ==> merged == cur
      invariant n == 1 ==> merged == MergeAt(cur, exp, ENABLE_EVICTION)
      invariant n == 2 ==> merged == MergeAnnotations(cur, exp)
      invariant changed <==> exists i :: 0 <= i < n && !SameAt(cur, exp, keys[i])
    {
      var k := keys[n];
      if k in exp && (k !in cur || cur[k] != exp[k]) {
        merged, changed := merged[k := exp[k]], true;
      } else if k in cur && k !in exp {
        merged, changed := merged - {k}, true;
      } else if k in exp {
        assert merged == merged[k := exp[k]];
      } else {
        assert merged == merged - {k};
      }
    }
    assert keys[0] == ENABLE_EVICTION && keys[1] == WORKLOAD_MANAGEMENT;
  }

  /** The managed fields outside the pod's own. */
  method MergeRolloutFields(current: DaemonSet, expected: DaemonSet) returns (updated: DaemonSet, changed: bool)
    ensures updated == current.(minReadySeconds := expected.minReadySeconds, strategy := expected.strategy,
                                annotations := MergeAnnotations(current.annotations, expected.annotations))
    ensures !changed <==> && current.minReadySeconds == expected.minReadySeconds
                          && current.strategy == expected.strategy
                          && SameAt(current.annotations, expected.annotations, ENABLE_EVICTION)
                          && SameAt(current.annotations, expected.annotations, WORKLOAD_MANAGEMENT)
  {
    changed, updated := false, current;
    if current.minReadySeconds != expected.minReadySeconds {
      updated, changed := updated.(minReadySeconds := expected.minReadySeconds), true;
    }
    if current.strategy != expected.strategy {
      updated, changed := updated.(strategy := expected.strategy), true;
    }
    var annotations, annotationsChanged := MergeManagedAnnotations(current.annotations, expected.annotations);
    updated, changed := updated.(annotations := annotations), changed || annotationsChanged;
  }

  /** All managed fields but the containers. */
  method MergeManagedFields(current: DaemonSet, expected: DaemonSet) returns (updated: DaemonSet, changed: bool)
    ensures updated == MergeFields(current, expected, current.containers)
    ensures changed <==> !SameFields(current, expected)
  {
    updated, changed := MergeRolloutFields(current, expected);
    if current.nodeSelector != expected.nodeSelector {
      updated, changed := updated.(nodeSelector := expected.nodeSelector), true;
    }
    if !SameGracePeriod(current.gracePeriod, expected.gracePeriod) {
      updated, changed := updated.(gracePeriod := expected.gracePeriod), true;
    }
    if current.tolerations != expected.tolerations {
      updated, changed := updated.(tolerations := expected.tolerations), true;
    }
    if !SameVolumes(current.volumes, expected.volumes) {
      updated, changed := updated.(volumes := expected.volumes), true;
    }
  }

  method DaemonsetConfigChanged(current: DaemonSet, expected: DaemonSet) returns (r: Diff)
    ensures r == ConfigDiff(current, expected)
  {
    var updated, changed := MergeManagedFields(current, expected);
    var merged := MergeNamedContainers(current.containers, expected.containers);
    if merged.Panic? {
      return Panics;
    } else if merged.ReplaceAll? {
      updated, changed := updated.(containers := expected.containers), true;
    } else {
      updated, changed := updated.(containers := merged.list), changed || merged.changed;
    }
    var differs := AnyCommandLineDiffers(current.containers, expected.containers);
    if differs {
      updated, changed := updated.(containers := expected.containers), true;
    }
    return if changed then Changed(updated) else Unchanged;
  }

  // ---------------------------------------------------------------------
  // What the diff means
  // ---------------------------------------------------------------------

  predicate SameNamed(cur: seq<Container>, exp: seq<Container>, name: string) {
    && ImageOf(cur, name) != "" && ImageOf(cur, name) == ImageOf(exp, name)
    && ReadyOf(cur, name) == ReadyOf(exp, name)
  }

  /** The current daemonset is as expected in every managed field. */
  predicate Agrees(cur: DaemonSet, exp: DaemonSet) {
    && SameFields(cur, exp)
    && SameNamed(cur.containers, exp.containers, DNS) && SameNamed(cur.containers, exp.containers, PROXY)
    && SameCommandLines(cur.containers, exp.containers)
  }

  lemma UnchangedMeansAgreement(cur: DaemonSet, exp: DaemonSet)
    ensures ConfigDiff(cur, exp) == Unchanged <==> Agrees(cur, exp)
  {}

  // ---------------------------------------------------------------------
  // The managed fields, one by one
  // ---------------------------------------------------------------------

  /** Equal, or both left out or given as the default. */
  predicate Alike<T(==)>(a: Option<T>, b: Option<T>, default: T) {
    a == b || (a in {None, Some(default)} && b in {None, Some(default)})
  }

  predicate SourcesAlike(a: VolumeSource, b: VolumeSource) {
    match (a, b)
    case (ConfigMapSource(n, i, m, o), ConfigMapSource(n', i', m', o')) =>
      n == n' && i == i' && o == o' && Alike(m, m', 420)
    case (SecretSource(n, i, m, o), SecretSource(n', i', m', o')) =>
      n == n' && i == i' && o == o' && Alike(m, m', 420)
    case (OtherSource(x), OtherSource(y)) => x == y
    case _ => false
  }

  predicate VolumesAlike(a: seq<Volume>, b: seq<Volume>) {
    |a| == |b| && forall i :: 0 <= i < |a| ==> a[i].name == b[i].name && SourcesAlike(a[i].source, b[i].source)
  }

  lemma VolumesAlikeIff(a: seq<Volume>, b: seq<Volume>)
    ensures SameVolumes(a, b) <==> VolumesAlike(a, b)
  {
    if |a| == |b| {
      forall i | 0 <= i < |a|
        ensures Normal(a[i].source) == Normal(b[i].source) <==> SourcesAlike(a[i].source, b[i].source)
      {}
    }
  }

  function ValueAt(m: Labels, key: string): Option<string> {
    if key in m then Some(m[key]) else None
  }

  /** The fields other than the containers, with what counts as equal spelled out. */
  predicate FieldsAlike(a: DaemonSet, b: DaemonSet) {
    && a.minReadySeconds == b.minReadySeconds && a.strategy == b.strategy
    && a.nodeSelector == b.nodeSelector && a.tolerations == b.tolerations
    && Alike(a.gracePeriod, b.gracePeriod, 30)
    && VolumesAlike(a.volumes, b.volumes)
    && ValueAt(a.annotations, "cluster-autoscaler.kubernetes.io/enable-ds-eviction")
       == ValueAt(b.annotations, "cluster-autoscaler.kubernetes.io/enable-ds-eviction")
    && ValueAt(a.annotations, "target.workload.openshift.io/management")
       == ValueAt(b.annotations, "target.workload.openshift.io/management")
  }

  /** The first containers of that name have one image and probes that count as equal. */
  predicate NamedAlike(a: seq<Container>, b: seq<Container>, name: string) {
    exists i, j ::
      && 0 <= i < |a| && a[i].name == name && (forall k :: 0 <= k < i ==> a[k].name != name)
      && 0 <= j < |b| && b[j].name == name && (forall k :: 0 <= k < j ==> b[k].name != name)
      && a[i].image == b[j].image != "" && Alike(a[i].readiness, b[j].readiness, Probe("", 0, 0, 0, 0, 0))
  }

  predicate ContainersAlike(a: seq<Container>, b: seq<Container>) {
    && |a| == |b|
    && (forall i :: 0 <= i < |a| ==>
          a[i].command == b[i].command && a[i].args == b[i].args && a[i].mounts == b[i].mounts)
    && NamedAlike(a, b, "dns") && NamedAlike(a, b, "kube-rbac-proxy")
  }

  lemma NamedAlikeIff(a: seq<Container>, b: seq<Container>, name: string)
    ensures SameNamed(a, b, name) <==> NamedAlike(a, b, name)
  {
    var i, j := Find(a, name), Find(b, name);
    if SameNamed(a, b, name) {
      assert i < |a| && j < |b|;
    }
  }

  lemma FieldsAlikeIff(a: DaemonSet, b: DaemonSet)
    ensures SameFields(a, b) <==> FieldsAlike(a, b)
  {
    VolumesAlikeIff(a.volumes, b.volumes);
  }

  /** The diff reports no change exactly when every managed field is as expected. */
  lemma UnchangedSays(cur: DaemonSet, exp: DaemonSet)
    ensures ConfigDiff(cur, exp) == Unchanged <==>
            FieldsAlike(cur, exp) && ContainersAlike(cur.containers, exp.containers)
  {
    UnchangedMeansAgreement(cur, exp);
    FieldsAlikeIff(cur, exp);
    NamedAlikeIff(cur.containers, exp.containers, DNS);
    NamedAlikeIff(cur.containers, exp.containers, PROXY);
  }

  /** Whatever a change does to the containers, all other managed fields are then as expected. */
  lemma UpdatedSays(cur: DaemonSet, exp: DaemonSet)
    requires ConfigDiff(cur, exp).Changed?
    ensures FieldsAlike(ConfigDiff(cur, exp).updated, exp)
  {
    var u := ConfigDiff(cur, exp).updated;
    assert SameFields(u, exp);
    FieldsAlikeIff(u, exp);
  }

  /** Metadata, unmanaged annotations and unmanaged spec fields are never touched. */
  lemma UnmanagedIsUntouched(cur: DaemonSet, exp: DaemonSet, key: string)
    requires ConfigDiff(cur, exp).Changed?
    ensures var u := ConfigDiff(cur, exp).updated;
            && u.meta == cur.meta && u.podSelector == cur.podSelector && u.rest == cur.rest
            && (!Managed(key) ==> SameAt(u.annotations, cur.annotations, key))
  {}

  /** The whole container list is going to be replaced. */
  predicate Replaces(cur: seq<Container>, exp: seq<Container>) {
    ImageOf(cur, DNS) == "" || ImageOf(cur, PROXY) == "" || !SameCommandLines(cur, exp)
  }

  /** The probe that is copied by the current index is the one of the expected container of that name. */
  predicate ProbeLands(cur: seq<Container>, exp: seq<Container>, name: string) {
    var k := Find(cur, name);
    ReadyOf(cur, name) == ReadyOf(exp, name) || (k < |exp| && Ready(exp[k]) == ReadyOf(exp, name))
  }

  /** The probe is to be copied from an index that the expected list does not have. */
  predicate Beyond(cur: seq<Container>, exp: seq<Container>, name: string) {
    ReadyOf(cur, name) != ReadyOf(exp, name) && Find(cur, name) >= |exp|
  }

  /** The index is out of range for one of the containers that are looked at. */
  predicate Overruns(cur: seq<Container>, exp: seq<Container>) {
    ImageOf(cur, DNS) != "" && (Beyond(cur, exp, DNS) || (ImageOf(cur, PROXY) != "" && Beyond(cur, exp, PROXY)))
  }

  lemma MergePanicsIff(cur: seq<Container>, exp: seq<Container>)
    ensures MergeContainers(cur, exp) == None <==> Overruns(cur, exp)
  {}

  /** Exactly when the diff panics. */
  lemma PanicsIff(cur: DaemonSet, exp: DaemonSet)
    ensures ConfigDiff(cur, exp).Panics? <==> Overruns(cur.containers, exp.containers)
  {
    MergePanicsIff(cur.containers, exp.containers);
  }

  predicate Imageless(exp: seq<Container>) {
    ImageOf(exp, DNS) == "" || ImageOf(exp, PROXY) == ""
  }

  /** When one application of the diff is enough: it does not panic, and no probe is copied from the wrong index. */
  predicate Converges(cur: seq<Container>, exp: seq<Container>) {
    && !Imageless(exp) && !Overruns(cur, exp)
    && (Replaces(cur, exp) || (ProbeLands(cur, exp, DNS) && ProbeLands(cur, exp, PROXY)))
  }

  lemma MergeOneEffect(list: seq<Container>, cur: seq<Container>, exp: seq<Container>, name: string)
    requires |list| == |cur| && MergeOne(list, cur, exp, name).Keep?
    requires var k := Find(cur, name); k < |cur| ==> list[k] == cur[k]
    ensures var list' := MergeOne(list, cur, exp, name).list;
            var k := Find(cur, name);
            && |list'| == |list| && k < |cur|
            && (forall i :: 0 <= i < |list| && i != k ==> list'[i] == list[i])
            && list'[k].name == name && SameCommandLine(list'[k], cur[k])
            && list'[k].image == ImageOf(exp, name)
            && (if ReadyOf(cur, name) == ReadyOf(exp, name) then Ready(list'[k]) == ReadyOf(exp, name)
                else k < |exp| && list'[k].readiness == exp[k].readiness)
  {}

  /** The kept list has the names and command lines of the current one. */
  lemma MergeBothShape(cur: seq<Container>, exp: seq<Container>)
    requires MergeBoth(cur, exp).Keep?
    ensures var list := MergeBoth(cur, exp).list;
            && |list| == |cur|
            && (forall i :: 0 <= i < |cur| ==> list[i].name == cur[i].name && SameCommandLine(list[i], cur[i]))
  {
    MergeOneEffect(cur, cur, exp, DNS);
    assert Find(cur, DNS) != Find(cur, PROXY);
    MergeOneEffect(MergeOne(cur, cur, exp, DNS).list, cur, exp, PROXY);
  }

  /** Where a managed container is found in it, the image is the expected one and the probe that of the index. */
  lemma MergeBothAt(cur: seq<Container>, exp: seq<Container>, name: string)
    requires MergeBoth(cur, exp).Keep? && (name == DNS || name == PROXY)
    ensures var list, k := MergeBoth(cur, exp).list, Find(cur, name);
            && |list| == |cur| && k < |cur| && Find(list, name) == k && list[k].image == ImageOf(exp, name)
            && (if ReadyOf(cur, name) == ReadyOf(exp, name) then Ready(list[k]) == ReadyOf(exp, name)
                else k < |exp| && list[k].readiness == exp[k].readiness)
  {
    MergeOneEffect(cur, cur, exp, DNS);
    assert Find(cur, DNS) != Find(cur, PROXY);
    MergeOneEffect(MergeOne(cur, cur, exp, DNS).list, cur, exp, PROXY);
    MergeBothShape(cur, exp);
    FindByNames(MergeBoth(cur, exp).list, cur, name);
  }

  /** The kept list: same names and command lines, expected images, and a probe as expected iff it lands. */
  lemma MergeBothEffect(cur: seq<Container>, exp: seq<Container>)
    requires MergeBoth(cur, exp).Keep?
    ensures var list := MergeBoth(cur, exp).list;
            && |list| == |cur|
            && (forall i :: 0 <= i < |cur| ==> list[i].name == cur[i].name && SameCommandLine(list[i], cur[i]))
            && ImageOf(list, DNS) == ImageOf(exp, DNS) && ImageOf(list, PROXY) == ImageOf(exp, PROXY)
            && (ReadyOf(list, DNS) == ReadyOf(exp, DNS) <==> ProbeLands(cur, exp, DNS))
            && (ReadyOf(list, PROXY) == ReadyOf(exp, PROXY) <==> ProbeLands(cur, exp, PROXY))
  {
    MergeBothShape(cur, exp);
    MergeBothAt(cur, exp, DNS);
    MergeBothAt(cur, exp, PROXY);
  }

  lemma ContainersSettle(cur: seq<Container>, exp: seq<Container>)
    requires MergeContainers(cur, exp).Some?
    ensures var list := MergeContainers(cur, exp).value.0;
            SameNamed(list, exp, DNS) && SameNamed(list, exp, PROXY) && SameCommandLines(list, exp) <==>
            Converges(cur, exp)
  {
    MergePanicsIff(cur, exp);
    if !Replaces(cur, exp) {
      MergeBothEffect(cur, exp);
    }
  }

  /**
   One application of the diff is a fixed point exactly when the expected
   containers have images and no probe is copied from the wrong index.
   */
  lemma FixedPointIffConverges(cur: DaemonSet, exp: DaemonSet)
    requires ConfigDiff(cur, exp).Changed?
    ensures ConfigDiff(ConfigDiff(cur, exp).updated, exp) == Unchanged <==> Converges(cur.containers, exp.containers)
  {
    var u := ConfigDiff(cur, exp).updated;
    ContainersSettle(cur.containers, exp.containers);
    UnchangedMeansAgreement(u, exp);
    assert SameFields(u, exp);
  }

  /** The diff finds nothing to do, or what it makes of the daemonset leaves nothing to do. */
  predicate OneStep(cur: DaemonSet, exp: DaemonSet) {
    match ConfigDiff(cur, exp)
    case Panics => false
    case Unchanged => true
    case Changed(u) => ConfigDiff(u, exp) == Unchanged
  }

  /** For every two daemonsets, one application is enough if and only if they converge. */
  lemma OneStepIffConverges(cur: DaemonSet, exp: DaemonSet)
    ensures OneStep(cur, exp) <==> Converges(cur.containers, exp.containers)
  {
    PanicsIff(cur, exp);
    if ConfigDiff(cur, exp).Changed? {
      FixedPointIffConverges(cur, exp);
    } else if ConfigDiff(cur, exp).Unchanged? {
      UnchangedMeansAgreement(cur, exp);
    }
  }

  /** Expected containers with images, and every managed container that exists sits where it is expected. */
  predicate Aligned(cur: seq<Container>, exp: seq<Container>) {
    && ImageOf(exp, DNS) != "" && ImageOf(exp, PROXY) != ""
    && (Find(cur, DNS) < |cur| ==> Find(exp, DNS) == Find(cur, DNS))
    && (Find(cur, PROXY) < |cur| ==> Find(exp, PROXY) == Find(cur, PROXY))
  }

  /** Aligned container lists never panic and always converge. */
  lemma AlignedConverges(cur: DaemonSet, exp: DaemonSet)
    requires Aligned(cur.containers, exp.containers)
    ensures !ConfigDiff(cur, exp).Panics?
    ensures Converges(cur.containers, exp.containers)
  {}

  /** Copying a probe by index a second time has no effect. */
  lemma ProbeAgain(list: seq<Container>, exp: seq<Container>, name: string)
    requires var k := Find(list, name);
             && k < |list| == |exp| && list[k].image == ImageOf(exp, name) != ""
             && (Ready(list[k]) == ReadyOf(exp, name) || list[k].readiness == exp[k].readiness)
    ensures MergeOne(list, list, exp, name) == Keep(list, ReadyOf(list, name) != ReadyOf(exp, name))
  {
    var k := Find(list, name);
    assert list[k := list[k]] == list;
  }

  /** Where a probe does not land, the list is kept and not replaced. */
  lemma MisalignedIsKept(cur: seq<Container>, exp: seq<Container>)
    requires MergeContainers(cur, exp).Some? && !Imageless(exp) && !Converges(cur, exp)
    ensures !Replaces(cur, exp) && MergeBoth(cur, exp).Keep?
    ensures MergeContainers(cur, exp).value.0 == MergeBoth(cur, exp).list
    ensures !ProbeLands(cur, exp, DNS) || !ProbeLands(cur, exp, PROXY)
  {
    MergePanicsIff(cur, exp);
  }

  lemma MisalignedContainers(cur: seq<Container>, exp: seq<Container>)
    requires MergeContainers(cur, exp).Some? && !Imageless(exp) && !Converges(cur, exp)
    ensures var list := MergeContainers(cur, exp).value.0;
            MergeContainers(list, exp) == Some((list, true)) && !Imageless(list)
  {
    MisalignedIsKept(cur, exp);
    var list := MergeBoth(cur, exp).list;
    MergeBothEffect(cur, exp);
    MergeBothAt(cur, exp, DNS);
    MergeBothAt(cur, exp, PROXY);
    ProbesAgain(list, exp);
  }

  lemma ProbesAgain(list: seq<Container>, exp: seq<Container>)
    requires forall name :: name in {DNS, PROXY} ==>
               var k := Find(list, name);
               && k < |list| == |exp| && list[k].image == ImageOf(exp, name) != ""
               && (Ready(list[k]) == ReadyOf(exp, name) || list[k].readiness == exp[k].readiness)
    requires SameCommandLines(list, exp)
    requires ReadyOf(list, DNS) != ReadyOf(exp, DNS) || ReadyOf(list, PROXY) != ReadyOf(exp, PROXY)
    ensures MergeContainers(list, exp) == Some((list, true))
  {
    ProbeAgain(list, exp, DNS);
    ProbeAgain(list, exp, PROXY);
  }

  lemma MergeFieldsAgain(cur: DaemonSet, exp: DaemonSet, cs: seq<Container>)
    ensures var u := MergeFields(cur, exp, cs); MergeFields(u, exp, cs) == u
  {
    var u := MergeFields(cur, exp, cs);
    assert MergeAnnotations(u.annotations, exp.annotations) == u.annotations;
  }

  /**
   Where it does not converge although the expected images are set, it never will: every further
   application reports a change and produces the daemonset that is already there.
   */
  lemma MisalignedIsRewrittenForEver(cur: DaemonSet, exp: DaemonSet)
    requires ConfigDiff(cur, exp).Changed?
    requires !Imageless(exp.containers) && !Converges(cur.containers, exp.containers)
    ensures var u := ConfigDiff(cur, exp).updated; ConfigDiff(u, exp) == Changed(u)
  {
    MisalignedContainers(cur.containers, exp.containers);
    MergeFieldsAgain(cur, exp, MergeContainers(cur.containers, exp.containers).value.0);
  }

  // ---------------------------------------------------------------------
  // The two containers the operator expects
  // ---------------------------------------------------------------------

  const ASSET_PROBE := Probe("http:8181/ready", 10, 3, 3, 1, 3)

  /** The containers of the daemonset asset, with the images, arguments and mounts that are set at run time. */
  function AssetContainers(image: string, proxyImage: string, proxyArgs: seq<string>, caMounts: seq<VolumeMount>)
    : seq<Container>
  {
    [Container(
       DNS, image, ["coredns"], ["-conf", "/etc/coredns/Corefile"],
       [VolumeMount("config-volume", "/etc/coredns", true), VolumeMount("tmp-dir", "/tmp", false)] + caMounts,
       Some(ASSET_PROBE), "dns"),
     Container(
       PROXY, proxyImage, [], proxyArgs,
       [VolumeMount("metrics-tls", "/etc/tls/private", true), VolumeMount("tmp-dir", "/tmp", false)],
       None, "proxy")]
  }

  /** What matters of them: the names in this order, images, different command lines and different probes. */
  predicate AssetShaped(exp: seq<Container>) {
    && |exp| == 2 && exp[0].name == DNS && exp[1].name == PROXY && exp[0].image != "" && exp[1].image != ""
    && !SameCommandLine(exp[0], exp[1]) && Ready(exp[0]) != Ready(exp[1])
  }

  lemma AssetIsShaped(image: string, proxyImage: string, proxyArgs: seq<string>, caMounts: seq<VolumeMount>)
    requires image != "" && proxyImage != ""
    ensures AssetShaped(AssetContainers(image, proxyImage, proxyArgs, caMounts))
  {
    var exp := AssetContainers(image, proxyImage, proxyArgs, caMounts);
    assert |exp[0].command| == 1 && |exp[1].command| == 0;
  }

  lemma FindInPair(cs: seq<Container>, name: string)
    requires |cs| == 2
    ensures Find(cs, name) == if cs[0].name == name then 0 else if cs[1].name == name then 1 else 2
  {}

  /** The two names have changed places over command lines that stayed where they were. */
  predicate NamesExchanged(cur: seq<Container>, exp: seq<Container>) {
    && |cur| == 2 && cur[0].name == PROXY && cur[1].name == DNS && cur[0].image != "" && cur[1].image != ""
    && SameCommandLines(cur, exp)
  }

  /** A managed container stands behind two others and has another probe than the operator expects. */
  predicate StandsBehind(cur: seq<Container>, name: string, probe: Probe) {
    Find(cur, name) >= 2 && ReadyOf(cur, name) != probe
  }

  predicate AssetOverruns(cur: seq<Container>, exp: seq<Container>)
    requires AssetShaped(exp)
  {
    && ImageOf(cur, DNS) != ""
    && (|| StandsBehind(cur, DNS, Ready(exp[0]))
        || (ImageOf(cur, PROXY) != "" && StandsBehind(cur, PROXY, Ready(exp[1]))))
  }

  /** The names have changed places and at least one probe is not the one of its name. */
  predicate Misplaced(cur: seq<Container>, exp: seq<Container>)
    requires AssetShaped(exp)
  {
    NamesExchanged(cur, exp) && (Ready(cur[0]) != Ready(exp[1]) || Ready(cur[1]) != Ready(exp[0]))
  }

  /** For what the operator expects, the exact family of daemonsets for which one pass is not enough. */
  lemma AssetConvergesIff(cur: seq<Container>, exp: seq<Container>)
    requires AssetShaped(exp)
    ensures MergeContainers(cur, exp) == None <==> AssetOverruns(cur, exp)
    ensures !Converges(cur, exp) <==> AssetOverruns(cur, exp) || Misplaced(cur, exp)
  {
    MergePanicsIff(cur, exp);
    FindInPair(exp, DNS);
    FindInPair(exp, PROXY);
    if |cur| == 2 {
      FindInPair(cur, DNS);
      FindInPair(cur, PROXY);
    }
  }

  /** Another container in front, as a hand or a webhook may put it there, and a different probe: every pass panics. */
  lemma SidecarInFrontPanics(exp: seq<Container>, side: Container, probe: Option<Probe>) returns (cur: seq<Container>)
    requires AssetShaped(exp) && side.name != DNS && side.name != PROXY
    requires ValueOr(probe, ZERO_PROBE) != Ready(exp[0])
    ensures cur == [side, exp[1], exp[0].(readiness := probe)] && MergeContainers(cur, exp) == None
  {
    cur := [side, exp[1], exp[0].(readiness := probe)];
    assert cur[0].name != DNS && cur[1].name != DNS && cur[2].name == DNS;
    assert Find(cur, DNS) == 2;
    AssetConvergesIff(cur, exp);
  }

  /** Containers in another order, each with its own command line, are replaced as a whole: one pass is enough. */
  lemma ReorderedConverges(cur: DaemonSet, exp: DaemonSet)
    requires AssetShaped(exp.containers)
    requires |cur.containers| == 2 && cur.containers[0].name == PROXY && cur.containers[1].name == DNS
    requires SameCommandLine(cur.containers[0], exp.containers[1])
    ensures ConfigDiff(cur, exp).Changed?
    ensures ConfigDiff(cur, exp).updated.containers == exp.containers
    ensures ConfigDiff(ConfigDiff(cur, exp).updated, exp) == Unchanged
  {
    ReorderedIsReplaced(cur.containers, exp.containers);
    FixedPointIffConverges(cur, exp);
  }

  lemma ReorderedIsReplaced(cur: seq<Container>, exp: seq<Container>)
    requires AssetShaped(exp)
    requires |cur| == 2 && SameCommandLine(cur[0], exp[1])
    ensures MergeContainers(cur, exp) == Some((exp, true)) && Converges(cur, exp)
  {
    assert !SameCommandLine(cur[0], exp[0]);
    AssetConvergesIff(cur, exp);
    FindInPair(cur, DNS);
    FindInPair(cur, PROXY);
    assert !MergeBoth(cur, exp).Panic?;
  }

  /** Over the operator's own list, whatever its images and arguments: with the names exchanged it never settles. */
  lemma ExchangedNamesDoNotSettle(exp: seq<Container>) returns (cur: seq<Container>)
    requires AssetShaped(exp)
    ensures NamesExchanged(cur, exp) && MergeContainers(cur, exp).Some? && !Converges(cur, exp)
  {
    cur := [exp[0].(name := PROXY), exp[1].(name := DNS)];
    AssetConvergesIff(cur, exp);
    FindInPair(cur, DNS);
    FindInPair(cur, PROXY);
  }

  // ---------------------------------------------------------------------
  // Placement
  // ---------------------------------------------------------------------

  /**
   What the guard can see of the cluster. `pods` counts the daemonset's pods;
   either list may fail to load. `parses` tells which node selectors are valid.
   */
  datatype World = World(
    podSelectorValid: bool, pods: Option<nat>, nodes: Option<seq<Node>>, parses: Labels -> bool)

  predicate TolerateAll(tolerations: seq<Toleration>, taints: seq<Taint>) {
    forall taint :: taint in taints ==> exists t :: t in tolerations && Tolerates(t, taint)
  }

  /** A pod with this placement can be scheduled to the node. */
  predicate Schedulable(n: Node, selector: Labels, tolerations: seq<Toleration>) {
    !n.unschedulable && MatchesSelector(n.labels, selector) && TolerateAll(tolerations, n.taints)
  }

  datatype Verdict = IsSafe | IsUnsafe | Unknown

  function Guard(w: World, updated: DaemonSet): Verdict {
    if !w.podSelectorValid then IsSafe
    else if w.pods.None? then Unknown
    else if w.pods.value == 0 then IsSafe
    else if !w.parses(updated.nodeSelector) then IsUnsafe
    else if w.nodes.None? then Unknown
    else if exists n :: n in w.nodes.value && Schedulable(n, updated.nodeSelector, updated.tolerations) then IsSafe
    else IsUnsafe
  }

  method TolerationsTolerateTaints(tolerations: seq<Toleration>, taints: seq<Taint>) returns (r: bool)
    ensures r <==> TolerateAll(tolerations, taints)
  {
    for i := 0 to |taints|
      invariant TolerateAll(tolerations, taints[..i])
    {
      var tolerated := false;
      for j := 0 to |tolerations|
        invariant !tolerated
        invariant forall t :: t in tolerations[..j] ==> !Tolerates(t, taints[i])
      {
        if Tolerates(tolerations[j], taints[i]) {
          tolerated := true;
          assert tolerations[j] in tolerations;
          break;
        }
      }
      if !tolerated {
        assert tolerations[..|tolerations|] == tolerations;
        assert taints[i] in taints;
        return false;
      }
      assert taints[..i + 1] == taints[..i] + [taints[i]];
    }
    assert taints[..|taints|] == taints;
    return true;
  }

  method DaemonsetUpdateIsSafe(w: World, updated: DaemonSet) returns (r: Verdict)
    ensures r == Guard(w, updated)
  {
    if !w.podSelectorValid {
      return IsSafe;
    }
    if w.pods.None? {
      return Unknown;
    }
    if w.pods.value == 0 {
      return IsSafe;
    }
    if !w.parses(updated.nodeSelector) {
      return IsUnsafe;
    }
    if w.nodes.None? {
      return Unknown;
    }
    var nodes := w.nodes.value;
    for i := 0 to |nodes|
      invariant forall n :: n in nodes[..i] ==> !Schedulable(n, updated.nodeSelector, updated.tolerations)
    {
      if MatchesSelector(nodes[i].labels, updated.nodeSelector) && !nodes[i].unschedulable {
        var tolerated := TolerationsTolerateTaints(updated.tolerations, nodes[i].taints);
        if tolerated {
          assert nodes[i] in nodes;
          return IsSafe;
        }
      }
    }
    assert nodes[..|nodes|] == nodes;
    return IsUnsafe;
  }

  datatype Decision = Skip | Write(ds: DaemonSet) | Fail | Crash

  function KeepPlacement(updated: DaemonSet, current: DaemonSet): DaemonSet {
    updated.(tolerations := current.tolerations, nodeSelector := current.nodeSelector)
  }

  function Update(w: World, current: DaemonSet, desired: DaemonSet): Decision {
    match ConfigDiff(current, desired)
    case Panics => Crash
    case Unchanged => Skip
    case Changed(updated) =>
      match Guard(w, updated)
      case Unknown => Fail
      case IsSafe => Write(updated)
      case IsUnsafe =>
        var kept := KeepPlacement(updated, current);
        match ConfigDiff(current, kept)
        case Panics => Crash
        case Unchanged => Skip
        case Changed(_) => Write(kept)
  }

  method UpdateDnsDaemonSet(w: World, current: DaemonSet, desired: DaemonSet) returns (r: Decision)
    ensures r == Update(w, current, desired)
  {
    var diff := DaemonsetConfigChanged(current, desired);
    if diff.Panics? {
      return Crash;
    } else if diff.Unchanged? {
      return Skip;
    }
    var updated := diff.updated;
    var safe := DaemonsetUpdateIsSafe(w, updated);
    if safe.Unknown? {
      return Fail;
    } else if safe.IsUnsafe? {
      updated := KeepPlacement(updated, current);
      var again := DaemonsetConfigChanged(current, updated);
      if again.Panics? {
        return Crash;
      } else if again.Unchanged? {
        return Skip;
      }
    }
    return Write(updated);
  }

  /**
   Placement safety: whatever is written keeps the current placement, or was seen
   to fit some schedulable node, or replaces a daemonset without pods or without
   a valid selector.
   */
  lemma PlacementSafety(w: World, current: DaemonSet, desired: DaemonSet)
    requires Update(w, current, desired).Write?
    ensures var ds := Update(w, current, desired).ds;
            || (ds.nodeSelector == current.nodeSelector && ds.tolerations == current.tolerations)
            || !w.podSelectorValid || w.pods == Some(0)
            || (w.nodes.Some? && exists n :: n in w.nodes.value && Schedulable(n, ds.nodeSelector, ds.tolerations))
  {}

  predicate Tolerated(tolerations: seq<Toleration>, taint: Taint) {
    exists y :: 0 <= y < |tolerations| && Tolerates(tolerations[y], taint)
  }

  /** A pod with the desired placement can run on the node, by the fields of the node. */
  predicate HasRoom(n: Node, desired: DaemonSet) {
    && !n.unschedulable
    && (forall k :: k in desired.nodeSelector ==> k in n.labels && n.labels[k] == desired.nodeSelector[k])
    && (forall x :: 0 <= x < |n.taints| ==> Tolerated(desired.tolerations, n.taints[x]))
  }

  /** There is nothing to lose, or some listed node has room. */
  predicate MayMove(w: World, desired: DaemonSet) {
    || !w.podSelectorValid
    || w.pods == Some(0)
    || (w.parses(desired.nodeSelector) && w.nodes.Some? && exists n :: n in w.nodes.value && HasRoom(n, desired))
  }

  lemma ToleratedIff(tolerations: seq<Toleration>, taint: Taint)
    ensures Tolerated(tolerations, taint) <==> exists t :: t in tolerations && Tolerates(t, taint)
  {
    if t :| t in tolerations && Tolerates(t, taint) {
      var y :| 0 <= y < |tolerations| && tolerations[y] == t;
    }
    if y :| 0 <= y < |tolerations| && Tolerates(tolerations[y], taint) {
      assert tolerations[y] in tolerations;
    }
  }

  lemma HasRoomIff(n: Node, desired: DaemonSet)
    ensures Schedulable(n, desired.nodeSelector, desired.tolerations) <==> HasRoom(n, desired)
  {
    forall x | 0 <= x < |n.taints|
      ensures n.taints[x] in n.taints
      ensures Tolerated(desired.tolerations, n.taints[x]) <==>
              exists t :: t in desired.tolerations && Tolerates(t, n.taints[x])
    {
      ToleratedIff(desired.tolerations, n.taints[x]);
    }
    if Schedulable(n, desired.nodeSelector, desired.tolerations) {
      forall x | 0 <= x < |n.taints|
        ensures Tolerated(desired.tolerations, n.taints[x])
      {
        assert n.taints[x] in n.taints;
      }
    }
    if HasRoom(n, desired) {
      forall taint | taint in n.taints
        ensures exists t :: t in desired.tolerations && Tolerates(t, taint)
      {
        var x :| 0 <= x < |n.taints| && n.taints[x] == taint;
        assert Tolerated(desired.tolerations, n.taints[x]);
      }
    }
  }

  /** The cluster could be looked at as far as that is needed. */
  predicate Visible(w: World, desired: DaemonSet) {
    || !w.podSelectorValid
    || (w.pods.Some? && (w.pods.value == 0 || !w.parses(desired.nodeSelector) || w.nodes.Some?))
  }

  lemma GuardSays(w: World, desired: DaemonSet)
    ensures Guard(w, desired).Unknown? <==> !Visible(w, desired)
    ensures Visible(w, desired) ==> (Guard(w, desired).IsSafe? <==> MayMove(w, desired))
  {
    if w.nodes.Some? {
      forall n | n in w.nodes.value
        ensures Schedulable(n, desired.nodeSelector, desired.tolerations) <==> HasRoom(n, desired)
      {
        HasRoomIff(n, desired);
      }
    }
  }

  /**
   The wanted placement is rolled out exactly when there is room for it or nothing to lose; otherwise the current
   one is kept. A cluster that cannot be looked at is an error, and then nothing is written.
   */
  lemma PlacementIsRolledOutIff(w: World, current: DaemonSet, desired: DaemonSet)
    requires ConfigDiff(current, desired).Changed?
    ensures var r := Update(w, current, desired);
            if !Visible(w, desired) then r == Fail
            else if MayMove(w, desired) then
              r.Write? && r.ds.nodeSelector == desired.nodeSelector && r.ds.tolerations == desired.tolerations
            else
              r == Skip
              || (r.Write? && r.ds.nodeSelector == current.nodeSelector && r.ds.tolerations == current.tolerations)
  {
    var u := ConfigDiff(current, desired).updated;
    GuardByPlacement(w, u, desired);
    GuardSays(w, desired);
    KeptDoesNotPanic(current.containers, desired.containers);
  }

  /** Every managed field is as desired, or is part of a placement that was not allowed to change. */
  predicate AgreesButPlacement(ds: DaemonSet, desired: DaemonSet) {
    Agrees(ds, KeepPlacement(desired, ds))
  }

  lemma MergeSettles(current: DaemonSet, desired: DaemonSet)
    requires Converges(current.containers, desired.containers) && ConfigDiff(current, desired).Changed?
    ensures Agrees(ConfigDiff(current, desired).updated, desired)
  {
    FixedPointIffConverges(current, desired);
    UnchangedMeansAgreement(ConfigDiff(current, desired).updated, desired);
  }

  /** Agreement is agreement but for the placement, before and after the placement is put back. */
  lemma PlacementAside(u: DaemonSet, current: DaemonSet, desired: DaemonSet)
    requires Agrees(u, desired)
    ensures AgreesButPlacement(u, desired) && AgreesButPlacement(KeepPlacement(u, current), desired)
  {
    var kept := KeepPlacement(u, current);
    assert SameFields(kept, KeepPlacement(desired, kept));
  }

  /** What is written is the merged daemonset, with its own placement or with the current one. */
  lemma WrittenIs(w: World, current: DaemonSet, desired: DaemonSet)
    requires Update(w, current, desired).Write?
    ensures ConfigDiff(current, desired).Changed?
    ensures var u, ds := ConfigDiff(current, desired).updated, Update(w, current, desired).ds;
            && (Guard(w, u).IsSafe? || Guard(w, u).IsUnsafe?)
            && ds == if Guard(w, u).IsSafe? then u else KeepPlacement(u, current)
  {}

  /** On the unsafe path too, everything but the placement converges. */
  lemma UnsafePathConverges(w: World, current: DaemonSet, desired: DaemonSet)
    requires Converges(current.containers, desired.containers)
    requires Update(w, current, desired).Write?
    ensures AgreesButPlacement(Update(w, current, desired).ds, desired)
  {
    WrittenIs(w, current, desired);
    MergeSettles(current, desired);
    PlacementAside(ConfigDiff(current, desired).updated, current, desired);
  }

  lemma AgreedContainersAreKept(cur: seq<Container>, exp: seq<Container>)
    requires SameNamed(cur, exp, DNS) && SameNamed(cur, exp, PROXY) && SameCommandLines(cur, exp)
    ensures MergeContainers(cur, exp) == Some((cur, false))
  {
    assert MergeOne(cur, cur, exp, DNS) == Keep(cur, false);
  }

  lemma AgreesConverges(ds: DaemonSet, desired: DaemonSet)
    requires AgreesButPlacement(ds, desired)
    ensures ConfigDiff(ds, desired) == Unchanged || ConfigDiff(ds, desired).Changed?
    ensures ConfigDiff(ds, desired).Changed? ==>
              var u := ConfigDiff(ds, desired).updated;
              && u.nodeSelector == desired.nodeSelector && u.tolerations == desired.tolerations
              && ConfigDiff(ds, KeepPlacement(u, ds)) == Unchanged
  {
    AgreedContainersAreKept(ds.containers, desired.containers);
    if ConfigDiff(ds, desired).Changed? {
      var u := ConfigDiff(ds, desired).updated;
      assert u == MergeFields(ds, desired, ds.containers);
      assert SameFields(ds, KeepPlacement(u, ds));
      AgreedContainersAreKept(ds.containers, ds.containers);
    }
  }

  /** The guard looks at nothing of an update but its placement. */
  lemma GuardByPlacement(w: World, a: DaemonSet, b: DaemonSet)
    requires a.nodeSelector == b.nodeSelector && a.tolerations == b.tolerations
    ensures Guard(w, a) == Guard(w, b)
  {}

  predicate Writes(w: World, current: DaemonSet, desired: DaemonSet) {
    Update(w, current, desired).Write?
  }

  function AfterPass(w: World, current: DaemonSet, desired: DaemonSet): DaemonSet {
    if Writes(w, current, desired) then Update(w, current, desired).ds else current
  }

  /** The store after `n` passes with nothing else changing. */
  function Passes(w: World, current: DaemonSet, desired: DaemonSet, n: nat): DaemonSet {
    if n == 0 then current else AfterPass(w, Passes(w, current, desired, n - 1), desired)
  }

  lemma AgreedIsSkipped(w: World, ds: DaemonSet, desired: DaemonSet)
    requires Agrees(ds, desired)
    ensures Update(w, ds, desired) == Skip
  {
    UnchangedMeansAgreement(ds, desired);
  }

  lemma UnsafeIsSkipped(w: World, ds: DaemonSet, desired: DaemonSet)
    requires AgreesButPlacement(ds, desired) && Guard(w, desired).IsUnsafe?
    ensures Update(w, ds, desired) == Skip
  {
    AgreesConverges(ds, desired);
    if ConfigDiff(ds, desired).Changed? {
      GuardByPlacement(w, ConfigDiff(ds, desired).updated, desired);
    }
  }

  lemma WrittenIsStable(w: World, current: DaemonSet, desired: DaemonSet)
    requires Converges(current.containers, desired.containers)
    requires Update(w, current, desired).Write?
    ensures Update(w, Update(w, current, desired).ds, desired) == Skip
  {
    var ds := Update(w, current, desired).ds;
    WrittenIs(w, current, desired);
    var u := ConfigDiff(current, desired).updated;
    GuardByPlacement(w, u, desired);
    MergeSettles(current, desired);
    if Guard(w, u).IsSafe? {
      AgreedIsSkipped(w, ds, desired);
    } else {
      PlacementAside(u, current, desired);
      UnsafeIsSkipped(w, ds, desired);
    }
  }

  // ---------------------------------------------------------------------
  // Exactly when passes go on writing
  // ---------------------------------------------------------------------

  /** Putting the placement back cannot make the second diff panic. */
  lemma KeptDoesNotPanic(cur: seq<Container>, exp: seq<Container>)
    requires MergeContainers(cur, exp).Some?
    ensures MergeContainers(cur, MergeContainers(cur, exp).value.0).Some?
  {
    var list := MergeContainers(cur, exp).value.0;
    MergePanicsIff(cur, exp);
    MergePanicsIff(cur, list);
    if !Replaces(cur, exp) {
      MergeBothShape(cur, exp);
    }
  }

  /** A pass panics exactly when the diff does, whatever the nodes and pods. */
  lemma CrashIff(w: World, current: DaemonSet, desired: DaemonSet)
    ensures Update(w, current, desired).Crash? <==> Overruns(current.containers, desired.containers)
  {
    PanicsIff(current, desired);
    if ConfigDiff(current, desired).Changed? {
      KeptDoesNotPanic(current.containers, desired.containers);
    }
  }

  lemma ImagelessIsReplaced(cur: seq<Container>, exp: seq<Container>)
    requires MergeContainers(cur, exp).Some? && Imageless(exp)
    ensures MergeContainers(MergeContainers(cur, exp).value.0, exp) == Some((exp, true))
  {
    var list := MergeContainers(cur, exp).value.0;
    if !Replaces(cur, exp) {
      MergeBothEffect(cur, exp);
    }
    MergePanicsIff(list, exp);
    assert ImageOf(list, DNS) == "" || ImageOf(list, PROXY) == "";
  }

  /** Without an expected image the containers are replaced on every pass, whatever becomes of the placement. */
  lemma ImagelessIsWritten(w: World, current: DaemonSet, desired: DaemonSet)
    requires Writes(w, current, desired) && Imageless(desired.containers)
    ensures Writes(w, Update(w, current, desired).ds, desired)
  {
    WrittenIs(w, current, desired);
    ImagelessIsReplaced(current.containers, desired.containers);
    var u, ds := ConfigDiff(current, desired).updated, Update(w, current, desired).ds;
    assert MergeContainers(ds.containers, desired.containers) == Some((desired.containers, true));
    var next := ConfigDiff(ds, desired).updated;
    GuardByPlacement(w, u, next);
  }

  lemma KeptAgain(current: DaemonSet, desired: DaemonSet, cs: seq<Container>)
    ensures var ds := KeepPlacement(MergeFields(current, desired, cs), current);
            KeepPlacement(MergeFields(ds, desired, cs), ds) == ds
  {
    MergeFieldsAgain(current, desired, cs);
  }

  lemma SelfAgrees(ds: DaemonSet)
    requires !Imageless(ds.containers)
    ensures ConfigDiff(ds, ds) == Unchanged
  {
    UnchangedMeansAgreement(ds, ds);
  }

  /** With an unsafe placement a misplaced probe is written once and then left alone. */
  lemma MisplacedUnderUnsafePlacement(w: World, current: DaemonSet, desired: DaemonSet)
    requires Writes(w, current, desired) && !Converges(current.containers, desired.containers)
    requires !Imageless(desired.containers) && Guard(w, desired).IsUnsafe?
    ensures Update(w, Update(w, current, desired).ds, desired) == Skip
  {
    WrittenIs(w, current, desired);
    var u, ds := ConfigDiff(current, desired).updated, Update(w, current, desired).ds;
    GuardByPlacement(w, u, desired);
    MisalignedContainers(current.containers, desired.containers);
    var cs := MergeContainers(current.containers, desired.containers).value.0;
    assert ds == KeepPlacement(MergeFields(current, desired, cs), current);
    assert ConfigDiff(ds, desired) == Changed(MergeFields(ds, desired, cs));
    GuardByPlacement(w, MergeFields(ds, desired, cs), desired);
    KeptAgain(current, desired, cs);
    SelfAgrees(ds);
  }

  lemma MisplacedUnderSafePlacement(w: World, current: DaemonSet, desired: DaemonSet)
    requires Writes(w, current, desired) && !Converges(current.containers, desired.containers)
    requires !Imageless(desired.containers) && Guard(w, desired).IsSafe?
    ensures Update(w, Update(w, current, desired).ds, desired) == Write(Update(w, current, desired).ds)
  {
    WrittenIs(w, current, desired);
    GuardByPlacement(w, ConfigDiff(current, desired).updated, desired);
    MisalignedIsRewrittenForEver(current, desired);
  }

  /** The pass after a writing pass writes again exactly in these cases. */
  predicate GoesOnWriting(w: World, current: DaemonSet, desired: DaemonSet) {
    && !Converges(current.containers, desired.containers)
    && (Guard(w, desired).IsSafe? || Imageless(desired.containers))
  }

  lemma SecondPassWritesIff(w: World, current: DaemonSet, desired: DaemonSet)
    requires Writes(w, current, desired)
    ensures Writes(w, Update(w, current, desired).ds, desired) <==> GoesOnWriting(w, current, desired)
  {
    WrittenIs(w, current, desired);
    GuardByPlacement(w, ConfigDiff(current, desired).updated, desired);
    if Converges(current.containers, desired.containers) {
      WrittenIsStable(w, current, desired);
    } else if Imageless(desired.containers) {
      ImagelessIsWritten(w, current, desired);
    } else if Guard(w, desired).IsSafe? {
      MisplacedUnderSafePlacement(w, current, desired);
    } else {
      MisplacedUnderUnsafePlacement(w, current, desired);
    }
  }

  /** A daemonset that goes on being written does so for ever. */
  lemma StaysWriting(w: World, current: DaemonSet, desired: DaemonSet)
    requires Writes(w, current, desired) && GoesOnWriting(w, current, desired)
    ensures var ds := Update(w, current, desired).ds; Writes(w, ds, desired) && GoesOnWriting(w, ds, desired)
  {
    SecondPassWritesIff(w, current, desired);
    if !Imageless(desired.containers) {
      MisplacedUnderSafePlacement(w, current, desired);
      var ds := Update(w, current, desired).ds;
      if Converges(ds.containers, desired.containers) {
        WrittenIsStable(w, ds, desired);
      }
    }
  }

  /**
   For all daemonsets, nodes and pods: a pass after the first one writes if and only if the first one wrote and
   either no probe lands although the placement is allowed, or an expected image is missing.
   */
  lemma {:induction false} PassesWriteIff(w: World, current: DaemonSet, desired: DaemonSet, n: nat)
    requires n > 0
    ensures Writes(w, Passes(w, current, desired, n), desired) <==>
            Writes(w, current, desired) && GoesOnWriting(w, current, desired)
    ensures Writes(w, Passes(w, current, desired, n), desired) ==>
            GoesOnWriting(w, Passes(w, current, desired, n), desired)
  {
    var before := Passes(w, current, desired, n - 1);
    if n > 1 {
      PassesWriteIff(w, current, desired, n - 1);
    }
    if Writes(w, before, desired) {
      SecondPassWritesIff(w, before, desired);
      if GoesOnWriting(w, before, desired) {
        StaysWriting(w, before, desired);
      }
    }
  }

  lemma NotWrittenStays(w: World, ds: DaemonSet, desired: DaemonSet)
    requires !Writes(w, ds, desired)
    ensures AfterPass(w, ds, desired) == ds
  {}

  /** In all other cases at most the first pass writes, and the daemonset stays what that pass left. */
  lemma {:induction false} RepeatedPassesWriteNothing(w: World, current: DaemonSet, desired: DaemonSet, n: nat)
    requires n > 0 && !(Writes(w, current, desired) && GoesOnWriting(w, current, desired))
    ensures !Writes(w, Passes(w, current, desired, n), desired)
    ensures Passes(w, current, desired, n) == AfterPass(w, current, desired)
  {
    if n == 1 {
      assert Passes(w, current, desired, 0) == current;
      PassesWriteIff(w, current, desired, 1);
    } else {
      RepeatedPassesWriteNothing(w, current, desired, n - 1);
      NotWrittenStays(w, Passes(w, current, desired, n - 1), desired);
    }
  }

  // ---------------------------------------------------------------------
  // What an unsafe placement does not hold back
  // ---------------------------------------------------------------------

  lemma AgreesTransitive(a: seq<Container>, b: seq<Container>, c: seq<Container>, name: string)
    requires SameNamed(a, b, name) && SameNamed(b, c, name)
    ensures SameNamed(a, c, name)
  {}

  lemma KeptPlacementAgrees(current: DaemonSet, u: DaemonSet, desired: DaemonSet)
    requires Agrees(u, desired) && Agrees(current, KeepPlacement(u, current))
    ensures AgreesButPlacement(current, desired)
  {
    AgreesTransitive(current.containers, u.containers, desired.containers, DNS);
    AgreesTransitive(current.containers, u.containers, desired.containers, PROXY);
    var kept := KeepPlacement(u, current);
    assert SameFields(u, desired) && SameFields(current, kept);
    SameVolumesTransitive(current.volumes, u.volumes, desired.volumes);
  }

  lemma SameVolumesTransitive(a: seq<Volume>, b: seq<Volume>, c: seq<Volume>)
    requires SameVolumes(a, b) && SameVolumes(b, c)
    ensures SameVolumes(a, c)
  {}

  /**
   When the wanted placement may not be rolled out, a pass writes nothing exactly when every other managed field is
   already as desired; so everything else is still brought up to date.
   */
  lemma UnsafeSkipsIff(w: World, current: DaemonSet, desired: DaemonSet)
    requires Converges(current.containers, desired.containers)
    requires Visible(w, desired) && !MayMove(w, desired)
    ensures Update(w, current, desired) == Skip <==>
            && FieldsAlike(current, KeepPlacement(desired, current))
            && ContainersAlike(current.containers, desired.containers)
    ensures Update(w, current, desired) == Skip || Update(w, current, desired).Write?
  {
    GuardSays(w, desired);
    UnchangedSays(current, KeepPlacement(desired, current));
    UnchangedMeansAgreement(current, KeepPlacement(desired, current));
    OneStepIffConverges(current, desired);
    if AgreesButPlacement(current, desired) {
      UnsafeIsSkipped(w, current, desired);
    } else if ConfigDiff(current, desired).Changed? {
      UnsafeWrites(w, current, desired);
    } else {
      UnchangedMeansAgreement(current, desired);
      PlacementAside(current, current, desired);
    }
  }

  lemma UnsafeWrites(w: World, current: DaemonSet, desired: DaemonSet)
    requires Converges(current.containers, desired.containers) && ConfigDiff(current, desired).Changed?
    requires Guard(w, desired).IsUnsafe? && !AgreesButPlacement(current, desired)
    ensures Update(w, current, desired).Write?
  {
    var u := ConfigDiff(current, desired).updated;
    GuardByPlacement(w, u, desired);
    MergeSettles(current, desired);
    KeptDoesNotPanic(current.containers, desired.containers);
    var kept := KeepPlacement(u, current);
    UnchangedMeansAgreement(current, kept);
    if Agrees(current, kept) {
      KeptPlacementAgrees(current, u, desired);
    }
  }
}

/**
 CA bundles of TLS upstreams: their revisions (pkg/operator/controller/controller.go), the volumes and
 mounts of the DNS daemonset (pkg/operator/controller/controller_dns_daemonset.go), and their agreement
 with the paths in the Corefile.
 */
module CaBundles {
  import opened Wrappers
  import opened TlsSettings
  import opened Corefile
  import opened StringSlices
  import DaemonSets

  type Volume = DaemonSets.Volume

  type VolumeMount = DaemonSets.VolumeMount

  /** The default resolvers' transport, then each server's. */
  function Transports(dns: Dns): (ts: seq<Transport>)
    ensures |ts| == |dns.servers| + 1 && ts[0] == dns.resolving.transport
    ensures forall i :: 0 <= i < |dns.servers| ==> ts[i + 1] == dns.servers[i].transport
  {
    [dns.resolving.transport] + seq(|dns.servers|, i requires 0 <= i < |dns.servers| => dns.servers[i].transport)
  }

  /** TLS is on and a bundle is named. */
  predicate References(t: Transport) {
    t.mode == TLS && t.tls.Some? && t.tls.value.caBundle != ""
  }

  function CopyName(bundle: string): string {
    "ca-" + bundle
  }

  lemma CopyNameInjective(a: string, b: string)
    requires CopyName(a) == CopyName(b)
    ensures a == b
  {
    assert a == CopyName(a)[3..];
    assert b == CopyName(b)[3..];
  }

  // ---------------------------------------------------------------------
  // Revisions
  // ---------------------------------------------------------------------

  function Revision(bundle: string, version: string): string {
    CopyName(bundle) + "-" + version
  }

  /** Adds the revision of the bundle of `t`, if it refers to one and its copy could be read. */
  function Recorded(m: Revisions, t: Transport, version: Option<string>): Revisions {
    if References(t) && version.Some? then
      m[t.tls.value.caBundle := Revision(t.tls.value.caBundle, version.value)]
    else m
  }

  /** `gets(i)` is the resource version read for the i-th transport; None when it could not be read. */
  function RevisionsOf(ts: seq<Transport>, gets: nat -> Option<string>): Revisions {
    if ts == [] then map[]
    else Recorded(RevisionsOf(ts[..|ts| - 1], gets), ts[|ts| - 1], gets(|ts| - 1))
  }

  lemma RevisionsStep(ts: seq<Transport>, gets: nat -> Option<string>, k: nat)
    requires k < |ts|
    ensures RevisionsOf(ts[..k + 1], gets) == Recorded(RevisionsOf(ts[..k], gets), ts[k], gets(k))
  {
    assert ts[..k + 1][..k] == ts[..k];
  }

  method RecordRevision(m: Revisions, t: Transport, version: Option<string>) returns (r: Revisions)
    ensures r == Recorded(m, t, version)
  {
    r := m;
    if t.mode == TLS {
      if t.tls.Some? && t.tls.value.caBundle != "" {
        var bundle := t.tls.value.caBundle;
        if version.Some? {
          r := r[bundle := Revision(bundle, version.value)];
        }
      }
    }
  }

  method CaBundleRevisionMap(dns: Dns, gets: nat -> Option<string>) returns (m: Revisions)
    ensures m == RevisionsOf(Transports(dns), gets)
  {
    ghost var ts := Transports(dns);
    RevisionsStep(ts, gets, 0);
    m := RecordRevision(map[], dns.resolving.transport, gets(0));
    for i := 0 to |dns.servers|
      invariant m == RevisionsOf(ts[..i + 1], gets)
    {
      RevisionsStep(ts, gets, i + 1);
      m := RecordRevision(m, dns.servers[i].transport, gets(i + 1));
    }
    assert ts[..|ts|] == ts;
  }

  /** The i-th transport refers to `bundle` and its copy could be read. */
  predicate Reads(ts: seq<Transport>, gets: nat -> Option<string>, i: nat, bundle: string) {
    i < |ts| && References(ts[i]) && ts[i].tls.value.caBundle == bundle && gets(i).Some?
  }

  /** The keys are exactly the bundles that TLS refers to and that could be read; the last reading wins. */
  lemma {:induction false} RevisionsMeaning(ts: seq<Transport>, gets: nat -> Option<string>, bundle: string)
    ensures bundle in RevisionsOf(ts, gets) <==> exists i: nat :: Reads(ts, gets, i, bundle)
    ensures bundle in RevisionsOf(ts, gets) ==>
      exists i: nat ::
        && Reads(ts, gets, i, bundle)
        && RevisionsOf(ts, gets)[bundle] == Revision(bundle, gets(i).value)
        && forall j: nat :: Reads(ts, gets, j, bundle) ==> j <= i
  {
    if ts != [] {
      var k := |ts| - 1;
      RevisionsMeaning(ts[..k], gets, bundle);
      forall i: nat | i < k
        ensures Reads(ts, gets, i, bundle) <==> Reads(ts[..k], gets, i, bundle)
      {}
      if Reads(ts, gets, k, bundle) {
        assert RevisionsOf(ts, gets)[bundle] == Revision(bundle, gets(k).value);
      } else {
        assert forall i: nat :: Reads(ts, gets, i, bundle) <==> Reads(ts[..k], gets, i, bundle);
      }
    }
  }

  // ---------------------------------------------------------------------
  // Volumes and mounts
  // ---------------------------------------------------------------------

  /** A transport gets a volume whenever its bundle has a revision, whether TLS is on or not. */
  predicate NeedsMount(t: Transport, revisions: Revisions) {
    t.tls.Some? && t.tls.value.caBundle != "" && t.tls.value.caBundle in revisions
  }

  function VolumeOf(bundle: string): Volume {
    DaemonSets.Volume(CopyName(bundle), DaemonSets.ConfigMapSource(CopyName(bundle), [(CA_FILE, CA_FILE)], None, None))
  }

  function MountOf(tls: Tls, revisions: Revisions): VolumeMount
    requires tls.caBundle in revisions
  {
    DaemonSets.VolumeMount(CopyName(tls.caBundle), MountDir(tls.serverName, revisions[tls.caBundle]), true)
  }

  function VolumesOf(t: Transport, revisions: Revisions): seq<Volume> {
    if NeedsMount(t, revisions) then [VolumeOf(t.tls.value.caBundle)] else []
  }

  function MountsOf(t: Transport, revisions: Revisions): seq<VolumeMount> {
    if NeedsMount(t, revisions) then [MountOf(t.tls.value, revisions)] else []
  }

  function CaVolumes(ts: seq<Transport>, revisions: Revisions): seq<Volume> {
    if ts == [] then [] else CaVolumes(ts[..|ts| - 1], revisions) + VolumesOf(ts[|ts| - 1], revisions)
  }

  function CaMounts(ts: seq<Transport>, revisions: Revisions): seq<VolumeMount> {
    if ts == [] then [] else CaMounts(ts[..|ts| - 1], revisions) + MountsOf(ts[|ts| - 1], revisions)
  }

  /** The volumes and mounts after those of the first `k` transports have been appended to given ones. */
  datatype Mounting = Mounting(volumes: seq<Volume>, mounts: seq<VolumeMount>)

  function Extended(given: Mounting, t: Transport, revisions: Revisions): Mounting {
    Mounting(given.volumes + VolumesOf(t, revisions), given.mounts + MountsOf(t, revisions))
  }

  function ExtendedAll(given: Mounting, ts: seq<Transport>, k: nat, revisions: Revisions): Mounting
    requires k <= |ts|
  {
    if k == 0 then given else Extended(ExtendedAll(given, ts, k - 1, revisions), ts[k - 1], revisions)
  }

  lemma {:induction false} ExtendedAllAppends(given: Mounting, ts: seq<Transport>, k: nat, revisions: Revisions)
    requires k <= |ts|
    ensures ExtendedAll(given, ts, k, revisions)
         == Mounting(given.volumes + CaVolumes(ts[..k], revisions), given.mounts + CaMounts(ts[..k], revisions))
  {
    if k > 0 {
      ExtendedAllAppends(given, ts, k - 1, revisions);
      assert ts[..k][..k - 1] == ts[..k - 1];
      Regroup(given.volumes, CaVolumes(ts[..k - 1], revisions), VolumesOf(ts[k - 1], revisions));
      Regroup(given.mounts, CaMounts(ts[..k - 1], revisions), MountsOf(ts[k - 1], revisions));
    }
  }

  method CaBundleVolAndMount(bundle: string, serverName: string, revisions: Revisions)
    returns (r: Option<(Volume, VolumeMount)>)
    ensures r ==
            if bundle in revisions then Some((VolumeOf(bundle), MountOf(Tls(serverName, bundle), revisions))) else None
  {
    if bundle !in revisions {
      return None;
    }
    var name := CopyName(bundle);
    var volume := DaemonSets.Volume(name, DaemonSets.ConfigMapSource(name, [(CA_FILE, CA_FILE)], None, None));
    return Some((volume, DaemonSets.VolumeMount(name, MountDir(serverName, revisions[bundle]), true)));
  }

  method AddOne(t: Transport, revisions: Revisions, given: Mounting) returns (r: Mounting)
    ensures r == Extended(given, t, revisions)
  {
    r := given;
    if t.tls.Some? && t.tls.value.caBundle != "" {
      var added := CaBundleVolAndMount(t.tls.value.caBundle, t.tls.value.serverName, revisions);
      if added.Some? {
        r := Mounting(r.volumes + [added.value.0], r.mounts + [added.value.1]);
      }
    }
  }

  /** Appends to the volumes and mounts that the daemonset asset brings along. */
  method AddCaVolumes(dns: Dns, revisions: Revisions, given: Mounting) returns (r: Mounting)
    ensures r.volumes == given.volumes + CaVolumes(Transports(dns), revisions)
    ensures r.mounts == given.mounts + CaMounts(Transports(dns), revisions)
  {
    ghost var ts := Transports(dns);
    r := AddOne(dns.resolving.transport, revisions, given);
    r := AddServers(dns.servers, revisions, given, ts, r);
    ExtendedAllAppends(given, ts, |ts|, revisions);
    assert ts[..|ts|] == ts;
  }

  method AddServers(
    servers: seq<Server>, revisions: Revisions, ghost given: Mounting, ghost ts: seq<Transport>, first: Mounting)
    returns (r: Mounting)
    requires |ts| == |servers| + 1 && forall i :: 0 <= i < |servers| ==> ts[i + 1] == servers[i].transport
    requires first == ExtendedAll(given, ts, 1, revisions)
    ensures r == ExtendedAll(given, ts, |ts|, revisions)
  {
    r := first;
    for i := 0 to |servers|
      invariant r == ExtendedAll(given, ts, i + 1, revisions)
    {
      r := AddOne(servers[i].transport, revisions, r);
    }
  }

  lemma {:induction false} MountedAt(ts: seq<Transport>, revisions: Revisions, i: nat)
    requires i < |ts| && NeedsMount(ts[i], revisions)
    ensures VolumeOf(ts[i].tls.value.caBundle) in CaVolumes(ts, revisions)
    ensures MountOf(ts[i].tls.value, revisions) in CaMounts(ts, revisions)
  {
    var k := |ts| - 1;
    if i < k {
      MountedAt(ts[..k], revisions, i);
    }
  }

  // ---------------------------------------------------------------------
  // Path coherence
  // ---------------------------------------------------------------------

  /** `path` is the bundle file in the directory of a mount whose volume holds the copy of `bundle`. */
  predicate Backed(path: string, bundle: string, volumes: seq<Volume>, mounts: seq<VolumeMount>) {
    exists v, m ::
      && v in volumes && m in mounts && m.name == v.name && m.readOnly
      && path == m.mountPath + "/" + CA_FILE
      && v.source.ConfigMapSource? && v.source.name == CopyName(bundle) && (CA_FILE, CA_FILE) in v.source.items
  }

  /** The blocks of a configuration, in the order of the transports. */
  function Blocks(c: Config): seq<Block> {
    [c.default] + c.servers
  }

  /** What a block says about TLS, by the transport it is rendered from. */
  predicate ShowsTls(b: Block, t: Transport, revisions: Revisions) {
    && b.serverName == (if Named(t) then Some(t.tls.value.serverName) else None)
    && b.caPath == (if Named(t) then CaPath(t.tls.value, revisions) else None)
  }

  lemma ServerBlock(dns: Dns, revisions: Revisions, i: nat)
    requires i < |dns.servers|
    ensures ShowsTls(RenderServers(Sanitized(dns).servers, revisions)[i], Clean(dns.servers[i].transport), revisions)
  {
    assert Sanitized(dns).servers[i] == CleanServer(dns.servers[i]);
  }

  lemma GeneratedBlocks(dns: Dns, isIP: string -> bool, revisions: Revisions)
    requires Generate(dns, isIP, revisions).Ok?
    ensures var c := Generate(dns, isIP, revisions).config;
            && |c.servers| == |dns.servers|
            && ShowsTls(c.default, Clean(dns.resolving.transport), revisions)
            && (forall j :: 0 <= j < |c.servers| ==>
                  ShowsTls(c.servers[j], Clean(dns.servers[j].transport), revisions))
  {
    var c := Generate(dns, isIP, revisions).config;
    assert c.servers == RenderServers(Sanitized(dns).servers, revisions);
    forall j | 0 <= j < |c.servers|
      ensures ShowsTls(c.servers[j], Clean(dns.servers[j].transport), revisions)
    {
      ServerBlock(dns, revisions, j);
    }
  }

  lemma BlockFrom(c: Config, ts: seq<Transport>, revisions: Revisions, i: nat)
    requires |ts| == |c.servers| + 1 && i < |ts| && ShowsTls(c.default, Clean(ts[0]), revisions)
    requires forall j :: 0 <= j < |c.servers| ==> ShowsTls(c.servers[j], Clean(ts[j + 1]), revisions)
    ensures |Blocks(c)| == |ts| && ShowsTls(Blocks(c)[i], Clean(ts[i]), revisions)
  {
    if i > 0 {
      assert Blocks(c)[i] == c.servers[i - 1];
    }
  }

  lemma BlockOf(dns: Dns, isIP: string -> bool, revisions: Revisions, i: nat)
    requires Generate(dns, isIP, revisions).Ok? && i <= |dns.servers|
    ensures |Blocks(Generate(dns, isIP, revisions).config)| == |Transports(dns)|
    ensures ShowsTls(Blocks(Generate(dns, isIP, revisions).config)[i], Clean(Transports(dns)[i]), revisions)
  {
    GeneratedBlocks(dns, isIP, revisions);
    BlockFrom(Generate(dns, isIP, revisions).config, Transports(dns), revisions, i);
  }

  lemma PathIsBacked(ts: seq<Transport>, revisions: Revisions, i: nat)
    requires i < |ts| && NeedsMount(ts[i], revisions)
    ensures Backed(
      MountDir(ts[i].tls.value.serverName, revisions[ts[i].tls.value.caBundle]) + "/" + CA_FILE,
      ts[i].tls.value.caBundle,
      CaVolumes(ts, revisions),
      CaMounts(ts, revisions))
  {
    var tls := ts[i].tls.value;
    MountedAt(ts, revisions, i);
    var v, m := VolumeOf(tls.caBundle), MountOf(tls, revisions);
    assert v in CaVolumes(ts, revisions) && m in CaMounts(ts, revisions);
    assert (CA_FILE, CA_FILE) in v.source.items;
  }

  /**
   Every CA path in the Corefile lies in a directory that the daemonset mounts from the copy of that
   block's bundle, although the Corefile is built from the cleaned-up spec and the daemonset is not.
   */
  lemma CaPathIsMounted(dns: Dns, isIP: string -> bool, gets: nat -> Option<string>, i: nat)
    requires var revisions := RevisionsOf(Transports(dns), gets);
      && Generate(dns, isIP, revisions).Ok? && i < |Blocks(Generate(dns, isIP, revisions).config)|
      && Blocks(Generate(dns, isIP, revisions).config)[i].caPath.Some?
    ensures var ts, revisions := Transports(dns), RevisionsOf(Transports(dns), gets);
      && |ts| == |Blocks(Generate(dns, isIP, revisions).config)| && ts[i].tls.Some?
      && Backed(
        Blocks(Generate(dns, isIP, revisions).config)[i].caPath.value,
        ts[i].tls.value.caBundle,
        CaVolumes(ts, revisions),
        CaMounts(ts, revisions))
  {
    var ts, revisions := Transports(dns), RevisionsOf(Transports(dns), gets);
    assert i <= |dns.servers|;
    BlockOf(dns, isIP, revisions, i);
    var tls := ts[i].tls.value;
    assert Clean(ts[i]).tls.value == tls;
    RevisionsMeaning(ts, gets, tls.caBundle);
    PathIsBacked(ts, revisions, i);
  }

  // ---------------------------------------------------------------------
  // When names and paths are unique
  // ---------------------------------------------------------------------

  predicate UniqueVolumes(vs: seq<Volume>) {
    forall a, b :: 0 <= a < b < |vs| ==> vs[a].name != vs[b].name
  }

  predicate UniquePaths(ms: seq<VolumeMount>) {
    forall a, b :: 0 <= a < b < |ms| ==> ms[a].mountPath != ms[b].mountPath
  }

  /** No two transports with a volume share a bundle. */
  predicate BundlesUnshared(ts: seq<Transport>, revisions: Revisions) {
    forall i, j :: 0 <= i < j < |ts| && NeedsMount(ts[i], revisions) && NeedsMount(ts[j], revisions) ==>
      ts[i].tls.value.caBundle != ts[j].tls.value.caBundle
  }

  /** No two transports with a volume share both server name and bundle. */
  predicate PairsUnshared(ts: seq<Transport>, revisions: Revisions) {
    forall i, j :: 0 <= i < j < |ts| && NeedsMount(ts[i], revisions) && NeedsMount(ts[j], revisions) ==>
      ts[i].tls.value != ts[j].tls.value
  }

  lemma {:induction false} VolumeFrom(ts: seq<Transport>, revisions: Revisions, v: Volume) returns (i: nat)
    requires v in CaVolumes(ts, revisions)
    ensures i < |ts| && NeedsMount(ts[i], revisions) && v == VolumeOf(ts[i].tls.value.caBundle)
  {
    i := |ts| - 1;
    if v in CaVolumes(ts[..i], revisions) {
      i := VolumeFrom(ts[..i], revisions, v);
    }
  }

  lemma {:induction false} MountFrom(ts: seq<Transport>, revisions: Revisions, m: VolumeMount) returns (i: nat)
    requires m in CaMounts(ts, revisions)
    ensures i < |ts| && NeedsMount(ts[i], revisions) && m == MountOf(ts[i].tls.value, revisions)
  {
    i := |ts| - 1;
    if m in CaMounts(ts[..i], revisions) {
      i := MountFrom(ts[..i], revisions, m);
    }
  }

  lemma UniqueSnoc(vs: seq<Volume>, v: Volume)
    ensures UniqueVolumes(vs + [v]) <==> UniqueVolumes(vs) && forall a :: 0 <= a < |vs| ==> vs[a].name != v.name
  {
    var all := vs + [v];
    assert all[|vs|] == v && forall a :: 0 <= a < |vs| ==> all[a] == vs[a];
  }

  /** `bundle` already has a volume. */
  predicate HasVolume(ts: seq<Transport>, revisions: Revisions, bundle: string) {
    exists i :: 0 <= i < |ts| && NeedsMount(ts[i], revisions) && ts[i].tls.value.caBundle == bundle
  }

  lemma NameIsTakenIff(ts: seq<Transport>, revisions: Revisions, bundle: string)
    ensures HasVolume(ts, revisions, bundle) <==>
            exists a :: 0 <= a < |CaVolumes(ts, revisions)| && CaVolumes(ts, revisions)[a].name == CopyName(bundle)
  {
    var vs := CaVolumes(ts, revisions);
    if HasVolume(ts, revisions, bundle) {
      var i :| 0 <= i < |ts| && NeedsMount(ts[i], revisions) && ts[i].tls.value.caBundle == bundle;
      MountedAt(ts, revisions, i);
      var a :| 0 <= a < |vs| && vs[a] == VolumeOf(bundle);
    }
    if a :| 0 <= a < |vs| && vs[a].name == CopyName(bundle) {
      var i := VolumeFrom(ts, revisions, vs[a]);
      CopyNameInjective(ts[i].tls.value.caBundle, bundle);
    }
  }

  lemma UnsharedSnoc(ts: seq<Transport>, revisions: Revisions)
    requires ts != []
    ensures var k := |ts| - 1;
            BundlesUnshared(ts, revisions) <==>
            && BundlesUnshared(ts[..k], revisions)
            && (NeedsMount(ts[k], revisions) ==> !HasVolume(ts[..k], revisions, ts[k].tls.value.caBundle))
  {
    var k := |ts| - 1;
    var front := ts[..k];
    assert forall i :: 0 <= i < k ==> front[i] == ts[i];
  }

  /** Volume names are unique, as the API demands, exactly when no bundle is shared. */
  lemma {:induction false} VolumesUniqueIff(ts: seq<Transport>, revisions: Revisions)
    ensures UniqueVolumes(CaVolumes(ts, revisions)) <==> BundlesUnshared(ts, revisions)
  {
    if ts != [] {
      var k := |ts| - 1;
      var vs := CaVolumes(ts[..k], revisions);
      VolumesUniqueIff(ts[..k], revisions);
      UnsharedSnoc(ts, revisions);
      if NeedsMount(ts[k], revisions) {
        var bundle := ts[k].tls.value.caBundle;
        UniqueSnoc(vs, VolumeOf(bundle));
        NameIsTakenIff(ts[..k], revisions, bundle);
      } else {
        assert CaVolumes(ts, revisions) == vs;
      }
    }
  }

  /** None of the names is that of a copy. */
  predicate NotCopies(vs: seq<Volume>) {
    forall a :: 0 <= a < |vs| ==> !("ca-" <= vs[a].name)
  }

  /** The names of the volumes in the daemonset asset. */
  const ASSET_VOLUMES := ["config-volume", "metrics-tls", "tmp-dir"]

  lemma AssetVolumes(vs: seq<Volume>)
    requires |vs| == 3 && forall a :: 0 <= a < 3 ==> vs[a].name == ASSET_VOLUMES[a]
    ensures UniqueVolumes(vs) && NotCopies(vs)
  {
    assert |vs[0].name| == 13 && |vs[1].name| == 11 && |vs[2].name| == 7;
    assert vs[0].name[1] == 'o' && vs[1].name[0] == 'm' && vs[2].name[0] == 't';
    assert "ca-"[0] == 'c' && "ca-"[1] == 'a';
  }

  /** The same of all volumes of the daemonset: given ones, such as the asset's, and those of the bundles. */
  lemma AllVolumesUniqueIff(given: seq<Volume>, ts: seq<Transport>, revisions: Revisions)
    requires UniqueVolumes(given) && NotCopies(given)
    ensures UniqueVolumes(given + CaVolumes(ts, revisions)) <==> BundlesUnshared(ts, revisions)
  {
    var own := CaVolumes(ts, revisions);
    var all := given + own;
    VolumesUniqueIff(ts, revisions);
    forall b | 0 <= b < |own|
      ensures "ca-" <= own[b].name
    {
      var i := VolumeFrom(ts, revisions, own[b]);
    }
    assert forall b :: 0 <= b < |own| ==> all[|given| + b] == own[b];
    if UniqueVolumes(all) {
      forall a, b | 0 <= a < b < |own|
        ensures own[a].name != own[b].name
      {
        assert all[|given| + a] == own[a] && all[|given| + b] == own[b];
      }
    }
    if UniqueVolumes(own) {
      forall a, b | 0 <= a < b < |all|
        ensures all[a].name != all[b].name
      {
        if a < |given| <= b {
          assert all[b] == own[b - |given|];
        } else if |given| <= a {
          assert all[a] == own[a - |given|] && all[b] == own[b - |given|];
        }
      }
    }
  }

  /** Two transports with one bundle, whether or not TLS is on in both: the daemonset gets the same volume twice. */
  lemma SharedBundle(given: seq<Volume>, bundle: string, revision: string, x: Transport, y: Transport)
    requires bundle != "" && x.tls.Some? && y.tls.Some?
    requires x.tls.value.caBundle == bundle && y.tls.value.caBundle == bundle
    ensures !UniqueVolumes(given + CaVolumes([x, y], map[bundle := revision]))
  {
    var revisions := map[bundle := revision];
    assert [x, y][..1] == [x] && [x][..0] == [];
    assert NeedsMount(x, revisions) && NeedsMount(y, revisions);
    assert CaVolumes([x], revisions) == [VolumeOf(bundle)];
    var own := CaVolumes([x, y], revisions);
    assert own == [VolumeOf(bundle), VolumeOf(bundle)];
    assert (given + own)[|given|] == (given + own)[|given| + 1] == VolumeOf(bundle);
  }

  /** Resource versions contain no dash, and two objects never have the same one. */
  ghost predicate VersionsOk(ts: seq<Transport>, gets: nat -> Option<string>) {
    && (forall i, n :: Reads(ts, gets, i, n) ==> '-' !in gets(i).value)
    && (forall i, j, n, k :: Reads(ts, gets, i, n) && Reads(ts, gets, j, k) && n != k ==>
          gets(i).value != gets(j).value)
  }

  lemma SplitAtLastDash(a: string, r: string, b: string, s: string)
    requires '-' !in r && '-' !in s && a + "-" + r == b + "-" + s
    ensures a == b && r == s
  {
    var x, y := a + "-" + r, b + "-" + s;
    assert x[|a|] == '-' && y[|b|] == '-';
    assert forall i :: |a| < i < |x| ==> x[i] == r[i - |a| - 1];
    assert forall i :: |b| < i < |y| ==> y[i] == s[i - |b| - 1];
    assert |a| == |b|;
    assert a == x[..|a|] && b == y[..|b|] && r == x[|a| + 1..] && s == y[|b| + 1..];
  }

  lemma SameDirectory(x: string, m: string, v: string, y: string, n: string, w: string)
    requires '-' !in v && '-' !in w && MountDir(x, Revision(m, v)) == MountDir(y, Revision(n, w))
    ensures v == w && (m == n ==> x == y)
  {
    var a, b := "/etc/pki/" + x + "-" + CopyName(m), "/etc/pki/" + y + "-" + CopyName(n);
    assert MountDir(x, Revision(m, v)) == a + "-" + v;
    assert MountDir(y, Revision(n, w)) == b + "-" + w;
    SplitAtLastDash(a, v, b, w);
    if m == n {
      assert |a| == 9 + |x| + 1 + |CopyName(m)| && |b| == 9 + |y| + 1 + |CopyName(n)|;
      assert x == a[9..9 + |x|] && y == b[9..9 + |y|];
    }
  }

  /** The server name in the path keeps two servers with one bundle apart, and no other two paths meet. */
  lemma PathIsUnambiguous(ts: seq<Transport>, gets: nat -> Option<string>, x: Tls, y: Tls)
    requires VersionsOk(ts, gets)
    requires x.caBundle in RevisionsOf(ts, gets) && y.caBundle in RevisionsOf(ts, gets)
    requires MountOf(x, RevisionsOf(ts, gets)).mountPath == MountOf(y, RevisionsOf(ts, gets)).mountPath
    ensures x == y
  {
    var m := RevisionsOf(ts, gets);
    RevisionsMeaning(ts, gets, x.caBundle);
    RevisionsMeaning(ts, gets, y.caBundle);
    var i: nat :| Reads(ts, gets, i, x.caBundle) && m[x.caBundle] == Revision(x.caBundle, gets(i).value);
    var j: nat :| Reads(ts, gets, j, y.caBundle) && m[y.caBundle] == Revision(y.caBundle, gets(j).value);
    SameDirectory(x.serverName, x.caBundle, gets(i).value, y.serverName, y.caBundle, gets(j).value);
  }

  lemma UniquePathSnoc(ms: seq<VolumeMount>, m: VolumeMount)
    ensures UniquePaths(ms + [m]) <==>
            UniquePaths(ms) && forall a :: 0 <= a < |ms| ==> ms[a].mountPath != m.mountPath
  {
    var all := ms + [m];
    assert all[|ms|] == m && forall a :: 0 <= a < |ms| ==> all[a] == ms[a];
  }

  /** That server name already mounts that bundle. */
  predicate HasMount(ts: seq<Transport>, revisions: Revisions, tls: Tls) {
    exists i :: 0 <= i < |ts| && NeedsMount(ts[i], revisions) && ts[i].tls.value == tls
  }

  lemma PathIsTakenIff(ts: seq<Transport>, all: seq<Transport>, gets: nat -> Option<string>, tls: Tls)
    requires VersionsOk(all, gets) && tls.caBundle in RevisionsOf(all, gets)
    ensures var m := RevisionsOf(all, gets);
            HasMount(ts, m, tls) <==>
            exists a :: 0 <= a < |CaMounts(ts, m)| && CaMounts(ts, m)[a].mountPath == MountOf(tls, m).mountPath
  {
    var m := RevisionsOf(all, gets);
    var ms := CaMounts(ts, m);
    if HasMount(ts, m, tls) {
      var i :| 0 <= i < |ts| && NeedsMount(ts[i], m) && ts[i].tls.value == tls;
      MountedAt(ts, m, i);
      var a :| 0 <= a < |ms| && ms[a] == MountOf(tls, m);
    }
    if a :| 0 <= a < |ms| && ms[a].mountPath == MountOf(tls, m).mountPath {
      var i := MountFrom(ts, m, ms[a]);
      PathIsUnambiguous(all, gets, ts[i].tls.value, tls);
    }
  }

  lemma PairsSnoc(ts: seq<Transport>, revisions: Revisions)
    requires ts != []
    ensures var k := |ts| - 1;
            PairsUnshared(ts, revisions) <==>
            && PairsUnshared(ts[..k], revisions)
            && (NeedsMount(ts[k], revisions) ==> !HasMount(ts[..k], revisions, ts[k].tls.value))
  {
    var k := |ts| - 1;
    var front := ts[..k];
    assert forall i :: 0 <= i < k ==> front[i] == ts[i];
  }

  /** Mount paths are unique exactly when no two transports share both server name and bundle. */
  lemma {:induction false} PathsUniqueIff(ts: seq<Transport>, all: seq<Transport>, gets: nat -> Option<string>)
    requires VersionsOk(all, gets)
    ensures UniquePaths(CaMounts(ts, RevisionsOf(all, gets))) <==> PairsUnshared(ts, RevisionsOf(all, gets))
  {
    var m := RevisionsOf(all, gets);
    if ts != [] {
      var k := |ts| - 1;
      var ms := CaMounts(ts[..k], m);
      PathsUniqueIff(ts[..k], all, gets);
      PairsSnoc(ts, m);
      if NeedsMount(ts[k], m) {
        UniquePathSnoc(ms, MountOf(ts[k].tls.value, m));
        PathIsTakenIff(ts[..k], all, gets, ts[k].tls.value);
      } else {
        assert CaMounts(ts, m) == ms;
      }
    }
  }

  // ---------------------------------------------------------------------
  // In the words of the API
  // ---------------------------------------------------------------------

  /** The transport is TLS and names that bundle. */
  predicate NamesBundle(t: Transport, bundle: string) {
    t.mode == "TLS" && t.tls.Some? && t.tls.value.caBundle == bundle != ""
  }

  /** A bundle has a revision exactly when it is named under TLS somewhere and its copy could be read there. */
  lemma RevisionsSay(dns: Dns, gets: nat -> Option<string>, bundle: string)
    ensures bundle in RevisionsOf(Transports(dns), gets) <==>
            || (NamesBundle(dns.resolving.transport, bundle) && gets(0).Some?)
            || (exists i :: 0 <= i < |dns.servers|
                  && NamesBundle(dns.servers[i].transport, bundle) && gets(i + 1).Some?)
  {
    var ts := Transports(dns);
    RevisionsMeaning(ts, gets, bundle);
    if j: nat :| Reads(ts, gets, j, bundle) {
      if j > 0 {
        assert ts[j] == dns.servers[j - 1].transport;
      }
    }
    if i :| 0 <= i < |dns.servers| && NamesBundle(dns.servers[i].transport, bundle) && gets(i + 1).Some? {
      assert Reads(ts, gets, i + 1, bundle);
    }
    if NamesBundle(dns.resolving.transport, bundle) && gets(0).Some? {
      assert Reads(ts, gets, 0, bundle);
    }
  }

  /** The volume and the mount of a bundle. */
  lemma MountSays(tls: Tls, version: string)
    ensures var revisions := map[tls.caBundle := Revision(tls.caBundle, version)];
            var copy := "ca-" + tls.caBundle;
            && VolumeOf(tls.caBundle).name == copy
            && VolumeOf(tls.caBundle).source ==
               DaemonSets.ConfigMapSource(copy, [("ca-bundle.crt", "ca-bundle.crt")], None, None)
            && MountOf(tls, revisions).name == copy
            && MountOf(tls, revisions).mountPath == "/etc/pki/" + tls.serverName + "-" + (copy + "-" + version)
  {}

  /** A server under TLS whose bundle could be read gets the path of that bundle. */
  lemma CaPathIsRendered(dns: Dns, isIP: string -> bool, gets: nat -> Option<string>, i: nat)
    requires i < |dns.servers| && References(dns.servers[i].transport) && gets(i + 1).Some?
    requires Generate(dns, isIP, RevisionsOf(Transports(dns), gets)).Ok?
    ensures var tls, revisions := dns.servers[i].transport.tls.value, RevisionsOf(Transports(dns), gets);
            && i < |Generate(dns, isIP, revisions).config.servers|
            && tls.caBundle in revisions
            && Generate(dns, isIP, revisions).config.servers[i].caPath ==
               Some(MountOf(tls, revisions).mountPath + "/" + CA_FILE)
  {
    var t := dns.servers[i].transport;
    var ts, revisions := Transports(dns), RevisionsOf(Transports(dns), gets);
    assert Reads(ts, gets, i + 1, t.tls.value.caBundle);
    RevisionsMeaning(ts, gets, t.tls.value.caBundle);
    assert revisions[t.tls.value.caBundle] != "";
    AcceptedMeans(dns, isIP);
    GeneratedBlocks(dns, isIP, revisions);
  }
}

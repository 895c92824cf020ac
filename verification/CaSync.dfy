/**
 The copies of CA bundles in the operand namespace: kept equal to the user's
 configmaps, and removed when nothing refers to them any more
 (pkg/operator/controller/controller_cabundle_configmap.go). Any call may fail,
 with or without having taken effect, and the listing comes from a cache.
 */
module CaSync {
  import opened Wrappers
  import opened TlsSettings
  import opened Corefile
  import opened CaBundles
  import Api = ApiCalls

  type Data = map<string, string>

  type Sources = map<string, Data>

  datatype ConfigMap = ConfigMap(labelled: bool, data: Data)

  type Copies = map<string, ConfigMap>

  /** The copies, the write calls made and the errors met so far. */
  datatype Progress = Progress(copies: Copies, writes: nat, errs: nat)

  datatype Calls = Calls(getSource: Api.Outcome, getCopy: Api.Outcome, write: Api.Outcome)

  /** How each call of a pass ends: those for the i-th name, the listing and what it shows, each deletion. */
  datatype Env = Env(calls: nat -> Calls, list: Api.Outcome, cached: seq<string>, deletes: nat -> Api.Outcome)

  function Listed(env: Env): seq<string> {
    if env.list.Ok? then env.cached else []
  }

  // ---------------------------------------------------------------------
  // Specification of a pass
  // ---------------------------------------------------------------------

  /** The bundles referred to under TLS, in order, with repetitions. */
  function Referenced(ts: seq<Transport>): seq<string> {
    if ts == [] then []
    else
      var k := |ts| - 1;
      Referenced(ts[..k]) + if References(ts[k]) then [ts[k].tls.value.caBundle] else []
  }

  function Names(dns: Dns): seq<string> {
    Referenced(Transports(dns))
  }

  predicate IsReferred(names: seq<string>, key: string) {
    exists n :: n in names && key == CopyName(n)
  }

  function Errs(o: Api.Outcome): nat {
    if o.Ok? then 0 else 1
  }

  function Stored(p: Progress, key: string, cm: ConfigMap, o: Api.Outcome): Progress {
    Progress(if Api.Effective(o) then p.copies[key := cm] else p.copies, p.writes + 1, p.errs + Errs(o))
  }

  /** Deleting what is not there is not an error. */
  function Deleted(p: Progress, key: string, o: Api.Outcome): Progress {
    Progress(if Api.Effective(o) then p.copies - {key} else p.copies, p.writes + 1, p.errs + Errs(o))
  }

  function SyncOne(p: Progress, sources: Sources, deleting: bool, name: string, c: Calls): Progress {
    var key := CopyName(name);
    if !c.getSource.Ok? then p.(errs := p.errs + 1)
    else if name !in sources then p
    else if !c.getCopy.Ok? then p.(errs := p.errs + 1)
    else if deleting then (if key in p.copies then Deleted(p, key, c.write) else p)
    else if key !in p.copies then Stored(p, key, ConfigMap(true, sources[name]), c.write)
    else if p.copies[key].data == sources[name] then p
    else Stored(p, key, p.copies[key].(data := sources[name]), c.write)
  }

  function SyncAll(p: Progress, sources: Sources, deleting: bool, names: seq<string>, calls: nat -> Calls): Progress {
    if names == [] then p
    else
      var k := |names| - 1;
      SyncOne(SyncAll(p, sources, deleting, names[..k], calls), sources, deleting, names[k], calls(k))
  }

  function CleanOne(p: Progress, names: seq<string>, key: string, o: Api.Outcome): Progress {
    if IsReferred(names, key) then p else Deleted(p, key, o)
  }

  function CleanAll(p: Progress, names: seq<string>, listed: seq<string>, deletes: nat -> Api.Outcome): Progress {
    if listed == [] then p
    else
      var k := |listed| - 1;
      CleanOne(CleanAll(p, names, listed[..k], deletes), names, listed[k], deletes(k))
  }

  function Synced(copies: Copies, sources: Sources, dns: Dns, env: Env): Progress {
    SyncAll(Progress(copies, 0, 0), sources, dns.deleting, Names(dns), env.calls)
  }

  function Pass(copies: Copies, sources: Sources, dns: Dns, env: Env): Progress {
    var p := Synced(copies, sources, dns, env);
    CleanAll(p.(errs := p.errs + Errs(env.list)), Names(dns), Listed(env), env.deletes)
  }

  /** The cache shows exactly the labelled copies. */
  ghost predicate Fresh(listed: seq<string>, copies: Copies) {
    forall key :: key in listed <==> key in copies && copies[key].labelled
  }

  // ---------------------------------------------------------------------
  // The reconciler
  // ---------------------------------------------------------------------

  lemma ReferencedStep(ts: seq<Transport>, k: nat)
    requires k < |ts|
    ensures Referenced(ts[..k + 1])
         == Referenced(ts[..k]) + if References(ts[k]) then [ts[k].tls.value.caBundle] else []
  {
    assert ts[..k + 1][..k] == ts[..k];
  }

  method ReferencedBundles(dns: Dns) returns (names: seq<string>)
    ensures names == Names(dns)
  {
    ghost var ts := Transports(dns);
    names := [];
    if References(dns.resolving.transport) {
      names := names + [dns.resolving.transport.tls.value.caBundle];
    }
    ReferencedStep(ts, 0);
    assert ts[..0] == [];
    names := ReferencedByServers(dns.servers, ts, names);
  }

  method ReferencedByServers(servers: seq<Server>, ghost ts: seq<Transport>, first: seq<string>)
    returns (names: seq<string>)
    requires |ts| == |servers| + 1 && forall i :: 0 <= i < |servers| ==> ts[i + 1] == servers[i].transport
    requires first == Referenced(ts[..1])
    ensures names == Referenced(ts)
  {
    names := first;
    for i := 0 to |servers|
      invariant names == Referenced(ts[..i + 1])
    {
      ReferencedStep(ts, i + 1);
      var t := servers[i].transport;
      if References(t) {
        names := names + [t.tls.value.caBundle];
      }
    }
    assert ts[..|ts|] == ts;
  }

  method ReferredInDns(names: seq<string>, key: string) returns (found: bool)
    ensures found <==> IsReferred(names, key)
  {
    for i := 0 to |names|
      invariant forall j :: 0 <= j < i ==> key != CopyName(names[j])
    {
      if key == CopyName(names[i]) {
        assert names[i] in names;
        return true;
      }
    }
    return false;
  }

  class Reconciler {
    var sources: Sources
    var copies: Copies
    var writes: nat

    constructor (sources: Sources, copies: Copies)
      ensures this.sources == sources && this.copies == copies && writes == 0
    {
      this.sources, this.copies, writes := sources, copies, 0;
    }

    ghost function Now(errs: nat): Progress
      reads this
    {
      Progress(copies, writes, errs)
    }

    method Store(key: string, cm: ConfigMap, o: Api.Outcome, before: nat) returns (errs: nat)
      modifies this`copies, this`writes
      ensures Now(errs) == Stored(old(Now(before)), key, cm, o)
    {
      if Api.Effective(o) {
        copies := copies[key := cm];
      }
      writes := writes + 1;
      return before + Errs(o);
    }

    method Delete(key: string, o: Api.Outcome, before: nat) returns (errs: nat)
      modifies this`copies, this`writes
      ensures Now(errs) == Deleted(old(Now(before)), key, o)
    {
      if Api.Effective(o) {
        copies := copies - {key};
      }
      writes := writes + 1;
      return before + Errs(o);
    }

    method SyncBundle(deleting: bool, name: string, c: Calls, before: nat) returns (errs: nat)
      modifies this`copies, this`writes
      ensures Now(errs) == SyncOne(old(Now(before)), sources, deleting, name, c)
    {
      errs := before;
      if !c.getSource.Ok? {
        return before + 1;
      }
      if name !in sources {
        return;
      }
      var key := CopyName(name);
      if !c.getCopy.Ok? {
        return before + 1;
      }
      var want, have := !deleting, key in copies;
      if !want && have {
        errs := Delete(key, c.write, before);
      } else if want && !have {
        errs := Store(key, ConfigMap(true, sources[name]), c.write, before);
      } else if want && have && copies[key].data != sources[name] {
        errs := Store(key, copies[key].(data := sources[name]), c.write, before);
      }
    }

    method SyncBundles(deleting: bool, names: seq<string>, calls: nat -> Calls) returns (errs: nat)
      modifies this`copies, this`writes
      ensures Now(errs) == SyncAll(old(Now(0)), sources, deleting, names, calls)
    {
      errs := 0;
      for i := 0 to |names|
        invariant Now(errs) == SyncAll(old(Now(0)), sources, deleting, names[..i], calls)
      {
        assert names[..i + 1][..i] == names[..i];
        errs := SyncBundle(deleting, names[i], calls(i), errs);
      }
      assert names[..|names|] == names;
    }

    method RemoveUnreferred(names: seq<string>, listed: seq<string>, deletes: nat -> Api.Outcome, before: nat)
      returns (errs: nat)
      modifies this`copies, this`writes
      ensures Now(errs) == CleanAll(old(Now(before)), names, listed, deletes)
    {
      errs := before;
      for i := 0 to |listed|
        invariant Now(errs) == CleanAll(old(Now(before)), names, listed[..i], deletes)
      {
        assert listed[..i + 1][..i] == listed[..i];
        var referred := ReferredInDns(names, listed[i]);
        if !referred {
          errs := Delete(listed[i], deletes(i), errs);
        }
      }
      assert listed[..|listed|] == listed;
    }

    /** One pass; `writes` then holds the number of its write calls. */
    method EnsureCaBundleConfigMaps(dns: Dns, env: Env) returns (errs: nat)
      modifies this`copies, this`writes
      ensures Now(errs) == Pass(old(copies), sources, dns, env)
    {
      writes := 0;
      var names := ReferencedBundles(dns);
      errs := SyncBundles(dns.deleting, names, env.calls);
      errs := errs + Errs(env.list);
      errs := RemoveUnreferred(names, Listed(env), env.deletes, errs);
    }
  }

  // ---------------------------------------------------------------------
  // What each loop does
  // ---------------------------------------------------------------------

  /** The copy of `name` is as it should be, if there is something to copy. */
  predicate InStep(copies: Copies, sources: Sources, deleting: bool, name: string) {
    name in sources ==>
      if deleting then CopyName(name) !in copies
      else CopyName(name) in copies && copies[CopyName(name)].data == sources[name]
  }

  predicate SameAt(a: Copies, b: Copies, key: string) {
    (key in a <==> key in b) && (key in a ==> a[key] == b[key])
  }

  /** Present, under the same label. */
  predicate KeptAt(a: Copies, b: Copies, key: string) {
    key in a ==> key in b && a[key].labelled == b[key].labelled
  }

  lemma SyncOneEffect(p: Progress, sources: Sources, deleting: bool, name: string, c: Calls, other: string)
    ensures var q := SyncOne(p, sources, deleting, name, c);
      && q.errs >= p.errs && q.writes >= p.writes
      && (q.errs == p.errs ==> InStep(q.copies, sources, deleting, name))
      && (other != name ==> InStep(p.copies, sources, deleting, other) ==> InStep(q.copies, sources, deleting, other))
  {
    if other != name && CopyName(other) == CopyName(name) {
      CopyNameInjective(other, name);
    }
  }

  lemma {:induction false} SyncAllInStep(
    p: Progress, sources: Sources, deleting: bool, names: seq<string>, calls: nat -> Calls, name: string)
    ensures SyncAll(p, sources, deleting, names, calls).errs >= p.errs
    ensures name in names && SyncAll(p, sources, deleting, names, calls).errs == p.errs ==>
      InStep(SyncAll(p, sources, deleting, names, calls).copies, sources, deleting, name)
  {
    if names != [] {
      var k := |names| - 1;
      var q := SyncAll(p, sources, deleting, names[..k], calls);
      SyncAllInStep(p, sources, deleting, names[..k], calls, name);
      SyncOneEffect(q, sources, deleting, names[k], calls(k), name);
    }
  }

  lemma {:induction false} SyncAllFrame(
    p: Progress, sources: Sources, deleting: bool, names: seq<string>, calls: nat -> Calls, key: string)
    ensures var q := SyncAll(p, sources, deleting, names, calls);
      && (!IsReferred(names, key) ==> SameAt(p.copies, q.copies, key))
      && (!deleting ==> KeptAt(p.copies, q.copies, key))
  {
    if names != [] {
      var k := |names| - 1;
      SyncAllFrame(p, sources, deleting, names[..k], calls, key);
      assert names[k] in names;
      if !IsReferred(names, key) {
        assert !IsReferred(names[..k], key);
      }
    }
  }

  /** However stale the listing, cleaning up leaves every referred copy alone; so it does what is not listed. */
  lemma {:induction false} CleanAllFrame(
    p: Progress, names: seq<string>, listed: seq<string>, deletes: nat -> Api.Outcome, key: string)
    ensures var q := CleanAll(p, names, listed, deletes);
      && q.errs >= p.errs && q.writes >= p.writes
      && (IsReferred(names, key) || key !in listed ==> SameAt(p.copies, q.copies, key))
      && (key !in p.copies ==> key !in q.copies)
      && (key in listed && !IsReferred(names, key) && q.errs == p.errs ==> key !in q.copies)
  {
    if listed != [] {
      CleanAllFrame(p, names, listed[..|listed| - 1], deletes, key);
    }
  }

  // ---------------------------------------------------------------------
  // Whole passes
  // ---------------------------------------------------------------------

  /** The state a pass is after: every copy in step, every labelled copy referred to. */
  ghost predicate Settled(copies: Copies, sources: Sources, dns: Dns) {
    && (forall n :: n in Names(dns) ==> InStep(copies, sources, dns.deleting, n))
    && (forall key :: key in copies && copies[key].labelled ==> IsReferred(Names(dns), key))
  }

  /** A pass without errors over a fresh cache settles the copies. */
  lemma PassSettles(copies: Copies, sources: Sources, dns: Dns, env: Env)
    requires Pass(copies, sources, dns, env).errs == 0
    requires Fresh(env.cached, Synced(copies, sources, dns, env).copies)
    ensures Settled(Pass(copies, sources, dns, env).copies, sources, dns)
  {
    var names := Names(dns);
    var p, q := Synced(copies, sources, dns, env), Pass(copies, sources, dns, env);
    var p' := p.(errs := p.errs + Errs(env.list));
    forall n | n in names
      ensures InStep(q.copies, sources, dns.deleting, n)
    {
      SyncAllInStep(Progress(copies, 0, 0), sources, dns.deleting, names, env.calls, n);
      CleanAllFrame(p', names, Listed(env), env.deletes, CopyName(n));
    }
    forall key | key in q.copies && q.copies[key].labelled
      ensures IsReferred(names, key)
    {
      CleanAllFrame(p', names, Listed(env), env.deletes, key);
    }
  }

  lemma {:induction false} SyncAllIdle(
    p: Progress, sources: Sources, deleting: bool, names: seq<string>, calls: nat -> Calls)
    requires forall n :: n in names ==> InStep(p.copies, sources, deleting, n)
    ensures SyncAll(p, sources, deleting, names, calls).copies == p.copies
    ensures SyncAll(p, sources, deleting, names, calls).writes == p.writes
  {
    if names != [] {
      var k := |names| - 1;
      SyncAllIdle(p, sources, deleting, names[..k], calls);
      assert InStep(p.copies, sources, deleting, names[k]);
    }
  }

  lemma {:induction false} CleanAllIdle(
    p: Progress, names: seq<string>, listed: seq<string>, deletes: nat -> Api.Outcome)
    requires forall key :: key in listed ==> IsReferred(names, key)
    ensures CleanAll(p, names, listed, deletes) == p
  {
    if listed != [] {
      CleanAllIdle(p, names, listed[..|listed| - 1], deletes);
    }
  }

  /** Once settled, a pass writes nothing, whichever of its reads fail, as long as the cache shows no stranger. */
  lemma SettledIsQuiet(copies: Copies, sources: Sources, dns: Dns, env: Env)
    requires Settled(copies, sources, dns)
    requires forall key :: key in env.cached ==> key in copies && copies[key].labelled
    ensures Pass(copies, sources, dns, env).writes == 0 && Pass(copies, sources, dns, env).copies == copies
  {
    var p := Synced(copies, sources, dns, env);
    SyncAllIdle(Progress(copies, 0, 0), sources, dns.deleting, Names(dns), env.calls);
    CleanAllIdle(p.(errs := p.errs + Errs(env.list)), Names(dns), Listed(env), env.deletes);
  }

  /** The second of two passes writes nothing. */
  lemma SecondPassWritesNothing(copies: Copies, sources: Sources, dns: Dns, env: Env, again: Env)
    requires Pass(copies, sources, dns, env).errs == 0
    requires Fresh(env.cached, Synced(copies, sources, dns, env).copies)
    requires Fresh(again.cached, Pass(copies, sources, dns, env).copies)
    ensures var after := Pass(copies, sources, dns, env).copies;
      Pass(after, sources, dns, again).writes == 0 && Pass(after, sources, dns, again).copies == after
  {
    PassSettles(copies, sources, dns, env);
    SettledIsQuiet(Pass(copies, sources, dns, env).copies, sources, dns, again);
  }

  lemma {:induction false} SyncAllNoWrites(
    p: Progress, sources: Sources, deleting: bool, names: seq<string>, calls: nat -> Calls)
    ensures SyncAll(p, sources, deleting, names, calls).writes >= p.writes
    ensures SyncAll(p, sources, deleting, names, calls).writes == p.writes ==>
      SyncAll(p, sources, deleting, names, calls).copies == p.copies
  {
    if names != [] {
      SyncAllNoWrites(p, sources, deleting, names[..|names| - 1], calls);
    }
  }

  lemma {:induction false} CleanAllNoWrites(
    p: Progress, names: seq<string>, listed: seq<string>, deletes: nat -> Api.Outcome)
    ensures CleanAll(p, names, listed, deletes).writes >= p.writes
    ensures CleanAll(p, names, listed, deletes).writes == p.writes ==> CleanAll(p, names, listed, deletes) == p
  {
    if listed != [] {
      CleanAllNoWrites(p, names, listed[..|listed| - 1], deletes);
    }
  }

  /** With no call failing and a fresh cache, a pass is silent if and only if the copies were settled. */
  lemma QuietIffSettled(copies: Copies, sources: Sources, dns: Dns, env: Env)
    requires Pass(copies, sources, dns, env).errs == 0
    requires Fresh(env.cached, Synced(copies, sources, dns, env).copies)
    ensures Pass(copies, sources, dns, env).writes == 0 <==> Settled(copies, sources, dns)
  {
    var p := Synced(copies, sources, dns, env);
    SyncAllNoWrites(Progress(copies, 0, 0), sources, dns.deleting, Names(dns), env.calls);
    CleanAllNoWrites(p.(errs := p.errs + Errs(env.list)), Names(dns), Listed(env), env.deletes);
    PassSettles(copies, sources, dns, env);
    if Settled(copies, sources, dns) {
      SyncAllIdle(Progress(copies, 0, 0), sources, dns.deleting, Names(dns), env.calls);
      SettledIsQuiet(copies, sources, dns, env);
    }
  }

  /** One pass, whatever fails and whatever the cache shows, keeps referred copies and leaves strangers alone. */
  lemma PassFrame(copies: Copies, sources: Sources, dns: Dns, env: Env, key: string)
    ensures var after := Pass(copies, sources, dns, env).copies;
      && (!dns.deleting && IsReferred(Names(dns), key) ==> KeptAt(copies, after, key))
      && (!IsReferred(Names(dns), key) && key !in env.cached ==> SameAt(copies, after, key))
  {
    var p := Synced(copies, sources, dns, env);
    SyncAllFrame(Progress(copies, 0, 0), sources, dns.deleting, Names(dns), env.calls, key);
    CleanAllFrame(p.(errs := p.errs + Errs(env.list)), Names(dns), Listed(env), env.deletes, key);
  }

  datatype Round = Round(sources: Sources, dns: Dns, env: Env)

  function Rounds(copies: Copies, rs: seq<Round>): Copies {
    if rs == [] then copies
    else
      var k := |rs| - 1;
      Pass(Rounds(copies, rs[..k]), rs[k].sources, rs[k].dns, rs[k].env).copies
  }

  /** Over any run of passes, with sources and spec edited in between, a copy stays while its bundle is referred to. */
  lemma {:induction false} CopyStaysWhileReferred(copies: Copies, rs: seq<Round>, name: string)
    requires CopyName(name) in copies
    requires forall i :: 0 <= i < |rs| ==> !rs[i].dns.deleting && name in Names(rs[i].dns)
    ensures CopyName(name) in Rounds(copies, rs)
  {
    if rs != [] {
      var k := |rs| - 1;
      CopyStaysWhileReferred(copies, rs[..k], name);
      assert IsReferred(Names(rs[k].dns), CopyName(name));
      PassFrame(Rounds(copies, rs[..k]), rs[k].sources, rs[k].dns, rs[k].env, CopyName(name));
    }
  }

  // ---------------------------------------------------------------------
  // From the user's configmap to the path CoreDNS reads
  // ---------------------------------------------------------------------

  lemma {:induction false} ReferencesAreNames(ts: seq<Transport>, i: nat)
    requires i < |ts| && References(ts[i])
    ensures ts[i].tls.value.caBundle in Referenced(ts)
  {
    if i < |ts| - 1 {
      ReferencesAreNames(ts[..|ts| - 1], i);
    }
  }

  /** Once settled, the configmap behind every CA path in the Corefile holds the data of the user's bundle. */
  lemma CaPathShowsTheSource(
    copies: Copies, sources: Sources, dns: Dns, isIP: string -> bool, gets: nat -> Option<string>, i: nat)
    requires Settled(copies, sources, dns) && !dns.deleting
    requires var revisions := RevisionsOf(Transports(dns), gets);
      && Generate(dns, isIP, revisions).Ok? && i < |Blocks(Generate(dns, isIP, revisions).config)|
      && Blocks(Generate(dns, isIP, revisions).config)[i].caPath.Some?
    requires i < |Transports(dns)| && Transports(dns)[i].tls.Some?
    requires Transports(dns)[i].tls.value.caBundle in sources
    ensures var ts, revisions := Transports(dns), RevisionsOf(Transports(dns), gets);
      var bundle := ts[i].tls.value.caBundle;
      && Backed(
        Blocks(Generate(dns, isIP, revisions).config)[i].caPath.value,
        bundle,
        CaVolumes(ts, revisions),
        CaMounts(ts, revisions))
      && CopyName(bundle) in copies && copies[CopyName(bundle)].data == sources[bundle]
  {
    var ts := Transports(dns);
    CaPathIsMounted(dns, isIP, gets, i);
    PathIsReferenced(dns, isIP, gets, i);
    assert InStep(copies, sources, dns.deleting, ts[i].tls.value.caBundle);
  }

  lemma PathIsReferenced(dns: Dns, isIP: string -> bool, gets: nat -> Option<string>, i: nat)
    requires var revisions := RevisionsOf(Transports(dns), gets);
      && Generate(dns, isIP, revisions).Ok? && i < |Transports(dns)|
      && i < |Blocks(Generate(dns, isIP, revisions).config)|
      && Blocks(Generate(dns, isIP, revisions).config)[i].caPath.Some?
    ensures Transports(dns)[i].tls.Some? && Transports(dns)[i].tls.value.caBundle in Names(dns)
  {
    var ts, revisions := Transports(dns), RevisionsOf(Transports(dns), gets);
    BlockOf(dns, isIP, revisions, i);
    var bundle := ts[i].tls.value.caBundle;
    RevisionsMeaning(ts, gets, bundle);
    var j: nat :| Reads(ts, gets, j, bundle);
    ReferencesAreNames(ts, j);
  }

  // ---------------------------------------------------------------------
  // Labels and errors
  // ---------------------------------------------------------------------

  lemma {:induction false} ReferencedIff(ts: seq<Transport>, bundle: string)
    ensures bundle in Referenced(ts) <==> exists i :: 0 <= i < |ts| && NamesBundle(ts[i], bundle)
  {
    if ts != [] {
      var k := |ts| - 1;
      ReferencedIff(ts[..k], bundle);
      assert forall i :: 0 <= i < k ==> ts[..k][i] == ts[i];
    }
  }

  /** The bundles looked after are exactly those named under TLS. */
  lemma NamesSay(dns: Dns, bundle: string)
    ensures bundle in Names(dns) <==>
            || NamesBundle(dns.resolving.transport, bundle)
            || exists i :: 0 <= i < |dns.servers| && NamesBundle(dns.servers[i].transport, bundle)
  {
    var ts := Transports(dns);
    ReferencedIff(ts, bundle);
    if i :| 0 <= i < |ts| && NamesBundle(ts[i], bundle) {
      if i > 0 {
        assert ts[i] == dns.servers[i - 1].transport;
      }
    }
    if i :| 0 <= i < |dns.servers| && NamesBundle(dns.servers[i].transport, bundle) {
      assert NamesBundle(ts[i + 1], bundle);
    }
    if NamesBundle(dns.resolving.transport, bundle) {
      assert NamesBundle(ts[0], bundle);
    }
  }

  /** Everything that is new since `before` carries the label. */
  predicate NewIsLabelled(before: Copies, after: Copies) {
    forall key :: key in after && key !in before ==> after[key].labelled
  }

  lemma {:induction false} SyncAllLabels(
    p: Progress, sources: Sources, deleting: bool, names: seq<string>, calls: nat -> Calls)
    ensures NewIsLabelled(p.copies, SyncAll(p, sources, deleting, names, calls).copies)
  {
    if names != [] {
      SyncAllLabels(p, sources, deleting, names[..|names| - 1], calls);
    }
  }

  /** Whatever fails, every copy that a pass creates is labelled, so that a later pass can find it. */
  lemma PassLabels(copies: Copies, sources: Sources, dns: Dns, env: Env)
    ensures NewIsLabelled(copies, Pass(copies, sources, dns, env).copies)
  {
    var p := Synced(copies, sources, dns, env);
    SyncAllLabels(Progress(copies, 0, 0), sources, dns.deleting, Names(dns), env.calls);
    var q := Pass(copies, sources, dns, env).copies;
    forall key | key in q && key !in copies
      ensures q[key].labelled
    {
      CleanAllFrame(p.(errs := p.errs + Errs(env.list)), Names(dns), Listed(env), env.deletes, key);
      CleanAllKeeps(p.(errs := p.errs + Errs(env.list)), Names(dns), Listed(env), env.deletes, key);
    }
  }

  lemma {:induction false} CleanAllKeeps(
    p: Progress, names: seq<string>, listed: seq<string>, deletes: nat -> Api.Outcome, key: string)
    ensures var q := CleanAll(p, names, listed, deletes).copies;
            key in q ==> key in p.copies && q[key] == p.copies[key]
  {
    if listed != [] {
      CleanAllKeeps(p, names, listed[..|listed| - 1], deletes, key);
    }
  }

  predicate AllLabelled(copies: Copies) {
    forall key :: key in copies ==> copies[key].labelled
  }

  lemma {:induction false} SyncAllKeepsLabels(
    p: Progress, sources: Sources, deleting: bool, names: seq<string>, calls: nat -> Calls)
    requires AllLabelled(p.copies)
    ensures AllLabelled(SyncAll(p, sources, deleting, names, calls).copies)
  {
    if names != [] {
      SyncAllKeepsLabels(p, sources, deleting, names[..|names| - 1], calls);
    }
  }

  lemma PassKeepsLabels(copies: Copies, sources: Sources, dns: Dns, env: Env)
    requires AllLabelled(copies)
    ensures AllLabelled(Pass(copies, sources, dns, env).copies)
  {
    var p := Synced(copies, sources, dns, env);
    SyncAllKeepsLabels(Progress(copies, 0, 0), sources, dns.deleting, Names(dns), env.calls);
    var q := Pass(copies, sources, dns, env).copies;
    forall key | key in q
      ensures q[key].labelled
    {
      CleanAllKeeps(p.(errs := p.errs + Errs(env.list)), Names(dns), Listed(env), env.deletes, key);
    }
  }

  lemma {:induction false} RoundsKeepLabels(copies: Copies, rs: seq<Round>)
    requires AllLabelled(copies)
    ensures AllLabelled(Rounds(copies, rs))
  {
    if rs != [] {
      var k := |rs| - 1;
      RoundsKeepLabels(copies, rs[..k]);
      PassKeepsLabels(Rounds(copies, rs[..k]), rs[k].sources, rs[k].dns, rs[k].env);
    }
  }

  /**
   Nothing is left behind: in a namespace that began without other configmaps, after any run and then one error-free
   pass over a fresh cache, every copy is of a bundle that is still referred to.
   */
  lemma NothingIsLeftBehind(rs: seq<Round>, sources: Sources, dns: Dns, env: Env, key: string)
    requires var before := Rounds(map[], rs);
             && Pass(before, sources, dns, env).errs == 0
             && Fresh(env.cached, Synced(before, sources, dns, env).copies)
             && key in Pass(before, sources, dns, env).copies
    ensures IsReferred(Names(dns), key)
  {
    var before := Rounds(map[], rs);
    RoundsKeepLabels(map[], rs);
    PassKeepsLabels(before, sources, dns, env);
    PassSettles(before, sources, dns, env);
  }

  /** No call fails. */
  ghost predicate AllSucceed(env: Env) {
    && env.list.Ok? && (forall k :: env.deletes(k).Ok?)
    && (forall k :: env.calls(k).getSource.Ok? && env.calls(k).getCopy.Ok? && env.calls(k).write.Ok?)
  }

  lemma {:induction false} SyncAllSucceeds(
    p: Progress, sources: Sources, deleting: bool, names: seq<string>, calls: nat -> Calls)
    requires forall k :: calls(k).getSource.Ok? && calls(k).getCopy.Ok? && calls(k).write.Ok?
    ensures SyncAll(p, sources, deleting, names, calls).errs == p.errs
  {
    if names != [] {
      SyncAllSucceeds(p, sources, deleting, names[..|names| - 1], calls);
    }
  }

  lemma {:induction false} CleanAllSucceeds(
    p: Progress, names: seq<string>, listed: seq<string>, deletes: nat -> Api.Outcome)
    requires forall k :: deletes(k).Ok?
    ensures CleanAll(p, names, listed, deletes).errs == p.errs
  {
    if listed != [] {
      CleanAllSucceeds(p, names, listed[..|listed| - 1], deletes);
    }
  }

  /** A pass in which no call fails reports no error, even where a source is missing. */
  lemma NoFailureNoError(copies: Copies, sources: Sources, dns: Dns, env: Env)
    requires AllSucceed(env)
    ensures Pass(copies, sources, dns, env).errs == 0
  {
    var p := Synced(copies, sources, dns, env);
    SyncAllSucceeds(Progress(copies, 0, 0), sources, dns.deleting, Names(dns), env.calls);
    CleanAllSucceeds(p.(errs := p.errs + Errs(env.list)), Names(dns), Listed(env), env.deletes);
  }

  /** When the copies cannot be listed, none is removed by the clean-up. */
  lemma ListFailureRemovesNothing(copies: Copies, sources: Sources, dns: Dns, env: Env)
    requires !env.list.Ok?
    ensures Pass(copies, sources, dns, env).copies == Synced(copies, sources, dns, env).copies
    ensures Pass(copies, sources, dns, env).errs == Synced(copies, sources, dns, env).errs + 1
  {}

  /** A copy whose source or whose own state could not be read is left alone, and the failure is counted. */
  lemma FailedReadTouchesNothing(p: Progress, sources: Sources, deleting: bool, name: string, c: Calls)
    requires !c.getSource.Ok? || (name in sources && !c.getCopy.Ok?)
    ensures SyncOne(p, sources, deleting, name, c) == p.(errs := p.errs + 1)
  {}
}

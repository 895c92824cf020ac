/**
 The forward blocks of the generated Corefile
 (pkg/operator/controller/controller_dns_configmap.go).
 */
module Corefile {
  import opened Wrappers
  import opened Upstreams
  import opened TlsSettings

  const PREFIX := "tls://"
  const CA_FILE := "ca-bundle.crt"

  /** From the name of a bundle to the name and revision of its copy. */
  type Revisions = map<string, string>

  datatype Block = Block(
    targets: seq<string>, serverName: Option<string>, caPath: Option<string>, policy: string, forceTcp: bool)

  datatype Config = Config(servers: seq<Block>, default: Block)

  datatype ConfigError = Refused(reason: TlsError) | InvalidUpstream

  datatype Outcome = Ok(config: Config) | Err(error: ConfigError)

  function Policy(policy: string): string {
    match policy
    case "RoundRobin" => "round_robin"
    case "Sequential" => "sequential"
    case _ => "random"
  }

  function Prefixed(prefix: string, tokens: seq<string>): (r: seq<string>)
    ensures |r| == |tokens| && forall i :: 0 <= i < |r| ==> r[i] == prefix + tokens[i]
  {
    seq(|tokens|, i requires 0 <= i < |tokens| => prefix + tokens[i])
  }

  /** Where the bundle of one server name is mounted. */
  function MountDir(serverName: string, revision: string): string {
    "/etc/pki/" + serverName + "-" + revision
  }

  function CaPath(tls: Tls, revisions: Revisions): Option<string> {
    if tls.caBundle in revisions && revisions[tls.caBundle] != "" then
      Some(MountDir(tls.serverName, revisions[tls.caBundle]) + "/" + CA_FILE)
    else None
  }

  /** One forward block: the prefix follows the transport, the TLS lines follow the server name. */
  function Render(tokens: seq<string>, t: Transport, policy: string, strategy: string, revisions: Revisions): Block {
    Block(
      if t.mode == TLS then Prefixed(PREFIX, tokens) else tokens,
      if Named(t) then Some(t.tls.value.serverName) else None,
      if Named(t) then CaPath(t.tls.value, revisions) else None,
      Policy(policy),
      strategy == "TCP")
  }

  function RenderServer(s: Server, revisions: Revisions): Block {
    Render(s.upstreams, s.transport, s.policy, s.strategy, revisions)
  }

  function RenderServers(servers: seq<Server>, revisions: Revisions): (r: seq<Block>)
    ensures |r| == |servers| && forall i :: 0 <= i < |r| ==> r[i] == RenderServer(servers[i], revisions)
  {
    seq(|servers|, i requires 0 <= i < |servers| => RenderServer(servers[i], revisions))
  }

  function RenderDefault(r: Resolving, upstreams: seq<Upstream>, revisions: Revisions): Block {
    Render(Tokens(upstreams), r.transport, if r.policy == "" then "Sequential" else r.policy, r.strategy, revisions)
  }

  /** The whole configuration of a DNS, or the reason why there is none. */
  function Generate(dns: Dns, isIP: string -> bool, revisions: Revisions): Outcome {
    match SanitizeError(dns, isIP)
    case Some(e) => Err(Refused(e))
    case None =>
      match Resolvers(dns.resolving.upstreams)
      case None => Err(InvalidUpstream)
      case Some(us) =>
        var clean := Sanitized(dns);
        Ok(Config(RenderServers(clean.servers, revisions), RenderDefault(clean.resolving, us, revisions)))
  }

  method DesiredDnsConfigMap(dns: Dns, isIP: string -> bool, revisions: Revisions) returns (r: Outcome)
    ensures r == Generate(dns, isIP, revisions)
  {
    var clean, err := SanitizeTlsSettings(dns, isIP);
    if err.Some? {
      return Err(Refused(err.value));
    }
    var resolvers := DesiredUpstreams(clean.resolving.upstreams);
    if resolvers.None? {
      return Err(InvalidUpstream);
    }
    var servers := RenderServers(clean.servers, revisions);
    return Ok(Config(servers, RenderDefault(clean.resolving, resolvers.value, revisions)));
  }

  // ---------------------------------------------------------------------
  // Prefix and server name go together
  // ---------------------------------------------------------------------

  /** Every upstream carries the prefix if the block names a server, and none does otherwise. */
  predicate Coherent(b: Block, tokens: seq<string>) {
    b.targets == if b.serverName.Some? then Prefixed(PREFIX, tokens) else tokens
  }

  predicate KnownMode(t: Transport) {
    t.mode in {"", CLEARTEXT, TLS}
  }

  /** The server has no upstream, a transport the operator knows, or no server name. */
  predicate CoherentServer(s: Server) {
    s.upstreams == [] || KnownMode(s.transport) || !Named(s.transport)
  }

  lemma PrefixIsVisible(tokens: seq<string>)
    ensures Prefixed(PREFIX, tokens) == tokens <==> tokens == []
  {
    if tokens != [] {
      assert |Prefixed(PREFIX, tokens)[0]| == |PREFIX| + |tokens[0]|;
    }
  }

  /** The exact condition, for one block of an accepted spec. */
  lemma RenderedIsCoherentIff(tokens: seq<string>, t: Transport, policy: string, strategy: string, revisions: Revisions)
    requires t.mode == TLS ==> Named(t)
    ensures Coherent(Render(tokens, Clean(t), policy, strategy, revisions), tokens)
       <==> (tokens == [] || KnownMode(t) || !Named(t))
  {
    PrefixIsVisible(tokens);
  }

  /**
   In every Corefile that is generated, each block carries the prefix on its upstreams if and only if it
   names a server, except exactly where a server name is set under a transport the operator does not know.
   */
  lemma PrefixIffServerName(dns: Dns, isIP: string -> bool, revisions: Revisions)
    requires Generate(dns, isIP, revisions).Ok?
    ensures var c := Generate(dns, isIP, revisions).config;
      && |c.servers| == |dns.servers|
      && (forall i :: 0 <= i < |c.servers| ==>
        (Coherent(c.servers[i], dns.servers[i].upstreams)
        <==> CoherentServer(dns.servers[i])))
      && (Coherent(c.default, Tokens(Resolvers(dns.resolving.upstreams).value))
        <==> (KnownMode(dns.resolving.transport) || !Named(dns.resolving.transport)))
  {
    var c := Generate(dns, isIP, revisions).config;
    AcceptedMeans(dns, isIP);
    forall i | 0 <= i < |c.servers|
      ensures Coherent(c.servers[i], dns.servers[i].upstreams)
        <==> CoherentServer(dns.servers[i])
    {
      var s := dns.servers[i];
      assert Sanitized(dns).servers[i] == CleanServer(s);
      RenderedIsCoherentIff(s.upstreams, s.transport, s.policy, s.strategy, revisions);
    }
    var r := dns.resolving;
    var us := Resolvers(r.upstreams).value;
    ResolversNotEmpty(r.upstreams);
    var policy := if r.policy == "" then "Sequential" else r.policy;
    RenderedIsCoherentIff(Tokens(us), r.transport, policy, r.strategy, revisions);
  }

  lemma ResolversNotEmpty(us: seq<Upstream>)
    requires Resolvers(us).Some?
    ensures Resolvers(us).value != []
  {
    if us != [] {
      var v := Representative(us, us[0]);
    }
  }

  /** A server name under an unknown transport: the TLS lines are there, the prefix is not. */
  lemma UnknownTransport(isIP: string -> bool, revisions: Revisions, address: string)
    ensures var s := Server("s", ["z"], [address], "", "", Transport("DoH", Some(Tls("name", ""))));
      var dns := Dns([s], Resolving([], "", "", Transport("", None)), false);
      var r := Generate(dns, isIP, revisions);
      r.Ok? && r.config.servers[0].serverName == Some("name") && r.config.servers[0].targets == [address]
  {
    var s := Server("s", ["z"], [address], "", "", Transport("DoH", Some(Tls("name", ""))));
    var dns := Dns([s], Resolving([], "", "", Transport("", None)), false);
    assert FirstRefused([s], isIP) == 1;
    assert Sanitized(dns).servers[0] == s;
  }

  // ---------------------------------------------------------------------
  // TLS and the system resolver
  // ---------------------------------------------------------------------

  /**
   An accepted TLS configuration still forwards to the system resolver's file exactly when some upstream
   is of a type other than the two that are spelled out, such as the empty one.
   */
  lemma TlsReachesSystemResolverIff(dns: Dns, isIP: string -> bool, revisions: Revisions)
    requires Generate(dns, isIP, revisions).Ok? && dns.resolving.transport.mode == TLS
    ensures PREFIX + RESOLV_CONF in Generate(dns, isIP, revisions).config.default.targets
       <==> exists u :: u in dns.resolving.upstreams && u.kind != NETWORK && u.kind != SYSTEM
  {
    AcceptedMeans(dns, isIP);
    var us := dns.resolving.upstreams;
    assert Generate(dns, isIP, revisions).config.default.targets == Prefixed(PREFIX, Tokens(Dedup(us)));
    PrefixedMember(PREFIX, Tokens(Dedup(us)), RESOLV_CONF);
    FileIsListedIff(us);
  }

  /** One upstream without a type, under TLS with a server name: accepted, and rendered as the file. */
  lemma UntypedUpstreamUnderTls(isIP: string -> bool, revisions: Revisions, serverName: string)
    requires serverName != ""
    ensures var t := Transport(TLS, Some(Tls(serverName, "")));
            var dns := Dns([], Resolving([Upstream("", "", 53)], "", "", t), false);
            && Generate(dns, isIP, revisions).Ok?
            && Generate(dns, isIP, revisions).config.default.targets == [PREFIX + RESOLV_CONF]
  {
    var t := Transport(TLS, Some(Tls(serverName, "")));
    var u := Upstream("", "", 53);
    var dns := Dns([], Resolving([u], "", "", t), false);
    assert SanitizeError(dns, isIP) == None;
    DedupOne(u);
    assert Resolvers([u]) == Some([u]);
    assert Tokens([u]) == [RESOLV_CONF];
  }

  lemma DedupOne(u: Upstream)
    ensures Dedup([u]) == [u]
  {
    assert [u][..0] == [] && !Contains([], u);
  }

  lemma PrefixedMember(prefix: string, tokens: seq<string>, t: string)
    ensures prefix + t in Prefixed(prefix, tokens) <==> t in tokens
  {
    if t in tokens {
      var i :| 0 <= i < |tokens| && tokens[i] == t;
      assert Prefixed(prefix, tokens)[i] == prefix + t;
    }
    if prefix + t in Prefixed(prefix, tokens) {
      var i :| 0 <= i < |tokens| && Prefixed(prefix, tokens)[i] == prefix + t;
      assert tokens[i] == (prefix + tokens[i])[|prefix|..] == t;
    }
  }

  lemma FileIsListedIff(us: seq<Upstream>)
    ensures RESOLV_CONF in Tokens(Dedup(us)) <==> exists u :: u in us && !IsNetwork(u)
  {
    var kept := Dedup(us);
    if u :| u in us && !IsNetwork(u) {
      var v := Representative(us, u);
      var i :| 0 <= i < |kept| && kept[i] == v;
      assert Tokens(kept)[i] == RESOLV_CONF;
    }
    if RESOLV_CONF in Tokens(kept) {
      var i :| 0 <= i < |kept| && Tokens(kept)[i] == RESOLV_CONF;
      if IsNetwork(kept[i]) {
        NetworkTokenIsNotAFile(kept[i]);
      }
      DedupWithin(us);
      assert kept[i] in us;
    }
  }

  /** The targets, the policy line and the protocol line of one block, in the words of the Corefile. */
  lemma RenderSays(tokens: seq<string>, t: Transport, policy: string, strategy: string, revisions: Revisions)
    ensures var b := Render(tokens, t, policy, strategy, revisions);
            && b.policy == (if policy == "RoundRobin" then "round_robin" else
                            if policy == "Sequential" then "sequential" else "random")
            && (b.forceTcp <==> strategy == "TCP")
            && b.targets == (if t.mode == "TLS" then Prefixed("tls://", tokens) else tokens)
  {}

  /** The TLS lines: the server name if there is one, and then the path of the bundle if it has a revision. */
  lemma TlsLinesSay(tokens: seq<string>, t: Transport, policy: string, strategy: string, revisions: Revisions)
    ensures var b := Render(tokens, t, policy, strategy, revisions);
            && (b.serverName.Some? <==> t.tls.Some? && t.tls.value.serverName != "")
            && (b.serverName.Some? ==> b.serverName.value == t.tls.value.serverName)
            && (b.caPath.Some? <==>
                  && b.serverName.Some? && t.tls.value.caBundle in revisions
                  && revisions[t.tls.value.caBundle] != "")
            && (b.caPath.Some? ==>
                  b.caPath.value ==
                  "/etc/pki/" + b.serverName.value + "-" + revisions[t.tls.value.caBundle] + "/" + "ca-bundle.crt")
  {}

  /** Without upstreams and without a policy, queries go in sequence to the system resolver, in the clear. */
  lemma DefaultConfiguration(isIP: string -> bool, revisions: Revisions, strategy: string)
    ensures var dns := Dns([], Resolving([], "", strategy, Transport("", None)), false);
            Generate(dns, isIP, revisions) ==
            Ok(Config([], Block(["/etc/resolv.conf"], None, None, "sequential", strategy == "TCP")))
  {
    var system := Upstream(SYSTEM, "", 0);
    assert Tokens([system]) == [RESOLV_CONF];
  }

  /** The servers of a generated Corefile, each with its own upstreams, policy and protocol. */
  lemma ServersSay(dns: Dns, isIP: string -> bool, revisions: Revisions, i: nat)
    requires Generate(dns, isIP, revisions).Ok? && i < |dns.servers|
    ensures var c := Generate(dns, isIP, revisions).config;
            && |c.servers| == |dns.servers|
            && c.servers[i] == Render(
                 dns.servers[i].upstreams, Clean(dns.servers[i].transport), dns.servers[i].policy,
                 dns.servers[i].strategy, revisions)
  {
    assert Sanitized(dns).servers[i] == CleanServer(dns.servers[i]);
  }

  /** When there is no Corefile: a refused transport, or a network upstream without an address. */
  lemma GenerateFailsIff(dns: Dns, isIP: string -> bool, revisions: Revisions)
    ensures Generate(dns, isIP, revisions).Err? <==>
            || SanitizeError(dns, isIP).Some?
            || exists i :: 0 <= i < |dns.resolving.upstreams|
                 && dns.resolving.upstreams[i].kind == "Network" && dns.resolving.upstreams[i].address == ""
  {
    ResolversSay(dns.resolving.upstreams);
  }
}

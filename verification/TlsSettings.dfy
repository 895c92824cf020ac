/**
 The transport settings of a DNS spec and their clean-up before rendering
 (pkg/operator/controller/controller_dns_configmap.go). `isIP` says whether an
 upstream, with or without a port, is an IP address.
 */
module TlsSettings {
  import opened Wrappers
  import opened Upstreams

  const TLS := "TLS"
  const CLEARTEXT := "Cleartext"

  datatype Tls = Tls(serverName: string, caBundle: string)

  datatype Transport = Transport(mode: string, tls: Option<Tls>)

  datatype Server = Server(
    name: string, zones: seq<string>, upstreams: seq<string>, policy: string, strategy: string, transport: Transport)

  datatype Resolving = Resolving(upstreams: seq<Upstream>, policy: string, strategy: string, transport: Transport)

  datatype Dns = Dns(servers: seq<Server>, resolving: Resolving, deleting: bool)

  datatype TlsError = NoServerName | NotAnIP | SystemResolver

  // ---------------------------------------------------------------------
  // What is refused
  // ---------------------------------------------------------------------

  predicate Named(t: Transport) {
    t.tls.Some? && t.tls.value.serverName != ""
  }

  function ServerError(s: Server, isIP: string -> bool): Option<TlsError> {
    if s.transport.mode != TLS then None
    else if !Named(s.transport) then Some(NoServerName)
    else if exists u :: u in s.upstreams && !isIP(u) then Some(NotAnIP)
    else None
  }

  function ResolvingError(r: Resolving): Option<TlsError> {
    if r.transport.mode != TLS then None
    else if !Named(r.transport) then Some(NoServerName)
    else if r.upstreams == [] || exists u :: u in r.upstreams && u.kind == SYSTEM then Some(SystemResolver)
    else None
  }

  /** The first server that is refused, or the number of servers. */
  function FirstRefused(servers: seq<Server>, isIP: string -> bool): (k: nat)
    ensures k <= |servers|
    ensures forall i :: 0 <= i < k ==> ServerError(servers[i], isIP) == None
    ensures k < |servers| ==> ServerError(servers[k], isIP) != None
  {
    if servers == [] || ServerError(servers[0], isIP) != None then 0 else 1 + FirstRefused(servers[1..], isIP)
  }

  /** Servers are examined before the default resolvers, and the first fault found is the one reported. */
  function SanitizeError(dns: Dns, isIP: string -> bool): Option<TlsError> {
    var k := FirstRefused(dns.servers, isIP);
    if k < |dns.servers| then ServerError(dns.servers[k], isIP) else ResolvingError(dns.resolving)
  }

  // ---------------------------------------------------------------------
  // What is cleaned up
  // ---------------------------------------------------------------------

  function Clean(t: Transport): Transport {
    var mode := if t.mode == "" then CLEARTEXT else t.mode;
    Transport(mode, if mode == CLEARTEXT && t.tls.Some? then Some(t.tls.value.(serverName := "")) else t.tls)
  }

  function CleanServer(s: Server): Server {
    s.(transport := Clean(s.transport))
  }

  function CleanServers(servers: seq<Server>): (r: seq<Server>)
    ensures |r| == |servers|
    ensures forall i :: 0 <= i < |r| ==> r[i] == CleanServer(servers[i])
  {
    seq(|servers|, i requires 0 <= i < |servers| => CleanServer(servers[i]))
  }

  function Sanitized(dns: Dns): Dns {
    Dns(CleanServers(dns.servers), dns.resolving.(transport := Clean(dns.resolving.transport)), dns.deleting)
  }

  method AllIPs(upstreams: seq<string>, isIP: string -> bool) returns (ok: bool)
    ensures ok <==> forall u :: u in upstreams ==> isIP(u)
  {
    for i := 0 to |upstreams|
      invariant forall j :: 0 <= j < i ==> isIP(upstreams[j])
    {
      if !isIP(upstreams[i]) {
        return false;
      }
    }
    return true;
  }

  method HasSystemResolver(upstreams: seq<Upstream>) returns (found: bool)
    ensures found <==> exists u :: u in upstreams && u.kind == SYSTEM
  {
    for i := 0 to |upstreams|
      invariant forall j :: 0 <= j < i ==> upstreams[j].kind != SYSTEM
    {
      if upstreams[i].kind == SYSTEM {
        return true;
      }
    }
    return false;
  }

  method CheckServer(s: Server, isIP: string -> bool) returns (err: Option<TlsError>)
    ensures err == ServerError(s, isIP)
  {
    if s.transport.mode == TLS {
      if s.transport.tls == None || s.transport.tls.value.serverName == "" {
        return Some(NoServerName);
      }
      var ok := AllIPs(s.upstreams, isIP);
      if !ok {
        return Some(NotAnIP);
      }
    }
    return None;
  }

  method CleanTransport(given: Transport) returns (t: Transport)
    ensures t == Clean(given)
  {
    t := given;
    if t.mode == "" {
      t := t.(mode := CLEARTEXT);
    }
    if t.mode == CLEARTEXT && t.tls.Some? && t.tls.value.serverName != "" {
      t := t.(tls := Some(t.tls.value.(serverName := "")));
    }
  }

  method CheckResolving(r: Resolving) returns (err: Option<TlsError>)
    ensures err == ResolvingError(r)
  {
    if r.transport.mode == TLS {
      if r.transport.tls == None || r.transport.tls.value.serverName == "" {
        return Some(NoServerName);
      }
      var system := HasSystemResolver(r.upstreams);
      if |r.upstreams| < 1 || system {
        return Some(SystemResolver);
      }
    }
    return None;
  }

  /** The first `k` servers cleaned up, the others as they were. */
  function CleanUpTo(servers: seq<Server>, k: nat): (r: seq<Server>)
    requires k <= |servers|
    ensures |r| == |servers|
    ensures forall i :: 0 <= i < k ==> r[i] == CleanServer(servers[i])
    ensures forall i :: k <= i < |r| ==> r[i] == servers[i]
  {
    CleanServers(servers[..k]) + servers[k..]
  }

  lemma CleanStep(servers: seq<Server>, k: nat)
    requires k < |servers|
    ensures CleanUpTo(servers, k)[k := CleanServer(servers[k])] == CleanUpTo(servers, k + 1)
  {}

  /** One server: its fault, or its cleaned-up copy. */
  method SanitizeServer(s: Server, isIP: string -> bool) returns (r: Server, err: Option<TlsError>)
    ensures err == ServerError(s, isIP) && r == if err == None then CleanServer(s) else s
  {
    r := s;
    err := CheckServer(s, isIP);
    if err == None {
      var t := CleanTransport(s.transport);
      r := s.(transport := t);
    }
  }

  method SanitizeServers(servers: seq<Server>, isIP: string -> bool)
    returns (updated: seq<Server>, err: Option<TlsError>)
    ensures var k := FirstRefused(servers, isIP);
      && updated == CleanUpTo(servers, k)
      && err == if k == |servers| then None else ServerError(servers[k], isIP)
  {
    updated, err := SanitizeUpTo(servers, isIP, FirstRefused(servers, isIP));
  }

  /** The loop, for the index at which it is going to stop. */
  method SanitizeUpTo(servers: seq<Server>, isIP: string -> bool, ghost k: nat)
    returns (updated: seq<Server>, err: Option<TlsError>)
    requires k <= |servers| && forall i :: 0 <= i < k ==> ServerError(servers[i], isIP) == None
    requires k < |servers| ==> ServerError(servers[k], isIP) != None
    ensures updated == CleanUpTo(servers, k)
    ensures err == if k == |servers| then None else ServerError(servers[k], isIP)
  {
    updated, err := servers, None;
    for i := 0 to |servers|
      invariant i <= k && err == None
      invariant updated == CleanUpTo(servers, i)
    {
      var server;
      server, err := SanitizeServer(servers[i], isIP);
      if err != None {
        assert i == k;
        return;
      }
      assert i < k;
      CleanStep(servers, i);
      updated := updated[i := server];
    }
  }

  /** On an error the copy is returned with the servers before the offending one already cleaned up. */
  method SanitizeTlsSettings(dns: Dns, isIP: string -> bool) returns (updated: Dns, err: Option<TlsError>)
    ensures err == SanitizeError(dns, isIP)
    ensures err == None ==> updated == Sanitized(dns)
    ensures err != None ==> updated == dns.(servers := CleanUpTo(dns.servers, FirstRefused(dns.servers, isIP)))
  {
    var servers;
    servers, err := SanitizeServers(dns.servers, isIP);
    updated := dns.(servers := servers);
    if err != None {
      return;
    }
    err := CheckResolving(dns.resolving);
    if err != None {
      return;
    }
    var t := CleanTransport(dns.resolving.transport);
    updated := updated.(resolving := dns.resolving.(transport := t));
    assert servers == CleanServers(dns.servers);
  }

  // ---------------------------------------------------------------------
  // Laws
  // ---------------------------------------------------------------------

  /** Accepted means: wherever TLS is on, a server name is there, and nothing but IP addresses is asked. */
  lemma AcceptedMeans(dns: Dns, isIP: string -> bool)
    ensures SanitizeError(dns, isIP) == None <==>
      && (forall i :: 0 <= i < |dns.servers| && dns.servers[i].transport.mode == TLS ==>
        Named(dns.servers[i].transport) && forall u :: u in dns.servers[i].upstreams ==> isIP(u))
      && (dns.resolving.transport.mode == TLS ==>
        && Named(dns.resolving.transport) && dns.resolving.upstreams != []
        && forall u :: u in dns.resolving.upstreams ==> u.kind != SYSTEM)
  {
    var k := FirstRefused(dns.servers, isIP);
    forall i | 0 <= i < |dns.servers|
      ensures ServerError(dns.servers[i], isIP) == None <==>
        (dns.servers[i].transport.mode == TLS ==>
        Named(dns.servers[i].transport) && forall u :: u in dns.servers[i].upstreams ==> isIP(u))
    {}
  }

  /** No bundle and nothing under TLS is touched; what changes is cleartext without a server name afterwards. */
  predicate OnlyCleaned(before: Transport, after: Transport) {
    && (after.tls.Some? <==> before.tls.Some?)
    && (before.tls.Some? ==> after.tls.value.caBundle == before.tls.value.caBundle)
    && after.mode == (if before.mode == "" then "Cleartext" else before.mode)
    && (after.mode == "Cleartext" ==> !Named(after))
    && (after.mode != "Cleartext" ==> after == before)
  }

  /** Of servers and default resolvers alike, upstreams, zones, policies and strategies stay as they are. */
  lemma SanitizingKeepsTheRest(dns: Dns)
    ensures var d := Sanitized(dns);
            && |d.servers| == |dns.servers| && d.deleting == dns.deleting
            && (forall i :: 0 <= i < |d.servers| ==>
                  && d.servers[i].(transport := dns.servers[i].transport) == dns.servers[i]
                  && OnlyCleaned(dns.servers[i].transport, d.servers[i].transport))
            && d.resolving.(transport := dns.resolving.transport) == dns.resolving
            && OnlyCleaned(dns.resolving.transport, d.resolving.transport)
  {
    var d := Sanitized(dns);
    forall i | 0 <= i < |d.servers|
      ensures d.servers[i].(transport := dns.servers[i].transport) == dns.servers[i]
      ensures OnlyCleaned(dns.servers[i].transport, d.servers[i].transport)
    {
      assert d.servers[i] == CleanServer(dns.servers[i]);
    }
  }

  /** Sanitising what was sanitised succeeds and changes nothing. */
  lemma SanitizingIsIdempotent(dns: Dns, isIP: string -> bool)
    requires SanitizeError(dns, isIP) == None
    ensures SanitizeError(Sanitized(dns), isIP) == None
    ensures Sanitized(Sanitized(dns)) == Sanitized(dns)
  {
    var d := Sanitized(dns);
    forall i | 0 <= i < |d.servers|
      ensures ServerError(d.servers[i], isIP) == None && Clean(d.servers[i].transport) == d.servers[i].transport
    {
      assert d.servers[i] == CleanServer(dns.servers[i]);
    }
    assert CleanServers(d.servers) == d.servers;
  }

  /** Which fault is reported: of the first faulty server, or else of the default resolvers; the missing name first. */
  lemma FaultSays(dns: Dns, isIP: string -> bool, k: nat)
    requires k < |dns.servers|
    requires forall i :: 0 <= i < k ==> ServerError(dns.servers[i], isIP) == None
    requires dns.servers[k].transport.mode == "TLS"
    ensures !Named(dns.servers[k].transport) ==> SanitizeError(dns, isIP) == Some(NoServerName)
    ensures Named(dns.servers[k].transport) && (exists u :: u in dns.servers[k].upstreams && !isIP(u)) ==>
            SanitizeError(dns, isIP) == Some(NotAnIP)
  {
    if ServerError(dns.servers[k], isIP) != None {
      FirstFault(dns.servers, isIP, k);
    }
  }

  lemma FirstFault(servers: seq<Server>, isIP: string -> bool, k: nat)
    requires k < |servers| && ServerError(servers[k], isIP) != None
    requires forall i :: 0 <= i < k ==> ServerError(servers[i], isIP) == None
    ensures FirstRefused(servers, isIP) == k
  {}

  predicate AsksTheSystem(r: Resolving) {
    r.upstreams == [] || exists u :: u in r.upstreams && u.kind == "SystemResolvConf"
  }

  lemma ResolvingFaultSays(dns: Dns, isIP: string -> bool)
    requires forall i :: 0 <= i < |dns.servers| ==> ServerError(dns.servers[i], isIP) == None
    requires dns.resolving.transport.mode == "TLS"
    ensures !Named(dns.resolving.transport) ==> SanitizeError(dns, isIP) == Some(NoServerName)
    ensures Named(dns.resolving.transport) && AsksTheSystem(dns.resolving) ==>
            SanitizeError(dns, isIP) == Some(SystemResolver)
  {
    assert FirstRefused(dns.servers, isIP) == |dns.servers|;
  }
}

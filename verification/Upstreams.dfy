/**
 Upstream resolvers in the Corefile: deduplication and rendering
 (pkg/operator/controller/controller_dns_configmap.go). Case folding is that of
 ASCII, which covers IP addresses.
 */
module Upstreams {
  import opened Wrappers

  const NETWORK := "Network"
  const SYSTEM := "SystemResolvConf"
  const RESOLV_CONF := "/etc/resolv.conf"
  const DEFAULT_PORT := 53
  const DEFAULT_TLS_PORT := 853

  datatype Upstream = Upstream(kind: string, address: string, port: nat)

  predicate IsNetwork(u: Upstream) {
    u.kind == NETWORK
  }

  // ---------------------------------------------------------------------
  // When two upstreams count as the same
  // ---------------------------------------------------------------------

  function UpperChar(c: char): char {
    if 'a' <= c <= 'z' then c - 'a' + 'A' else c
  }

  function Upper(s: string): (r: string)
    ensures |r| == |s|
    ensures forall i :: 0 <= i < |r| ==> !('a' <= r[i] <= 'z')
    ensures forall i :: 0 <= i < |r| ==> r[i] as int == s[i] as int - if 'a' <= s[i] <= 'z' then 32 else 0
  {
    seq(|s|, i requires 0 <= i < |s| => UpperChar(s[i]))
  }

  function KindOr(kind: string): string {
    if kind == "" then SYSTEM else kind
  }

  function PortOr(port: nat, default: nat): nat {
    if port == 0 then default else port
  }

  predicate Equiv(a: Upstream, b: Upstream) {
    && KindOr(a.kind) == KindOr(b.kind)
    && Upper(a.address) == Upper(b.address)
    && PortOr(a.port, DEFAULT_PORT) == PortOr(b.port, DEFAULT_PORT)
  }

  /** The same letter, in upper or in lower case, or the same character. */
  predicate SameLetter(a: char, b: char) {
    || a == b
    || ('A' <= a <= 'Z' && b as int == a as int + 32)
    || ('A' <= b <= 'Z' && a as int == b as int + 32)
  }

  predicate SameAddress(a: string, b: string) {
    |a| == |b| && forall i :: 0 <= i < |a| ==> SameLetter(a[i], b[i])
  }

  lemma SameAddressIff(a: string, b: string)
    ensures Upper(a) == Upper(b) <==> SameAddress(a, b)
  {
    if Upper(a) == Upper(b) {
      forall i | 0 <= i < |a|
        ensures SameLetter(a[i], b[i])
      {
        assert Upper(a)[i] == Upper(b)[i];
      }
    }
    if SameAddress(a, b) {
      forall i | 0 <= i < |a|
        ensures Upper(a)[i] == Upper(b)[i]
      {
        assert SameLetter(a[i], b[i]);
      }
    }
  }

  /** Two upstreams count as the same when they agree up to case, the default type and the default port. */
  lemma EquivSays(a: Upstream, b: Upstream)
    ensures Equiv(a, b) <==>
            && (a.kind == b.kind || (a.kind in {"", "SystemResolvConf"} && b.kind in {"", "SystemResolvConf"}))
            && SameAddress(a.address, b.address)
            && (a.port == b.port || (a.port in {0, 53} && b.port in {0, 53}))
  {
    SameAddressIff(a.address, b.address);
  }

  // ---------------------------------------------------------------------
  // Deduplication
  // ---------------------------------------------------------------------

  predicate Contains(us: seq<Upstream>, u: Upstream) {
    exists v :: v in us && Equiv(u, v)
  }

  /** Keeps an upstream unless an equivalent one was kept before it. */
  function Dedup(us: seq<Upstream>): seq<Upstream> {
    if us == [] then []
    else
      var kept, u := Dedup(us[..|us| - 1]), us[|us| - 1];
      if Contains(kept, u) then kept else kept + [u]
  }

  predicate Invalid(u: Upstream) {
    IsNetwork(u) && u.address == ""
  }

  /** The list that is rendered; None is the error for a network upstream without an address. */
  function Resolvers(us: seq<Upstream>): Option<seq<Upstream>> {
    if us == [] then Some([Upstream(SYSTEM, "", 0)])
    else if exists u :: u in us && Invalid(u) then None
    else Some(Dedup(us))
  }

  /** No upstreams mean the system resolver; a network upstream without an address is the only error. */
  lemma ResolversSay(us: seq<Upstream>)
    ensures Resolvers([]) == Some([Upstream("SystemResolvConf", "", 0)])
    ensures Resolvers(us) == None <==> exists i :: 0 <= i < |us| && us[i].kind == "Network" && us[i].address == ""
    ensures us != [] && Resolvers(us).Some? ==> Resolvers(us).value == Dedup(us)
  {
    if u :| u in us && Invalid(u) {
      var i :| 0 <= i < |us| && us[i] == u;
    }
    if i :| 0 <= i < |us| && us[i].kind == "Network" && us[i].address == "" {
      assert us[i] in us && Invalid(us[i]);
    }
  }

  method ContainsUpstream(us: seq<Upstream>, u: Upstream) returns (found: bool)
    ensures found <==> Contains(us, u)
  {
    for i := 0 to |us|
      invariant !Contains(us[..i], u)
    {
      if Equiv(u, us[i]) {
        assert us[i] in us;
        return true;
      }
      assert us[..i + 1] == us[..i] + [us[i]];
    }
    assert us[..|us|] == us;
    return false;
  }

  lemma DedupStep(us: seq<Upstream>, i: nat)
    requires i < |us|
    ensures var kept := Dedup(us[..i]); Dedup(us[..i + 1]) == if Contains(kept, us[i]) then kept else kept + [us[i]]
  {
    assert us[..i + 1][..i] == us[..i];
  }

  predicate AnyInvalid(us: seq<Upstream>) {
    exists i :: 0 <= i < |us| && Invalid(us[i])
  }

  lemma ResolversByIndex(us: seq<Upstream>)
    requires us != []
    ensures Resolvers(us) == if AnyInvalid(us) then None else Some(Dedup(us))
  {
    if u :| u in us && Invalid(u) {
      var i :| 0 <= i < |us| && us[i] == u;
    }
    if i :| 0 <= i < |us| && Invalid(us[i]) {
      assert us[i] in us;
    }
  }

  /** The loop over the given upstreams; None when one of them is invalid. */
  method DedupUpstreams(us: seq<Upstream>) returns (r: Option<seq<Upstream>>)
    ensures r == if AnyInvalid(us) then None else Some(Dedup(us))
  {
    var upstreams := [];
    for i := 0 to |us|
      invariant forall j :: 0 <= j < i ==> !Invalid(us[j])
      invariant upstreams == Dedup(us[..i])
    {
      if IsNetwork(us[i]) && us[i].address == "" {
        assert Invalid(us[i]);
        return None;
      }
      upstreams := AddUnlessThere(us, i, upstreams);
    }
    assert us[..|us|] == us;
    return Some(upstreams);
  }

  method AddUnlessThere(us: seq<Upstream>, i: nat, kept: seq<Upstream>) returns (r: seq<Upstream>)
    requires i < |us| && kept == Dedup(us[..i])
    ensures r == Dedup(us[..i + 1])
  {
    DedupStep(us, i);
    r := kept;
    var found := ContainsUpstream(kept, us[i]);
    if !found {
      r := kept + [us[i]];
    }
  }

  method DesiredUpstreams(us: seq<Upstream>) returns (r: Option<seq<Upstream>>)
    ensures r == Resolvers(us)
  {
    r := Some([Upstream(SYSTEM, "", 0)]);
    if us != [] {
      r := DedupUpstreams(us);
      ResolversByIndex(us);
    }
  }

  /** The index of the first upstream that counts as the same as the one at `j`. */
  function FirstSame(us: seq<Upstream>, j: nat): (i: nat)
    requires j < |us|
    ensures i <= j && Equiv(us[j], us[i]) && forall k :: 0 <= k < i ==> !Equiv(us[j], us[k])
  {
    FirstSameFrom(us, j, 0)
  }

  function FirstSameFrom(us: seq<Upstream>, j: nat, from: nat): (i: nat)
    requires from <= j < |us| && forall k :: 0 <= k < from ==> !Equiv(us[j], us[k])
    ensures i <= j && Equiv(us[j], us[i]) && forall k :: 0 <= k < i ==> !Equiv(us[j], us[k])
    decreases j - from
  {
    if Equiv(us[j], us[from]) then from else FirstSameFrom(us, j, from + 1)
  }

  /** The upstreams that have no equivalent before them, in order: what deduplication is meant to keep. */
  function FirstOccurrences(us: seq<Upstream>): seq<Upstream> {
    if us == [] then []
    else FirstOccurrences(us[..|us| - 1]) + if Contains(us[..|us| - 1], us[|us| - 1]) then [] else [us[|us| - 1]]
  }

  lemma {:induction false} DedupWithin(us: seq<Upstream>)
    ensures forall u :: u in Dedup(us) ==> u in us
  {
    if us != [] {
      DedupWithin(us[..|us| - 1]);
    }
  }

  /** The upstream that was kept for `u`. */
  lemma {:induction false} Representative(us: seq<Upstream>, u: Upstream) returns (v: Upstream)
    requires u in us
    ensures v in Dedup(us) && v in us && Equiv(u, v)
  {
    var front, last := us[..|us| - 1], us[|us| - 1];
    if u in front {
      v := Representative(front, u);
    } else if Contains(Dedup(front), last) {
      v :| v in Dedup(front) && Equiv(last, v);
      DedupWithin(front);
    } else {
      v := last;
    }
  }

  lemma DedupCovers(us: seq<Upstream>)
    ensures forall u :: u in us ==> Contains(Dedup(us), u)
    ensures forall u :: u in Dedup(us) ==> u in us
  {
    forall u | u in us
      ensures Contains(Dedup(us), u)
    {
      var v := Representative(us, u);
    }
    DedupWithin(us);
  }

  lemma EquivTransitive(a: Upstream, b: Upstream, c: Upstream)
    requires Equiv(a, b) && Equiv(b, c)
    ensures Equiv(a, c)
  {}

  /** Comparing with what was kept is as good as comparing with everything before. */
  lemma ContainsSurvivesDedup(us: seq<Upstream>, u: Upstream)
    ensures Contains(Dedup(us), u) <==> Contains(us, u)
  {
    DedupWithin(us);
    if Contains(us, u) {
      var v :| v in us && Equiv(u, v);
      var w := Representative(us, v);
      EquivTransitive(u, v, w);
    }
  }

  /** Deduplication keeps exactly the first occurrences, in order. */
  lemma {:induction false} DedupKeepsFirstOccurrences(us: seq<Upstream>)
    ensures Dedup(us) == FirstOccurrences(us)
  {
    if us != [] {
      var front, last := us[..|us| - 1], us[|us| - 1];
      DedupKeepsFirstOccurrences(front);
      ContainsSurvivesDedup(front, last);
    }
  }

  lemma {:induction false} DedupIsPairwiseDifferent(us: seq<Upstream>)
    ensures forall i, j :: 0 <= i < j < |Dedup(us)| ==> !Equiv(Dedup(us)[i], Dedup(us)[j])
  {
    if us != [] {
      var front, last := us[..|us| - 1], us[|us| - 1];
      DedupIsPairwiseDifferent(front);
      var kept := Dedup(front);
      assert forall i :: 0 <= i < |kept| ==> kept[i] in kept;
    }
  }

  // ---------------------------------------------------------------------
  // Rendering
  // ---------------------------------------------------------------------

  function Digit(d: nat): char
    requires d < 10
  {
    ['0', '1', '2', '3', '4', '5', '6', '7', '8', '9'][d]
  }

  predicate Digits(s: string) {
    forall i :: 0 <= i < |s| ==> '0' <= s[i] <= '9'
  }

  function Decimal(n: nat): (s: string)
    ensures s != [] && Digits(s)
  {
    if n < 10 then [Digit(n)] else Decimal(n / 10) + [Digit(n % 10)]
  }

  /** IPv6 literals are bracketed when a port follows. */
  function JoinHostPort(host: string, port: string): string {
    if ':' in host then "[" + host + "]:" + port else host + ":" + port
  }

  function Token(u: Upstream): string {
    if !IsNetwork(u) then RESOLV_CONF
    else if u.port > 0 then JoinHostPort(Upper(u.address), Decimal(u.port))
    else Upper(u.address)
  }

  // ---------------------------------------------------------------------
  // Reading a token back
  // ---------------------------------------------------------------------

  datatype Endpoint = Endpoint(host: string, port: nat)

  function Find(s: string, c: char): (i: nat)
    ensures i <= |s| && (i < |s| ==> s[i] == c) && forall k :: 0 <= k < i ==> s[k] != c
  {
    if s == [] || s[0] == c then 0 else 1 + Find(s[1..], c)
  }

  function ParseDecimal(s: string): nat
    requires Digits(s)
  {
    if s == [] then 0 else 10 * ParseDecimal(s[..|s| - 1]) + (s[|s| - 1] - '0') as nat
  }

  /** A token as a resolver address: bracketed host and port, host and port, or a bare host on the default port. */
  function Parse(token: string, default: nat): Option<Endpoint> {
    if token == [] then None
    else if token[0] == '[' then
      var i := Find(token, ']');
      if i + 2 < |token| && token[i + 1] == ':' && i > 0 && token[i + 2..] != [] && Digits(token[i + 2..]) then
        Some(Endpoint(token[1..i], ParseDecimal(token[i + 2..])))
      else None
    else if multiset(token)[':'] == 1 then
      var i := Find(token, ':');
      if i < |token| && token[i + 1..] != [] && Digits(token[i + 1..]) then
        Some(Endpoint(token[..i], ParseDecimal(token[i + 1..])))
      else None
    else Some(Endpoint(token, default))
  }

  /** Colon-free, as IPv4, or with at least two colons, as IPv6, and not bracketed. */
  predicate AddressOk(address: string) {
    var a := Upper(address);
    a != [] && '[' !in a && ']' !in a && multiset(a)[':'] != 1
  }

  lemma {:induction false} DecimalRoundTrip(n: nat)
    ensures ParseDecimal(Decimal(n)) == n
  {
    if n >= 10 {
      DecimalRoundTrip(n / 10);
      assert Decimal(n)[..|Decimal(n)| - 1] == Decimal(n / 10);
    } else {
      assert Decimal(n)[..0] == [];
    }
  }

  lemma FindAfter(a: string, c: char, rest: string)
    requires c !in a
    ensures Find(a + [c] + rest, c) == |a|
  {
    var s := a + [c] + rest;
    assert s[|a|] == c;
    assert forall k :: 0 <= k < |a| ==> s[k] == a[k];
  }

  lemma BracketedShape(host: string, d: string)
    requires ']' !in host
    ensures var t, i := "[" + host + "]:" + d, |host| + 1;
            && |t| == i + 2 + |d| && t[0] == '[' && t[i + 1] == ':'
            && Find(t, ']') == i && t[1..i] == host && t[i + 2..] == d
  {
    var t := "[" + host + "]:" + d;
    assert t == ("[" + host) + [']'] + (":" + d);
    FindAfter("[" + host, ']', ":" + d);
  }

  lemma ParseBracketed(host: string, port: nat, default: nat)
    requires ']' !in host
    ensures Parse("[" + host + "]:" + Decimal(port), default) == Some(Endpoint(host, port))
  {
    BracketedShape(host, Decimal(port));
    DecimalRoundTrip(port);
  }

  lemma HostPortShape(host: string, d: string)
    requires host != [] && ':' !in host && ':' !in d
    ensures var t, i := host + ":" + d, |host|;
            && |t| == i + 1 + |d| && t[0] == host[0] && multiset(t)[':'] == 1
            && Find(t, ':') == i && t[..i] == host && t[i + 1..] == d
  {
    var t := host + ":" + d;
    assert t == host + [':'] + d;
    FindAfter(host, ':', d);
    assert multiset(t) == multiset(host) + multiset([':']) + multiset(d);
  }

  lemma ParseHostPort(host: string, port: nat, default: nat)
    requires host != [] && '[' !in host && ':' !in host
    ensures Parse(host + ":" + Decimal(port), default) == Some(Endpoint(host, port))
  {
    assert ':' !in Decimal(port) && host[0] in host;
    HostPortShape(host, Decimal(port));
    DecimalRoundTrip(port);
  }

  function EndpointOf(u: Upstream, default: nat): Endpoint {
    Endpoint(Upper(u.address), PortOr(u.port, default))
  }

  /** The round trip: every network token reads back as its folded address and its port, with 0 as the default. */
  lemma TokenRoundTrip(u: Upstream, default: nat)
    requires IsNetwork(u) && AddressOk(u.address)
    ensures Parse(Token(u), default) == Some(EndpointOf(u, default))
  {
    var a := Upper(u.address);
    if u.port > 0 && ':' in a {
      ParseBracketed(a, u.port, default);
    } else if u.port > 0 {
      ParseHostPort(a, u.port, default);
    } else {
      assert a[0] in a;
    }
  }

  /** A network token never looks like the system resolver's file: it does not end in a lower-case letter. */
  lemma NetworkTokenIsNotAFile(u: Upstream)
    requires IsNetwork(u)
    ensures Token(u) != RESOLV_CONF
  {
    var a, t := Upper(u.address), Token(u);
    assert RESOLV_CONF[|RESOLV_CONF| - 1] == 'f';
    if u.port > 0 {
      var d := Decimal(u.port);
      assert t[|t| - 1] == d[|d| - 1];
    } else {
      assert t == a;
    }
  }

  // ---------------------------------------------------------------------
  // The rendered list
  // ---------------------------------------------------------------------

  function Tokens(us: seq<Upstream>): (ts: seq<string>)
    ensures |ts| == |us| && forall i :: 0 <= i < |us| ==> ts[i] == Token(us[i])
  {
    seq(|us|, i requires 0 <= i < |us| => Token(us[i]))
  }

  predicate AddressesOk(us: seq<Upstream>) {
    forall u :: u in us && IsNetwork(u) ==> AddressOk(u.address)
  }

  /** What CoreDNS reads from the list, apart from the system resolver's file. */
  function ReadBack(tokens: seq<string>, default: nat): set<Option<Endpoint>> {
    set t | t in tokens && t != RESOLV_CONF :: Parse(t, default)
  }

  /** What the spec asks for. */
  function Wanted(us: seq<Upstream>, default: nat): set<Option<Endpoint>> {
    set u | u in us && IsNetwork(u) :: Some(EndpointOf(u, default))
  }

  predicate Distinct(ts: seq<string>) {
    forall i, j :: 0 <= i < j < |ts| ==> ts[i] != ts[j]
  }

  /** Reading back any list, deduplicated or not, yields its network endpoints. */
  lemma ReadBackIsWanted(us: seq<Upstream>, default: nat)
    requires AddressesOk(us)
    ensures ReadBack(Tokens(us), default) == Wanted(us, default)
  {
    var ts := Tokens(us);
    forall e | e in ReadBack(ts, default)
      ensures e in Wanted(us, default)
    {
      var t :| t in ts && t != RESOLV_CONF && Parse(t, default) == e;
      var i :| 0 <= i < |ts| && ts[i] == t;
      assert us[i] in us;
      TokenRoundTrip(us[i], default);
    }
    forall e | e in Wanted(us, default)
      ensures e in ReadBack(ts, default)
    {
      var u :| u in us && IsNetwork(u) && Some(EndpointOf(u, default)) == e;
      var i :| 0 <= i < |us| && us[i] == u;
      assert ts[i] in ts;
      TokenRoundTrip(u, default);
      NetworkTokenIsNotAFile(u);
    }
  }

  /** Two network upstreams print alike exactly when they agree on folded address and on the literal port. */
  lemma SameTokenSameUpstream(u: Upstream, v: Upstream)
    requires IsNetwork(u) && IsNetwork(v) && AddressOk(u.address) && AddressOk(v.address)
    ensures Token(u) == Token(v) <==> Upper(u.address) == Upper(v.address) && u.port == v.port
  {
    TokenRoundTrip(u, 0);
    TokenRoundTrip(v, 0);
  }

  lemma NetworkTokensAreDistinct(us: seq<Upstream>, i: nat, j: nat)
    requires AddressesOk(us) && i < j < |Dedup(us)|
    requires IsNetwork(Dedup(us)[i]) && IsNetwork(Dedup(us)[j])
    ensures Token(Dedup(us)[i]) != Token(Dedup(us)[j])
  {
    DedupWithin(us);
    DedupIsPairwiseDifferent(us);
    assert Dedup(us)[i] in us && Dedup(us)[j] in us;
    SameTokenSameUpstream(Dedup(us)[i], Dedup(us)[j]);
  }

  /** Cleartext: the rendered list names exactly the endpoints of the spec, whatever was dropped. */
  lemma CleartextKeepsEndpoints(us: seq<Upstream>)
    requires AddressesOk(us)
    ensures ReadBack(Tokens(Dedup(us)), DEFAULT_PORT) == Wanted(us, DEFAULT_PORT)
  {
    DedupWithin(us);
    ReadBackIsWanted(Dedup(us), DEFAULT_PORT);
    forall e | e in Wanted(us, DEFAULT_PORT)
      ensures e in Wanted(Dedup(us), DEFAULT_PORT)
    {
      var u :| u in us && IsNetwork(u) && Some(EndpointOf(u, DEFAULT_PORT)) == e;
      var v := Representative(us, u);
      assert Some(EndpointOf(v, DEFAULT_PORT)) == e;
    }
  }

  // ---------------------------------------------------------------------
  // Where deduplication falls short, and exactly when
  // ---------------------------------------------------------------------

  predicate SystemUpstreamsAgree(us: seq<Upstream>) {
    forall u, v :: u in us && v in us && !IsNetwork(u) && !IsNetwork(v) ==> Equiv(u, v)
  }

  /**
   The whole rendered list is free of repetitions exactly when the spec's system upstreams do not differ
   in the fields that rendering ignores.
   */
  lemma TokensDistinctIffSystemUpstreamsAgree(us: seq<Upstream>)
    requires AddressesOk(us)
    ensures Distinct(Tokens(Dedup(us))) <==> SystemUpstreamsAgree(us)
  {
    DedupWithin(us);
    DedupIsPairwiseDifferent(us);
    var kept := Dedup(us);
    if SystemUpstreamsAgree(us) {
      forall i, j | 0 <= i < j < |kept|
        ensures Tokens(kept)[i] != Tokens(kept)[j]
      {
        assert kept[i] in us && kept[j] in us;
        if IsNetwork(kept[i]) && IsNetwork(kept[j]) {
          NetworkTokensAreDistinct(us, i, j);
        } else if IsNetwork(kept[i]) {
          NetworkTokenIsNotAFile(kept[i]);
        } else if IsNetwork(kept[j]) {
          NetworkTokenIsNotAFile(kept[j]);
        }
      }
    }
    if Distinct(Tokens(kept)) {
      forall u, v | u in us && v in us && !IsNetwork(u) && !IsNetwork(v)
        ensures Equiv(u, v)
      {
        SystemUpstreamsCollapse(us, u, v);
      }
    }
  }

  lemma SystemUpstreamsCollapse(us: seq<Upstream>, u: Upstream, v: Upstream)
    requires Distinct(Tokens(Dedup(us)))
    requires u in us && v in us && !IsNetwork(u) && !IsNetwork(v)
    ensures Equiv(u, v)
  {
    var kept := Dedup(us);
    var u' := Representative(us, u);
    var v' := Representative(us, v);
    var i :| 0 <= i < |kept| && kept[i] == u';
    var j :| 0 <= j < |kept| && kept[j] == v';
    assert Tokens(kept)[i] == RESOLV_CONF && Tokens(kept)[j] == RESOLV_CONF;
    assert i == j;
  }

  /** Two system upstreams that differ in an ignored port put the file in the list twice. */
  lemma SystemResolverListedTwice()
    ensures var us := [Upstream(SYSTEM, "", 0), Upstream("", "", 54)];
      AddressesOk(us) && Tokens(Dedup(us)) == [RESOLV_CONF, RESOLV_CONF]
  {
    var a, b := Upstream(SYSTEM, "", 0), Upstream("", "", 54);
    assert [a, b][..1] == [a] && [a][..0] == [];
    assert !Contains([], a);
    assert Dedup([a]) == [a];
    assert !Contains([a], b);
    assert Dedup([a, b]) == [a, b];
  }

  /** An explicit port of 853 for the address of `u` is in the list. */
  predicate ExplicitTlsPort(us: seq<Upstream>, u: Upstream) {
    exists v :: v in us && IsNetwork(v) && Upper(v.address) == Upper(u.address) && v.port == DEFAULT_TLS_PORT
  }

  /**
   A network upstream survives over TLS when the upstream kept in its place writes the port the same way;
   one that leaves the port out also survives when 853 is asked for by name.
   */
  predicate SurvivesTls(us: seq<Upstream>, j: nat)
    requires j < |us|
  {
    || us[FirstSame(us, j)].port == us[j].port
    || (us[j].port == 0 && ExplicitTlsPort(us, us[j]))
  }

  lemma {:induction false} FirstSameIsKept(us: seq<Upstream>, j: nat)
    requires j < |us|
    ensures us[FirstSame(us, j)] in Dedup(us)
    ensures forall v :: v in Dedup(us) && Equiv(us[j], v) ==> v == us[FirstSame(us, j)]
  {
    var i := FirstSame(us, j);
    FirstIsKept(us, i);
    DedupIsPairwiseDifferent(us);
    var kept := Dedup(us);
    forall v | v in kept && Equiv(us[j], v)
      ensures v == us[i]
    {
      var a :| 0 <= a < |kept| && kept[a] == v;
      var b :| 0 <= b < |kept| && kept[b] == us[i];
      assert Equiv(kept[a], kept[b]) && Equiv(kept[b], kept[a]);
    }
  }

  lemma {:induction false} FirstIsKept(us: seq<Upstream>, i: nat)
    requires i < |us| && forall k :: 0 <= k < i ==> !Equiv(us[i], us[k])
    ensures us[i] in Dedup(us)
  {
    var front := us[..|us| - 1];
    if i < |front| {
      FirstIsKept(front, i);
    } else {
      ContainsSurvivesDedup(front, us[i]);
    }
  }

  /** The endpoint of one upstream is still in the rendered list over TLS exactly when it survives. */
  lemma TlsKeepsEndpoint(us: seq<Upstream>, j: nat)
    requires j < |us| && IsNetwork(us[j])
    ensures Some(EndpointOf(us[j], DEFAULT_TLS_PORT)) in Wanted(Dedup(us), DEFAULT_TLS_PORT) <==> SurvivesTls(us, j)
  {
    var kept, first := Dedup(us), us[FirstSame(us, j)];
    FirstSameIsKept(us, j);
    DedupWithin(us);
    var e := Some(EndpointOf(us[j], DEFAULT_TLS_PORT));
    if SurvivesTls(us, j) {
      if first.port == us[j].port {
        assert Some(EndpointOf(first, DEFAULT_TLS_PORT)) == e;
      } else {
        var v :| v in us && IsNetwork(v) && Upper(v.address) == Upper(us[j].address) && v.port == DEFAULT_TLS_PORT;
        var w := Representative(us, v);
        assert Some(EndpointOf(w, DEFAULT_TLS_PORT)) == e;
      }
    }
    if e in Wanted(kept, DEFAULT_TLS_PORT) {
      var w :| w in kept && IsNetwork(w) && Some(EndpointOf(w, DEFAULT_TLS_PORT)) == e;
      assert w in us;
      if w.port == us[j].port {
        assert Equiv(us[j], w);
      }
    }
  }

  /** TLS: the rendered list names exactly the endpoints of the spec if and only if every network upstream survives. */
  lemma TlsKeepsEndpointsIff(us: seq<Upstream>)
    requires AddressesOk(us)
    ensures ReadBack(Tokens(Dedup(us)), DEFAULT_TLS_PORT) == Wanted(us, DEFAULT_TLS_PORT)
       <==> forall j :: 0 <= j < |us| && IsNetwork(us[j]) ==> SurvivesTls(us, j)
  {
    DedupWithin(us);
    ReadBackIsWanted(Dedup(us), DEFAULT_TLS_PORT);
    forall j | 0 <= j < |us| && IsNetwork(us[j])
      ensures Some(EndpointOf(us[j], DEFAULT_TLS_PORT)) in Wanted(us, DEFAULT_TLS_PORT)
      ensures Some(EndpointOf(us[j], DEFAULT_TLS_PORT)) in Wanted(Dedup(us), DEFAULT_TLS_PORT) <==> SurvivesTls(us, j)
    {
      assert us[j] in us;
      TlsKeepsEndpoint(us, j);
    }
  }

  /** At any address, port 53 written out swallows a later upstream that relies on the TLS default. */
  lemma TlsEndpointLost(a: string)
    requires AddressOk(a)
    ensures var us := [Upstream(NETWORK, a, 53), Upstream(NETWORK, a, 0)];
      ReadBack(Tokens(Dedup(us)), DEFAULT_TLS_PORT) != Wanted(us, DEFAULT_TLS_PORT)
  {
    var us := [Upstream(NETWORK, a, 53), Upstream(NETWORK, a, 0)];
    assert Equiv(us[1], us[0]);
    assert FirstSame(us, 1) == 0;
    assert IsNetwork(us[1]) && !SurvivesTls(us, 1);
    TlsKeepsEndpointsIff(us);
  }
}

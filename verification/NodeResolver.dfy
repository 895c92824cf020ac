/**
 The loop that keeps the cluster's service addresses in a node's hosts file
 (pkg/manifests/assets/node-resolver/update-node-resolver.sh). A file is the
 sequence of its lines; nobody else writes it, and the final copy is atomic.
 */
module NodeResolver {
  import opened Wrappers
  import opened StringSlices

  const MARKER := "openshift-generated-node-resolver"

  type Lines = seq<string>

  /** Accepted addresses by service. */
  type Addresses = map<string, seq<string>>

  predicate Occurs(part: string, s: string) {
    exists i :: 0 <= i <= |s| && part <= s[i..]
  }

  predicate Marked(line: string) {
    Occurs("# " + MARKER, line)
  }

  function Unmarked(lines: Lines): Lines {
    if lines == [] then []
    else Unmarked(lines[..|lines| - 1]) + if Marked(lines[|lines| - 1]) then [] else [lines[|lines| - 1]]
  }

  function OnlyMarked(lines: Lines): Lines {
    if lines == [] then []
    else OnlyMarked(lines[..|lines| - 1]) + if Marked(lines[|lines| - 1]) then [lines[|lines| - 1]] else []
  }

  function Entry(svc: string, ip: string, domain: string): string {
    ip + " " + (svc + " " + Alias(svc, domain))
  }

  function Alias(svc: string, domain: string): string {
    svc + "." + domain + " # " + MARKER
  }

  function EntriesOf(svc: string, ips: seq<string>, domain: string): Lines {
    if ips == [] then [] else EntriesOf(svc, ips[..|ips| - 1], domain) + [Entry(svc, ips[|ips| - 1], domain)]
  }

  function At(addresses: Addresses, svc: string): seq<string> {
    if svc in addresses then addresses[svc] else []
  }

  function Entries(addresses: Addresses, order: seq<string>, domain: string): Lines {
    if order == [] then []
    else
      var k := |order| - 1;
      Entries(addresses, order[..k], domain) + EntriesOf(order[k], At(addresses, order[k]), domain)
  }

  // ---------------------------------------------------------------------
  // What can happen in one iteration
  // ---------------------------------------------------------------------

  /** None: the command failed; otherwise the words it printed. */
  type Attempt = Option<seq<string>>

  const ATTEMPTS := 4

  /** A failed append leaves the temporary file in any state. */
  datatype Append = Done | Spoiled(temp: Lines)

  datatype Env = Env(
    lookups: (nat, nat) -> Attempt,
    filter: Append,
    order: seq<string>,
    appends: (nat, nat) -> Append,
    compareFails: bool,
    copyFails: bool)

  datatype Config = Config(services: seq<string>, domain: string)

  datatype State = State(hosts: Lines, temp: Lines, addresses: Addresses)

  /** The first attempt that succeeds and prints something. */
  function FirstAnswer(attempt: nat -> Attempt, from: nat): Attempt
    requires from <= ATTEMPTS
    decreases ATTEMPTS - from
  {
    if from == ATTEMPTS then None
    else if attempt(from).Some? && attempt(from).value != [] then attempt(from)
    else FirstAnswer(attempt, from + 1)
  }

  function Attempts(env: Env, k: nat): nat -> Attempt {
    (i: nat) => env.lookups(k, i)
  }

  function Answer(env: Env, k: nat): Attempt {
    FirstAnswer(Attempts(env, k), 0)
  }

  function Collect(addresses: Addresses, services: seq<string>, env: Env): Addresses {
    if services == [] then addresses
    else
      var k := |services| - 1;
      var before := Collect(addresses, services[..k], env);
      if Answer(env, k).Some? then before[services[k] := Answer(env, k).value] else before
  }

  datatype Writing = Writing(temp: Lines, ok: bool)

  function Write(w: Writing, line: string, a: Append): Writing {
    match a
    case Done => w.(temp := w.temp + [line])
    case Spoiled(t) => Writing(t, false)
  }

  function WriteService(w: Writing, svc: string, ips: seq<string>, domain: string, append: nat -> Append): Writing {
    if ips == [] then w
    else
      var k := |ips| - 1;
      Write(WriteService(w, svc, ips[..k], domain, append), Entry(svc, ips[k], domain), append(k))
  }

  function Row(appends: (nat, nat) -> Append, k: nat): nat -> Append {
    (j: nat) => appends(k, j)
  }

  function WriteAll(
    w: Writing, addresses: Addresses, order: seq<string>, domain: string, appends: (nat, nat) -> Append): Writing
  {
    if order == [] then w
    else
      var k := |order| - 1;
      var front := WriteAll(w, addresses, order[..k], domain, appends);
      WriteService(front, order[k], At(addresses, order[k]), domain, Row(appends, k))
  }

  function Written(s: State, addresses: Addresses, c: Config, env: Env): Writing {
    WriteAll(Writing(Unmarked(s.hosts), true), addresses, env.order, c.domain, env.appends)
  }

  /** The iteration gives up before touching the hosts file; the addresses are then carried into the next one. */
  predicate GivesUp(s: State, c: Config, env: Env) {
    var addresses := Collect(s.addresses, c.services, env);
    addresses != map[] && (env.filter.Spoiled? || !Written(s, addresses, c, env).ok)
  }

  function Iterate(s: State, c: Config, env: Env): State {
    var addresses := Collect(s.addresses, c.services, env);
    if addresses == map[] then s.(addresses := map[])
    else if env.filter.Spoiled? then State(s.hosts, env.filter.temp, addresses)
    else
      var w := Written(s, addresses, c, env);
      if !w.ok then State(s.hosts, w.temp, addresses)
      else if (!env.compareFails && w.temp == s.hosts) || env.copyFails then State(s.hosts, w.temp, map[])
      else State(w.temp, w.temp, map[])
  }

  // ---------------------------------------------------------------------
  // The script
  // ---------------------------------------------------------------------

  class Updater {
    const config: Config
    var hosts: Lines
    var temp: Lines
    var addresses: Addresses

    /** Only the attributes of the hosts file are copied at the start: the temporary file holds whatever it held. */
    constructor (config: Config, hosts: Lines, temp: Lines)
      ensures this.config == config && Now() == State(hosts, temp, map[])
    {
      this.config, this.hosts, this.temp, addresses := config, hosts, temp, map[];
    }

    ghost function Now(): State
      reads this
    {
      State(hosts, temp, addresses)
    }

    method Lookup(env: Env, k: nat) returns (r: Attempt)
      ensures r == Answer(env, k)
    {
      for i := 0 to ATTEMPTS
        invariant Answer(env, k) == FirstAnswer(Attempts(env, k), i)
      {
        var ips := env.lookups(k, i);
        if ips.Some? && |ips.value| != 0 {
          return ips;
        }
      }
      return None;
    }

    method CollectAddresses(env: Env)
      modifies this`addresses
      ensures addresses == Collect(old(addresses), config.services, env)
    {
      for k := 0 to |config.services|
        invariant addresses == Collect(old(addresses), config.services[..k], env)
      {
        assert config.services[..k + 1][..k] == config.services[..k];
        var r := Lookup(env, k);
        if r.Some? {
          addresses := addresses[config.services[k] := r.value];
        }
      }
      assert config.services[..|config.services|] == config.services;
    }

    method AppendService(svc: string, append: nat -> Append, before: bool) returns (ok: bool)
      modifies this`temp
      ensures Writing(temp, ok)
           == WriteService(Writing(old(temp), before), svc, At(addresses, svc), config.domain, append)
    {
      ok := before;
      var ips := At(addresses, svc);
      for j := 0 to |ips|
        invariant Writing(temp, ok) == WriteService(Writing(old(temp), before), svc, ips[..j], config.domain, append)
      {
        assert ips[..j + 1][..j] == ips[..j];
        match append(j) {
          case Done => temp := temp + [Entry(svc, ips[j], config.domain)];
          case Spoiled(t) => temp, ok := t, false;
        }
      }
      assert ips[..|ips|] == ips;
    }

    method AppendEntries(env: Env) returns (ok: bool)
      modifies this`temp
      ensures Writing(temp, ok) == WriteAll(Writing(old(temp), true), addresses, env.order, config.domain, env.appends)
    {
      ok := true;
      for k := 0 to |env.order|
        invariant Writing(temp, ok)
               == WriteAll(Writing(old(temp), true), addresses, env.order[..k], config.domain, env.appends)
      {
        assert env.order[..k + 1][..k] == env.order[..k];
        ok := AppendService(env.order[k], Row(env.appends, k), ok);
      }
      assert env.order[..|env.order|] == env.order;
    }

    method RunOnce(env: Env)
      modifies this
      ensures Now() == Iterate(old(Now()), config, env)
    {
      CollectAddresses(env);
      if addresses != map[] {
        if env.filter.Spoiled? {
          temp := env.filter.temp;
          return;
        }
        temp := Unmarked(hosts);
        var ok := AppendEntries(env);
        if !ok {
          return;
        }
        if env.compareFails || temp != hosts {
          if !env.copyFails {
            hosts := temp;
          }
        }
      }
      addresses := map[];
    }
  }

  // ---------------------------------------------------------------------
  // Marked and unmarked lines
  // ---------------------------------------------------------------------

  lemma EntryIsMarked(svc: string, ip: string, domain: string)
    ensures Marked(Entry(svc, ip, domain))
  {
    var e, m := Entry(svc, ip, domain), "# " + MARKER;
    assert e[|e| - |m|..] == m;
  }

  lemma {:induction false} Split(a: Lines, b: Lines)
    ensures Unmarked(a + b) == Unmarked(a) + Unmarked(b)
    ensures OnlyMarked(a + b) == OnlyMarked(a) + OnlyMarked(b)
  {
    if b == [] {
      assert a + b == a;
    } else {
      var k := |b| - 1;
      Split(a, b[..k]);
      assert (a + b)[..|a + b| - 1] == a + b[..k];
      Regroup(Unmarked(a), Unmarked(b[..k]), if Marked(b[k]) then [] else [b[k]]);
      Regroup(OnlyMarked(a), OnlyMarked(b[..k]), if Marked(b[k]) then [b[k]] else []);
    }
  }

  lemma Single(line: string)
    ensures Unmarked([line]) == if Marked(line) then [] else [line]
    ensures OnlyMarked([line]) == if Marked(line) then [line] else []
  {
    assert [line][..0] == [];
  }

  lemma {:induction false} UnmarkedIsFiltered(lines: Lines)
    ensures Unmarked(Unmarked(lines)) == Unmarked(lines) && OnlyMarked(Unmarked(lines)) == []
  {
    if lines != [] {
      var k := |lines| - 1;
      UnmarkedIsFiltered(lines[..k]);
      if !Marked(lines[k]) {
        Split(Unmarked(lines[..k]), [lines[k]]);
        Single(lines[k]);
      } else {
        assert Unmarked(lines) == Unmarked(lines[..k]);
      }
    }
  }

  lemma {:induction false} AllMarked(lines: Lines)
    requires forall l :: l in lines ==> Marked(l)
    ensures Unmarked(lines) == [] && OnlyMarked(lines) == lines
  {
    if lines != [] {
      AllMarked(lines[..|lines| - 1]);
    }
  }

  lemma {:induction false} EntriesOfAreMarked(svc: string, ips: seq<string>, domain: string)
    ensures forall l :: l in EntriesOf(svc, ips, domain) ==> Marked(l)
  {
    if ips != [] {
      EntriesOfAreMarked(svc, ips[..|ips| - 1], domain);
      EntryIsMarked(svc, ips[|ips| - 1], domain);
    }
  }

  lemma {:induction false} EntriesAreMarked(addresses: Addresses, order: seq<string>, domain: string)
    ensures forall l :: l in Entries(addresses, order, domain) ==> Marked(l)
  {
    if order != [] {
      var k := |order| - 1;
      EntriesAreMarked(addresses, order[..k], domain);
      EntriesOfAreMarked(order[k], At(addresses, order[k]), domain);
    }
  }

  // ---------------------------------------------------------------------
  // What the appends leave behind
  // ---------------------------------------------------------------------

  lemma {:induction false} WriteServiceResult(
    w: Writing, svc: string, ips: seq<string>, domain: string, append: nat -> Append)
    ensures var r := WriteService(w, svc, ips, domain, append);
      r.ok ==> w.ok && r.temp == w.temp + EntriesOf(svc, ips, domain)
  {
    if ips != [] {
      var k := |ips| - 1;
      WriteServiceResult(w, svc, ips[..k], domain, append);
      Regroup(w.temp, EntriesOf(svc, ips[..k], domain), [Entry(svc, ips[k], domain)]);
    }
  }

  lemma {:induction false} WriteAllResult(
    w: Writing, addresses: Addresses, order: seq<string>, domain: string, appends: (nat, nat) -> Append)
    ensures var r := WriteAll(w, addresses, order, domain, appends);
      r.ok ==> w.ok && r.temp == w.temp + Entries(addresses, order, domain)
  {
    if order != [] {
      var k := |order| - 1;
      var front := WriteAll(w, addresses, order[..k], domain, appends);
      WriteAllResult(w, addresses, order[..k], domain, appends);
      WriteServiceResult(front, order[k], At(addresses, order[k]), domain, Row(appends, k));
      Regroup(w.temp, Entries(addresses, order[..k], domain), EntriesOf(order[k], At(addresses, order[k]), domain));
    }
  }

  // ---------------------------------------------------------------------
  // One iteration
  // ---------------------------------------------------------------------

  /** The file that a successful iteration installs. */
  function Target(s: State, c: Config, env: Env): Lines {
    Unmarked(s.hosts) + Entries(Collect(s.addresses, c.services, env), env.order, c.domain)
  }

  /** Unmarked lines followed by marked ones are told apart again. */
  lemma Apart(lines: Lines, marked: Lines)
    requires forall l :: l in marked ==> Marked(l)
    ensures Unmarked(Unmarked(lines) + marked) == Unmarked(lines)
    ensures OnlyMarked(Unmarked(lines) + marked) == marked
  {
    Split(Unmarked(lines), marked);
    UnmarkedIsFiltered(lines);
    AllMarked(marked);
  }

  lemma TargetLines(s: State, c: Config, env: Env)
    ensures Unmarked(Target(s, c, env)) == Unmarked(s.hosts)
    ensures OnlyMarked(Target(s, c, env)) == Entries(Collect(s.addresses, c.services, env), env.order, c.domain)
  {
    EntriesAreMarked(Collect(s.addresses, c.services, env), env.order, c.domain);
    Apart(s.hosts, Entries(Collect(s.addresses, c.services, env), env.order, c.domain));
  }

  /** The iteration gets as far as installing the new file, and does. */
  predicate Replaces(s: State, c: Config, env: Env) {
    Collect(s.addresses, c.services, env) != map[] && !GivesUp(s, c, env) && !env.copyFails
  }

  lemma IterateHosts(s: State, c: Config, env: Env)
    ensures Iterate(s, c, env).hosts == if Replaces(s, c, env) then Target(s, c, env) else s.hosts
  {
    var addresses := Collect(s.addresses, c.services, env);
    WriteAllResult(Writing(Unmarked(s.hosts), true), addresses, env.order, c.domain, env.appends);
  }

  /** A replacing iteration leaves one marked line per entry, after all other lines. */
  lemma ReplacingIteration(s: State, c: Config, env: Env)
    requires Replaces(s, c, env)
    ensures var hosts := Iterate(s, c, env).hosts;
      && hosts == Unmarked(s.hosts) + OnlyMarked(hosts)
      && OnlyMarked(hosts) == Entries(Collect(s.addresses, c.services, env), env.order, c.domain)
  {
    IterateHosts(s, c, env);
    TargetLines(s, c, env);
  }

  /** Repeating it with the same addresses in the same order leaves the file as it is. */
  lemma RepeatingChangesNothing(s: State, c: Config, env: Env, s': State, env': Env)
    requires Replaces(s, c, env) && s'.hosts == Iterate(s, c, env).hosts
    requires Collect(s'.addresses, c.services, env') == Collect(s.addresses, c.services, env) && env'.order == env.order
    ensures Iterate(s', c, env').hosts == s'.hosts
  {
    IterateHosts(s, c, env);
    TargetLines(s, c, env);
    IterateHosts(s', c, env');
  }

  // ---------------------------------------------------------------------
  // Whole runs
  // ---------------------------------------------------------------------

  function Run(s: State, c: Config, envs: seq<Env>): State {
    if envs == [] then s
    else Iterate(Run(s, c, envs[..|envs| - 1]), c, envs[|envs| - 1])
  }

  /** Whatever fails, the lines without the marker are the same, in the same order, for ever. */
  lemma {:induction false} UserLinesNeverChange(s: State, c: Config, envs: seq<Env>)
    ensures Unmarked(Run(s, c, envs).hosts) == Unmarked(s.hosts)
  {
    if envs != [] {
      var k := |envs| - 1;
      var t := Run(s, c, envs[..k]);
      UserLinesNeverChange(s, c, envs[..k]);
      IterateHosts(t, c, envs[k]);
      TargetLines(t, c, envs[k]);
    }
  }

  /** `svc` was told `ips` in the iteration `env`. */
  predicate Told(c: Config, env: Env, svc: string, ips: seq<string>) {
    exists k :: 0 <= k < |c.services| && c.services[k] == svc && Answer(env, k) == Some(ips)
  }

  lemma {:induction false} CollectedWasTold(addresses: Addresses, c: Config, n: nat, env: Env, svc: string)
    requires n <= |c.services| && svc in Collect(addresses, c.services[..n], env)
    ensures var ips := Collect(addresses, c.services[..n], env)[svc];
      Told(c, env, svc, ips) || (svc in addresses && addresses[svc] == ips)
  {
    if n > 0 {
      assert c.services[..n][..n - 1] == c.services[..n - 1];
      var before := Collect(addresses, c.services[..n - 1], env);
      if Answer(env, n - 1).Some? && c.services[n - 1] == svc {
        assert Told(c, env, svc, Answer(env, n - 1).value);
      } else {
        assert svc in before;
        CollectedWasTold(addresses, c, n - 1, env, svc);
      }
    }
  }

  /** The number of the last `n` iterations that gave up one after another before the end of the run. */
  function Stalled(s: State, c: Config, envs: seq<Env>): (n: nat)
    ensures n <= |envs|
  {
    if envs == [] then 0
    else
      var k := |envs| - 1;
      if GivesUp(Run(s, c, envs[..k]), c, envs[k]) then Stalled(s, c, envs[..k]) + 1 else 0
  }

  /** Addresses carried over were told in one of the iterations that have given up since the last clean end. */
  lemma {:induction false} CarriedOver(s: State, c: Config, envs: seq<Env>, svc: string) returns (i: nat)
    requires s.addresses == map[] && svc in Run(s, c, envs).addresses
    ensures |envs| - Stalled(s, c, envs) <= i < |envs|
    ensures Told(c, envs[i], svc, Run(s, c, envs).addresses[svc])
  {
    var k := |envs| - 1;
    var t := Run(s, c, envs[..k]);
    assert GivesUp(t, c, envs[k]) && Run(s, c, envs).addresses == Collect(t.addresses, c.services, envs[k]);
    assert c.services[..|c.services|] == c.services;
    CollectedWasTold(t.addresses, c, |c.services|, envs[k], svc);
    i := k;
    if !Told(c, envs[k], svc, Run(s, c, envs).addresses[svc]) {
      i := CarriedOver(s, c, envs[..k], svc);
    }
  }

  /**
   Freshness: what a replacing iteration writes for a service was told in that very iteration, or in one
   of the iterations directly before it that all gave up.
   */
  lemma WrittenIsRecent(s: State, c: Config, envs: seq<Env>, env: Env, svc: string)
    requires s.addresses == map[]
    requires svc in Collect(Run(s, c, envs).addresses, c.services, env)
    ensures var ips := Collect(Run(s, c, envs).addresses, c.services, env)[svc];
      || Told(c, env, svc, ips)
      || exists i :: |envs| - Stalled(s, c, envs) <= i < |envs| && Told(c, envs[i], svc, ips)
  {
    assert c.services[..|c.services|] == c.services;
    CollectedWasTold(Run(s, c, envs).addresses, c, |c.services|, env, svc);
    if !Told(c, env, svc, Collect(Run(s, c, envs).addresses, c.services, env)[svc]) {
      var i := CarriedOver(s, c, envs, svc);
    }
  }

  /** Some lookup for `svc` is answered in the iteration. */
  predicate Answered(c: Config, env: Env, svc: string) {
    exists k :: 0 <= k < |c.services| && c.services[k] == svc && Answer(env, k).Some?
  }

  /** Collected are the services that were there before and those that are answered. */
  lemma {:induction false} CollectedIff(addresses: Addresses, c: Config, n: nat, env: Env, svc: string)
    requires n <= |c.services|
    ensures svc in Collect(addresses, c.services[..n], env) <==>
            svc in addresses || exists k :: 0 <= k < n && c.services[k] == svc && Answer(env, k).Some?
  {
    if n > 0 {
      assert c.services[..n][..n - 1] == c.services[..n - 1];
      CollectedIff(addresses, c, n - 1, env, svc);
    }
  }

  lemma CollectedKeys(addresses: Addresses, c: Config, env: Env, svc: string)
    ensures svc in Collect(addresses, c.services, env) <==> svc in addresses || Answered(c, env, svc)
  {
    assert c.services[..|c.services|] == c.services;
    CollectedIff(addresses, c, |c.services|, env, svc);
  }

  /** What is answered is overwritten, what is not is kept. */
  lemma {:induction false} CollectedValue(addresses: Addresses, c: Config, n: nat, env: Env, svc: string)
    requires n <= |c.services| && svc in Collect(addresses, c.services[..n], env)
    ensures var ips := Collect(addresses, c.services[..n], env)[svc];
            if exists k :: 0 <= k < n && c.services[k] == svc && Answer(env, k).Some?
            then Told(c, env, svc, ips)
            else svc in addresses && addresses[svc] == ips
  {
    if n > 0 {
      assert c.services[..n][..n - 1] == c.services[..n - 1];
      if c.services[n - 1] == svc && Answer(env, n - 1).Some? {
        assert Told(c, env, svc, Answer(env, n - 1).value);
      } else {
        CollectedValue(addresses, c, n - 1, env, svc);
      }
    }
  }

  /** Exactly which of the addresses in hand were not told in this iteration: those of unanswered services. */
  lemma StaleIff(s: State, c: Config, env: Env, svc: string)
    requires svc in Collect(s.addresses, c.services, env)
    ensures !Told(c, env, svc, Collect(s.addresses, c.services, env)[svc]) <==> !Answered(c, env, svc)
    ensures !Answered(c, env, svc) ==>
            svc in s.addresses && s.addresses[svc] == Collect(s.addresses, c.services, env)[svc]
  {
    assert c.services[..|c.services|] == c.services;
    CollectedValue(s.addresses, c, |c.services|, env, svc);
  }

  /** An iteration holds an address that nobody told it exactly when a service it started with is not answered. */
  lemma HoldsStaleIff(s: State, c: Config, env: Env)
    ensures var now := Collect(s.addresses, c.services, env);
            (exists svc :: svc in now && !Told(c, env, svc, now[svc])) <==>
            (exists svc :: svc in s.addresses && !Answered(c, env, svc))
  {
    var now := Collect(s.addresses, c.services, env);
    forall svc
      ensures svc in now && !Told(c, env, svc, now[svc]) <==> svc in s.addresses && !Answered(c, env, svc)
    {
      CollectedKeys(s.addresses, c, env, svc);
      if svc in now {
        StaleIff(s, c, env, svc);
      }
    }
  }

  /** `svc` was answered in one of the last iterations that gave up one after another. */
  predicate AnsweredSince(s: State, c: Config, envs: seq<Env>, svc: string) {
    exists i :: |envs| - Stalled(s, c, envs) <= i < |envs| && Answered(c, envs[i], svc)
  }

  /** After a run, the addresses carried over are those of exactly the services answered since the last clean end. */
  lemma {:induction false} CarriedOverIff(s: State, c: Config, envs: seq<Env>, svc: string)
    requires s.addresses == map[]
    ensures svc in Run(s, c, envs).addresses <==> AnsweredSince(s, c, envs, svc)
  {
    if envs != [] {
      var k := |envs| - 1;
      var t := Run(s, c, envs[..k]);
      CarriedOverIff(s, c, envs[..k], svc);
      CollectedKeys(t.addresses, c, envs[k], svc);
      if GivesUp(t, c, envs[k]) {
        assert Run(s, c, envs).addresses == Collect(t.addresses, c.services, envs[k]);
        assert forall i :: 0 <= i < k ==> envs[..k][i] == envs[i];
      } else {
        assert Run(s, c, envs).addresses == map[];
      }
    }
  }

  /** Something is carried over exactly when the last iteration gave up. */
  lemma CarriesIffStalled(s: State, c: Config, envs: seq<Env>)
    requires s.addresses == map[]
    ensures Run(s, c, envs).addresses != map[] <==> Stalled(s, c, envs) > 0
  {}

  /**
   In every run, the next iteration holds an address that nobody told it exactly when some service was answered
   in one of the iterations that gave up directly before it, and is not answered now.
   */
  lemma StaleInRunIff(s: State, c: Config, envs: seq<Env>, env: Env)
    requires s.addresses == map[]
    ensures var now := Collect(Run(s, c, envs).addresses, c.services, env);
            (exists svc :: svc in now && !Told(c, env, svc, now[svc])) <==>
            (exists svc :: svc in c.services && AnsweredSince(s, c, envs, svc) && !Answered(c, env, svc))
  {
    var t := Run(s, c, envs);
    HoldsStaleIff(t, c, env);
    if svc :| svc in t.addresses && !Answered(c, env, svc) {
      CarriedOverIff(s, c, envs, svc);
      assert svc in c.services;
    }
    if svc :| svc in c.services && AnsweredSince(s, c, envs, svc) && !Answered(c, env, svc) {
      CarriedOverIff(s, c, envs, svc);
    }
  }

  /** An iteration in which nothing fails but the lookups for a single service and, perhaps, the filter. */
  function Simple(answer: Attempt, filter: Append, svc: string): Env {
    Env((k: nat, i: nat) => answer, filter, [svc], (k: nat, j: nat) => Done, false, false)
  }

  lemma SimpleAnswer(answer: Attempt, filter: Append, svc: string, k: nat)
    ensures Answer(Simple(answer, filter, svc), k) == if answer.Some? && answer.value != [] then answer else None
  {
    var attempts := Attempts(Simple(answer, filter, svc), k);
    assert forall i: nat :: attempts(i) == answer;
    assert FirstAnswer(attempts, 4) == None;
    assert FirstAnswer(attempts, 2) == if answer.Some? && answer.value != [] then answer else None by {
      assert FirstAnswer(attempts, 3) == if answer.Some? && answer.value != [] then answer else None;
    }
  }

  lemma SimpleCollect(addresses: Addresses, answer: Attempt, filter: Append, svc: string)
    ensures Collect(addresses, [svc], Simple(answer, filter, svc))
         == if answer.Some? && answer.value != [] then addresses[svc := answer.value] else addresses
  {
    SimpleAnswer(answer, filter, svc, 0);
    assert [svc][..0] == [];
  }

  lemma SimpleWrites(w: Writing, svc: string, ip: string, domain: string, env: Env)
    requires w.ok && env.order == [svc] && forall k: nat, j: nat :: env.appends(k, j) == Done
    ensures WriteAll(w, map[svc := [ip]], env.order, domain, env.appends).ok
  {
    var m: Addresses := map[svc := [ip]];
    assert env.order[..0] == [] && [ip][..0] == [];
    assert WriteAll(w, m, [], domain, env.appends) == w;
    assert WriteService(w, svc, [], domain, Row(env.appends, 0)) == w;
    assert Row(env.appends, 0)(0) == Done;
    assert WriteService(w, svc, [ip], domain, Row(env.appends, 0)).ok;
  }

  /**
   Such a run, for any service, address and hosts file: the first iteration is told the address and gives up
   at the filter, the second is told nothing and writes it.
   */
  lemma StaleAddressIsWritten(svc: string, ip: string, domain: string, hosts: Lines, temp: Lines)
    ensures var c := Config([svc], domain);
            var first, second := Simple(Some([ip]), Spoiled(temp), svc), Simple(None, Done, svc);
            var s := State(hosts, temp, map[]);
            && !Answered(c, second, svc) && Replaces(Run(s, c, [first]), c, second)
            && OnlyMarked(Run(s, c, [first, second]).hosts) == [Entry(svc, ip, domain)]
  {
    var c := Config([svc], domain);
    var first, second := Simple(Some([ip]), Spoiled(temp), svc), Simple(None, Done, svc);
    var s := State(hosts, temp, map[]);
    SimpleCollect(map[], Some([ip]), Spoiled(temp), svc);
    assert [first][..0] == [];
    assert Run(s, c, []) == s;
    var t := Run(s, c, [first]);
    assert t == State(hosts, temp, map[svc := [ip]]);
    SimpleAnswer(None, Done, svc, 0);
    SimpleCollect(t.addresses, None, Done, svc);
    SimpleWrites(Writing(Unmarked(hosts), true), svc, ip, domain, second);
    assert Replaces(t, c, second);
    assert [first, second][..1] == [first];
    assert Run(s, c, [first, second]) == Iterate(t, c, second);
    ReplacingIteration(t, c, second);
    SingleEntry(svc, ip, domain);
  }

  lemma SingleEntry(svc: string, ip: string, domain: string)
    ensures Entries(map[svc := [ip]], [svc], domain) == [Entry(svc, ip, domain)]
  {
    assert [svc][..0] == [] && [ip][..0] == [];
    assert EntriesOf(svc, [ip], domain) == [Entry(svc, ip, domain)];
  }

  // ---------------------------------------------------------------------
  // One line per entry
  // ---------------------------------------------------------------------

  predicate Word(s: string) {
    ' ' !in s
  }

  lemma SplitAtSpace(a: string, x: string, b: string, y: string)
    requires Word(a) && Word(b) && a + " " + x == b + " " + y
    ensures a == b && x == y
  {
    var p, q := a + " " + x, b + " " + y;
    assert p[|a|] == ' ' && q[|b|] == ' ';
    assert forall i :: 0 <= i < |a| ==> p[i] == a[i];
    assert forall i :: 0 <= i < |b| ==> q[i] == b[i];
    assert |a| == |b|;
    assert a == p[..|a|] && b == q[..|b|] && x == p[|a| + 1..] && y == q[|b| + 1..];
  }

  /** Lines of different entries differ. */
  lemma EntryInjective(svc: string, ip: string, svc': string, ip': string, domain: string)
    requires Word(svc) && Word(ip) && Word(svc') && Word(ip')
    requires Entry(svc, ip, domain) == Entry(svc', ip', domain)
    ensures svc == svc' && ip == ip'
  {
    var x, y := Alias(svc, domain), Alias(svc', domain);
    SplitAtSpace(ip, svc + " " + x, ip', svc' + " " + y);
    SplitAtSpace(svc, x, svc', y);
  }

  predicate Words(ss: seq<string>) {
    forall i :: 0 <= i < |ss| ==> Word(ss[i])
  }

  lemma {:induction false} CountForService(svc: string, ips: seq<string>, svc': string, ip: string, domain: string)
    requires Word(svc) && Words(ips) && Word(svc') && Word(ip)
    ensures multiset(EntriesOf(svc, ips, domain))[Entry(svc', ip, domain)]
         == if svc == svc' then multiset(ips)[ip] else 0
  {
    if ips != [] {
      var k := |ips| - 1;
      CountForService(svc, ips[..k], svc', ip, domain);
      assert ips == ips[..k] + [ips[k]];
      if Entry(svc, ips[k], domain) == Entry(svc', ip, domain) {
        EntryInjective(svc, ips[k], svc', ip, domain);
      }
    }
  }

  predicate Distinct(order: seq<string>) {
    forall i, j :: 0 <= i < j < |order| ==> order[i] != order[j]
  }

  /** An address stands in the file as often as its service was told it, and nothing else is marked for it. */
  lemma {:induction false} OneLinePerEntry(
    addresses: Addresses, order: seq<string>, domain: string, svc: string, ip: string)
    requires Distinct(order) && Words(order) && Word(svc) && Word(ip)
    requires forall s :: s in addresses ==> Words(addresses[s])
    ensures multiset(Entries(addresses, order, domain))[Entry(svc, ip, domain)]
         == if svc in order then multiset(At(addresses, svc))[ip] else 0
  {
    if order != [] {
      var k := |order| - 1;
      var e := Entry(svc, ip, domain);
      var front, last := Entries(addresses, order[..k], domain), EntriesOf(order[k], At(addresses, order[k]), domain);
      OneLinePerEntry(addresses, order[..k], domain, svc, ip);
      CountForService(order[k], At(addresses, order[k]), svc, ip, domain);
      assert multiset(front + last)[e] == multiset(front)[e] + multiset(last)[e];
      assert svc in order <==> svc in order[..k] || svc == order[k];
    }
  }

  /** The order in which the shell goes through the keys: each key once. */
  predicate GoesThrough(order: seq<string>, addresses: Addresses) {
    && Distinct(order)
    && (forall svc :: svc in order ==> svc in addresses)
    && (forall svc :: svc in addresses ==> svc in order)
  }

  /** Neither services nor addresses contain a blank: both come from word splitting. */
  predicate AllWords(addresses: Addresses) {
    forall svc :: svc in addresses ==> Word(svc) && Words(addresses[svc])
  }

  /**
   A replacing iteration that goes through the keys of `svc_ips` leaves, for every service and address,
   exactly as many marked lines as the service has that address: one per entry, and none for anything else.
   */
  lemma OneMarkedLinePerEntry(s: State, c: Config, env: Env, svc: string, ip: string)
    requires Replaces(s, c, env)
    requires GoesThrough(env.order, Collect(s.addresses, c.services, env))
    requires AllWords(Collect(s.addresses, c.services, env)) && Word(svc) && Word(ip)
    ensures multiset(OnlyMarked(Iterate(s, c, env).hosts))[Entry(svc, ip, c.domain)]
         == multiset(At(Collect(s.addresses, c.services, env), svc))[ip]
  {
    var now := Collect(s.addresses, c.services, env);
    ReplacingIteration(s, c, env);
    assert Words(env.order) by {
      assert forall i :: 0 <= i < |env.order| ==> env.order[i] in env.order;
    }
    OneLinePerEntry(now, env.order, c.domain, svc, ip);
    if svc !in env.order {
      assert At(now, svc) == [];
    }
  }

  /** Nothing else is marked: every marked line is the entry of some service and one of its addresses. */
  lemma MarkedLinesAreEntries(s: State, c: Config, env: Env, line: string)
    requires Replaces(s, c, env) && line in OnlyMarked(Iterate(s, c, env).hosts)
    ensures exists svc, ip ::
              ip in At(Collect(s.addresses, c.services, env), svc) && line == Entry(svc, ip, c.domain)
  {
    ReplacingIteration(s, c, env);
    var svc, ip := EntryFrom(Collect(s.addresses, c.services, env), env.order, c.domain, line);
  }

  lemma {:induction false} EntryFrom(addresses: Addresses, order: seq<string>, domain: string, line: string)
    returns (svc: string, ip: string)
    requires line in Entries(addresses, order, domain)
    ensures ip in At(addresses, svc) && line == Entry(svc, ip, domain)
  {
    var k := |order| - 1;
    if line in Entries(addresses, order[..k], domain) {
      svc, ip := EntryFrom(addresses, order[..k], domain, line);
    } else {
      svc := order[k];
      ip := EntryOfFrom(svc, At(addresses, svc), domain, line);
    }
  }

  lemma {:induction false} EntryOfFrom(svc: string, ips: seq<string>, domain: string, line: string) returns (ip: string)
    requires line in EntriesOf(svc, ips, domain)
    ensures ip in ips && line == Entry(svc, ip, domain)
  {
    var k := |ips| - 1;
    if line in EntriesOf(svc, ips[..k], domain) {
      ip := EntryOfFrom(svc, ips[..k], domain, line);
    } else {
      ip := ips[k];
    }
  }

  // ---------------------------------------------------------------------
  // Reading the hosts file
  // ---------------------------------------------------------------------

  /** The first word of a line, and what follows the blank after it. */
  function FirstWord(line: string): string {
    if line == [] || line[0] == ' ' then [] else [line[0]] + FirstWord(line[1..])
  }

  function Rest(line: string): string {
    if line == [] then [] else if line[0] == ' ' then line[1..] else Rest(line[1..])
  }

  lemma {:induction false} ReadsWord(word: string, rest: string)
    requires Word(word)
    ensures FirstWord(word + " " + rest) == word && Rest(word + " " + rest) == rest
  {
    var line := word + " " + rest;
    if word == [] {
      assert line == [' '] + rest;
    } else {
      assert word[0] in word;
      ReadsWord(word[1..], rest);
      assert line[1..] == word[1..] + " " + rest;
    }
  }

  lemma AliasReads(svc: string, domain: string)
    requires Word(svc) && Word(domain)
    ensures FirstWord(Alias(svc, domain)) == svc + "." + domain && Rest(Alias(svc, domain)) == "# " + MARKER
  {
    var name, comment := svc + "." + domain, "# " + MARKER;
    assert Alias(svc, domain) == name + " " + comment;
    assert Word(name);
    ReadsWord(name, comment);
  }

  /** The resolver reads an entry as the address, the service and its name in the cluster domain, then a comment. */
  lemma EntryReads(svc: string, ip: string, domain: string)
    requires Word(svc) && Word(ip) && Word(domain)
    ensures var line := Entry(svc, ip, domain);
            && FirstWord(line) == ip
            && FirstWord(Rest(line)) == svc
            && FirstWord(Rest(Rest(line))) == svc + "." + domain
            && Rest(Rest(Rest(line))) == "# " + MARKER
  {
    var alias := Alias(svc, domain);
    var names := svc + " " + alias;
    ReadsWord(ip, names);
    ReadsWord(svc, alias);
    AliasReads(svc, domain);
    assert Entry(svc, ip, domain) == ip + " " + names;
  }

  /** The answer is that of the first of four attempts that succeeds and prints something; none if all fail. */
  lemma {:induction false} AnswerSays(attempt: nat -> Attempt, from: nat)
    requires from <= 4
    ensures var r := FirstAnswer(attempt, from);
            if r.Some? then
              exists i :: from <= i < 4 && attempt(i) == r && r.value != []
                          && forall j :: from <= j < i ==> attempt(j) in {None, Some([])}
            else forall j :: from <= j < 4 ==> attempt(j) in {None, Some([])}
    decreases 4 - from
  {
    if from < 4 && !(attempt(from).Some? && attempt(from).value != []) {
      AnswerSays(attempt, from + 1);
    }
  }

  lemma {:induction false} WriteServiceSucceeds(
    w: Writing, svc: string, ips: seq<string>, domain: string, append: nat -> Append)
    requires w.ok && forall j :: append(j).Done?
    ensures WriteService(w, svc, ips, domain, append).ok
  {
    if ips != [] {
      WriteServiceSucceeds(w, svc, ips[..|ips| - 1], domain, append);
    }
  }

  lemma {:induction false} WriteAllSucceeds(
    w: Writing, addresses: Addresses, order: seq<string>, domain: string, appends: (nat, nat) -> Append)
    requires w.ok && forall k, j :: appends(k, j).Done?
    ensures WriteAll(w, addresses, order, domain, appends).ok
  {
    if order != [] {
      var k := |order| - 1;
      WriteAllSucceeds(w, addresses, order[..k], domain, appends);
      var front := WriteAll(w, addresses, order[..k], domain, appends);
      WriteServiceSucceeds(front, order[k], At(addresses, order[k]), domain, Row(appends, k));
    }
  }

  /** When no command fails and some service is answered, the file is brought up to date. */
  lemma NothingFailsReplaces(s: State, c: Config, env: Env, svc: string)
    requires env.filter.Done? && (forall k, j :: env.appends(k, j).Done?) && !env.copyFails
    requires Answered(c, env, svc)
    ensures Replaces(s, c, env)
    ensures Iterate(s, c, env).hosts ==
            Unmarked(s.hosts) + Entries(Collect(s.addresses, c.services, env), env.order, c.domain)
  {
    var now := Collect(s.addresses, c.services, env);
    CollectedKeys(s.addresses, c, env, svc);
    WriteAllSucceeds(Writing(Unmarked(s.hosts), true), now, env.order, c.domain, env.appends);
    IterateHosts(s, c, env);
  }
}

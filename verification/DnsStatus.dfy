/**
 Status of the DNS object: conditions with hold windows, and the pass that
 persists them (pkg/operator/controller/dns_status.go).

 Time is an integer. A pass reads the clock once for its decisions and again
 for each condition it stamps.
 */
module DnsStatus {
  import opened Wrappers
  import opened Kube
  import opened Conditions
  import opened RetryableErrors
  import ApiCalls

  /** The counts and the placement of a daemonset, as its status and pod template give them. */
  datatype Operand = Operand(desired: int, updated: int, available: int, selector: Labels, tolerations: seq<Toleration>)

  /**
   Everything a pass looks at besides the old status. `addresses` stands for the
   memory addresses that end up in a message when tolerations with a
   `tolerationSeconds` pointer are printed.
   */
  datatype Observation = Observation(
    clusterIP: string,
    clusterDomain: string,
    dns: Option<Operand>,
    nodeResolver: Option<Operand>,
    unmanaged: bool,
    nodeSelector: Labels,
    nodeTolerations: seq<Toleration>,
    addresses: int)

  /** Successive readings of the clock during one pass. */
  datatype Clock = Clock(now: int, progressing: int, available: int, upgradeable: int, degraded: int)

  predicate Ordered(c: Clock) {
    c.now <= c.progressing <= c.available <= c.upgradeable <= c.degraded
  }

  // ---------------------------------------------------------------------
  // Conditions
  // ---------------------------------------------------------------------

  function NodeSelectorForDns(o: Observation): Labels {
    if o.nodeSelector != map[] then o.nodeSelector else map["kubernetes.io/os" := "linux"]
  }

  function TolerationsForDns(o: Observation): seq<Toleration> {
    if o.nodeTolerations != [] then o.nodeTolerations
    else [Toleration("node-role.kubernetes.io/master", "Exists", "", "", None)]
  }

  predicate LastTransitionTimeIsRecent(now: int, since: int, tolerance: int) {
    if tolerance < 0 then false
    else if now - since == 0 then true
    else if now - since < 0 then false
    else now - since <= tolerance
  }

  /** An old False status that is too young to be given up. */
  predicate Held(prior: Option<Condition>, now: int, tolerance: int) {
    prior.Some? && prior.value.status.False? && LastTransitionTimeIsRecent(now, prior.value.since, tolerance)
  }

  function SetLastTransitionTime(c: Condition, prior: Option<Condition>, at: int): Condition {
    c.(since := if prior.Some? && prior.value.status == c.status then prior.value.since else at)
  }

  function UpToDateNotes(operand: string, x: Operand): seq<Note> {
    if x.updated < x.desired then [UpToDate(operand, x.updated, x.desired)] else []
  }

  predicate PrintsAddress(ts: seq<Toleration>) {
    exists t :: t in ts && t.seconds.Some?
  }

  function PlacementNotes(o: Observation, x: Operand): seq<Note> {
    var selector, tolerations := NodeSelectorForDns(o), TolerationsForDns(o);
    (if x.selector != selector then [SelectorDiffers(x.selector, selector)] else []) +
    (if x.tolerations != tolerations then
       [TolerationsDiffer(x.tolerations, tolerations,
                          if PrintsAddress(x.tolerations + tolerations) then o.addresses else 0)]
     else [])
  }

  /** Why the operand is not ready; empty when it is. */
  function ProgressingNotes(o: Observation): seq<Note> {
    (if o.clusterIP == "" then [Fixed(NoService)] else []) +
    (match o.dns
     case None => [Fixed(NoDaemonSet)]
     case Some(x) => UpToDateNotes("DNS", x) + PlacementNotes(o, x)) +
    (match o.nodeResolver
     case None => [Fixed(NoNodeResolverDaemonSet)]
     case Some(x) => UpToDateNotes("node-resolver", x))
  }

  predicate NotReady(o: Observation) {
    ProgressingNotes(o) != []
  }

  /** The pass keeps an old Progressing=False although the operand is not ready. */
  predicate Suppressed(prior: Option<Condition>, o: Observation, tolerance: int, now: int) {
    NotReady(o) && Held(prior, now, tolerance)
  }

  function ProgressingCondition(prior: Option<Condition>, o: Observation, tolerance: int, clock: Clock): Condition {
    if Suppressed(prior, o, tolerance, clock.now) then prior.value
    else SetLastTransitionTime(
           if NotReady(o) then Condition(Progressing, True, [Reconciling], ProgressingNotes(o), 0)
           else Condition(Progressing, False, [AsExpected], [Fixed(AsExpected)], 0),
           prior, clock.progressing)
  }

  function UnavailableReasons(o: Observation): seq<Word> {
    (match o.dns
     case None => [NoDaemonSet]
     case Some(x) => if x.available == 0 then [NoDaemonSetPods] else []) +
    (if o.clusterIP == "" then [NoService] else [])
  }

  function Sentences(words: seq<Word>): seq<Note> {
    seq(|words|, i requires 0 <= i < |words| => Fixed(words[i]))
  }

  function AvailableCondition(prior: Option<Condition>, o: Observation, clock: Clock): Condition {
    SetLastTransitionTime(
      if UnavailableReasons(o) != [] then
        Condition(Available, False, UnavailableReasons(o), Sentences(UnavailableReasons(o)), 0)
      else Condition(Available, True, [AsExpected], [Fixed(AsExpected)], 0),
      prior, clock.available)
  }

  function UpgradeableCondition(prior: Option<Condition>, o: Observation, clock: Clock): Condition {
    SetLastTransitionTime(
      if o.unmanaged then Condition(Upgradeable, False, [OperatorUnmanaged], [Fixed(OperatorUnmanaged)], 0)
      else Condition(Upgradeable, True, [AsExpected], [Fixed(AsExpected)], 0),
      prior, clock.upgradeable)
  }

  /** Ten percent of the wanted pods, rounded up. */
  function MaxUnavailable(want: int): int {
    (10 * want + 99) / 100
  }

  function DaemonSetDegradedNotes(x: Operand): seq<Note> {
    var unavailable := x.desired - x.available;
    if x.desired == 0 then [Fixed(NoDaemonSetPodsDesired)]
    else if x.available == 0 then [Fixed(NoDaemonSetPods)]
    else if unavailable > MaxUnavailable(x.desired) then [TooManyUnavailable(unavailable, MaxUnavailable(x.desired))]
    else []
  }

  function DegradedNotes(o: Observation): seq<Note> {
    (if o.clusterIP == "" then [Fixed(NoService)] else []) +
    (match o.dns
     case None => [Fixed(NoDaemonSet)]
     case Some(x) => DaemonSetDegradedNotes(x))
  }

  function DegradedCondition(
    prior: Option<Condition>, progressing: Status, o: Observation, tolerance: int, clock: Clock): Condition
  {
    if DegradedNotes(o) != [] && Held(prior, clock.now, tolerance) then prior.value
    else SetLastTransitionTime(
           if !progressing.True? && DegradedNotes(o) != [] then
             Condition(Degraded, True, [DegradedConditions], DegradedNotes(o), 0)
           else Condition(Degraded, False, [AsExpected], [Fixed(AsExpected)], 0),
           prior, clock.degraded)
  }

  function DegradedError(tolerance: int): Error {
    Retryable(Plain("DNS operator is degraded"), tolerance)
  }

  /** The conditions of one pass, whether it wants to run again soon, and the error of a degraded operand. */
  datatype Computed = Computed(
    progressing: Condition, available: Condition, upgradeable: Condition, degraded: Condition,
    requeue: bool, err: Option<Error>)
  {
    function Conditions(): seq<Condition> {
      [progressing, available, upgradeable, degraded]
    }
  }

  function ComputeConditions(olds: seq<Condition>, o: Observation, tolerance: int, clock: Clock): Computed {
    var progressing := ProgressingCondition(Last(olds, Progressing), o, tolerance, clock);
    var degraded := DegradedCondition(Last(olds, Degraded), progressing.status, o, tolerance, clock);
    Computed(
      progressing,
      AvailableCondition(Last(olds, Available), o, clock),
      UpgradeableCondition(Last(olds, Upgradeable), o, clock),
      degraded,
      Suppressed(Last(olds, Progressing), o, tolerance, clock.now),
      if degraded.status.True? then Some(DegradedError(tolerance)) else None)
  }

  /** The scan for the old conditions: a later condition of the same kind wins. */
  method FindOldConditions(olds: seq<Condition>)
    returns (
      degraded: Option<Condition>, progressing: Option<Condition>,
      available: Option<Condition>, upgradeable: Option<Condition>)
    ensures degraded == Last(olds, Degraded) && progressing == Last(olds, Progressing)
    ensures available == Last(olds, Available) && upgradeable == Last(olds, Upgradeable)
  {
    degraded, progressing, available, upgradeable := None, None, None, None;
    for i := 0 to |olds|
      invariant degraded == Last(olds[..i], Degraded) && progressing == Last(olds[..i], Progressing)
      invariant available == Last(olds[..i], Available) && upgradeable == Last(olds[..i], Upgradeable)
    {
      assert olds[..i + 1][..i] == olds[..i];
      match olds[i].kind
      case Degraded => degraded := Some(olds[i]);
      case Progressing => progressing := Some(olds[i]);
      case Available => available := Some(olds[i]);
      case Upgradeable => upgradeable := Some(olds[i]);
      case Other(_) =>
    }
    assert olds[..|olds|] == olds;
  }

  method ComputeDnsStatusConditions(olds: seq<Condition>, o: Observation, tolerance: int, clock: Clock)
    returns (conditions: seq<Condition>, requeue: bool, err: Option<Error>)
    ensures var c := ComputeConditions(olds, o, tolerance, clock);
            conditions == c.Conditions() && requeue == c.requeue && err == c.err
  {
    var oldDegraded, oldProgressing, oldAvailable, oldUpgradeable := FindOldConditions(olds);
    requeue := Suppressed(oldProgressing, o, tolerance, clock.now);
    var progressing := ProgressingCondition(oldProgressing, o, tolerance, clock);
    var available := AvailableCondition(oldAvailable, o, clock);
    var upgradeable := UpgradeableCondition(oldUpgradeable, o, clock);
    var degraded := DegradedCondition(oldDegraded, progressing.status, o, tolerance, clock);
    conditions := [progressing, available, upgradeable, degraded];
    err := if degraded.status.True? then Some(DegradedError(tolerance)) else None;
  }

  // ---------------------------------------------------------------------
  // The pass
  // ---------------------------------------------------------------------

  datatype DnsState = DnsState(conditions: seq<Condition>, clusterIP: string, clusterDomain: string)

  datatype Pass = Pass(o: Observation, clock: Clock, write: ApiCalls.Outcome)

  datatype Outcome = Outcome(state: DnsState, wrote: bool, requeue: bool, err: Option<Error>)

  predicate SameStatus(a: DnsState, b: DnsState) {
    SameConditions(a.conditions, b.conditions) && a.clusterIP == b.clusterIP && a.clusterDomain == b.clusterDomain
  }

  /** What becomes of computed conditions: a degraded operand is not written at all. */
  function Persist(st: DnsState, c: Computed, p: Pass): Outcome {
    var updated := DnsState(c.Conditions(), p.o.clusterIP, p.o.clusterDomain);
    if c.err.Some? then Outcome(st, false, c.requeue, Combined([c.err]))
    else if SameStatus(updated, st) then Outcome(st, false, c.requeue, None)
    else match p.write
         case Ok => Outcome(updated, true, c.requeue, None)
         case Fails(applied) =>
           Outcome(if applied then updated else st, true, c.requeue, Some(Plain("failed to update dns status")))
  }

  function Sync(st: DnsState, p: Pass, tolerance: int): Outcome {
    Persist(st, ComputeConditions(st.conditions, p.o, tolerance, p.clock), p)
  }

  class DnsObject {
    var status: DnsState

    constructor (status: DnsState)
      ensures this.status == status
    {
      this.status := status;
    }

    method SyncDnsStatus(o: Observation, clock: Clock, write: ApiCalls.Outcome, tolerance: int)
      returns (wrote: bool, requeue: bool, err: Option<Error>)
      modifies this
      ensures Outcome(status, wrote, requeue, err) == Sync(old(status), Pass(o, clock, write), tolerance)
    {
      var conditions;
      conditions, requeue, err := ComputeDnsStatusConditions(status.conditions, o, tolerance, clock);
      wrote := false;
      if err.Some? {
        err := NewMaybeRetryableAggregate([err]);
        return;
      }
      var updated := DnsState(conditions, o.clusterIP, o.clusterDomain);
      err := None;
      if !SameStatus(updated, status) {
        wrote := true;
        if ApiCalls.Effective(write) {
          status := updated;
        }
        if !write.Ok? {
          err := Some(Plain("failed to update dns status"));
        }
      }
    }
  }

  // ---------------------------------------------------------------------
  // One pass
  // ---------------------------------------------------------------------

  /** For every input, the computed conditions never report Degraded=True next to Progressing=True. */
  lemma NeverDegradedWhileProgressing(olds: seq<Condition>, o: Observation, tolerance: int, clock: Clock)
    ensures var c := ComputeConditions(olds, o, tolerance, clock);
            c.degraded.status.True? ==> c.progressing.status.False?
  {}

  /** No silent outage: an unavailable operand is also reported as progressing or degraded, or was fine a moment ago. */
  lemma NoSilentOutage(olds: seq<Condition>, o: Observation, tolerance: int, clock: Clock)
    ensures var c := ComputeConditions(olds, o, tolerance, clock);
            c.available.status.False? ==>
              c.progressing.status.True? || c.degraded.status.True? || Held(Last(olds, Degraded), clock.now, tolerance)
  {
    var c := ComputeConditions(olds, o, tolerance, clock);
    if c.available.status.False? {
      assert DegradedNotes(o) != [];
    }
  }

  /** No reason to be degraded exactly while at least nine tenths, rounded down, of the wanted pods are there. */
  lemma DegradedThreshold(x: Operand)
    requires x.desired >= 0 && x.available >= 0
    ensures DaemonSetDegradedNotes(x) == [] <==>
            x.desired > 0 && x.available > 0 && x.available >= 9 * x.desired / 10
  {
    var q, r := x.desired / 10, x.desired % 10;
    assert x.desired == 10 * q + r;
    assert 9 * x.desired / 10 == x.desired - MaxUnavailable(x.desired);
  }

  /** While the operand is found degraded, nothing at all is persisted and the pass asks to be retried. */
  lemma DegradedIsNotWritten(st: DnsState, p: Pass, tolerance: int)
    requires ComputeConditions(st.conditions, p.o, tolerance, p.clock).degraded.status.True?
    ensures var r := Sync(st, p, tolerance);
            r.state == st && !r.wrote && r.err.Some? && r.err.value.Retryable? && r.err.value.after == tolerance
  {
    var e := ComputeConditions(st.conditions, p.o, tolerance, p.clock).err;
    assert NonNil([e][1..]) == [];
    assert NonNil([e]) == [e.value];
  }

  // ---------------------------------------------------------------------
  // What the conditions say of the operand
  // ---------------------------------------------------------------------

  /** A transition counts as recent from the moment it happened until the tolerance has passed. */
  lemma RecentIff(now: int, since: int, tolerance: int)
    ensures LastTransitionTimeIsRecent(now, since, tolerance) <==> since <= now <= since + tolerance
  {}

  /** An old False status that is at most the tolerance old. */
  predicate YoungFalse(olds: seq<Condition>, k: Kind, now: int, tolerance: int) {
    Last(olds, k).Some? && Last(olds, k).value.status.False? &&
    Last(olds, k).value.since <= now <= Last(olds, k).value.since + tolerance
  }

  lemma AvailableSays(olds: seq<Condition>, o: Observation, tolerance: int, clock: Clock)
    ensures var c := ComputeConditions(olds, o, tolerance, clock).available;
            && c.kind.Available?
            && (c.status.False? <==> o.clusterIP == "" || o.dns.None? || o.dns.value.available == 0)
            && (c.status.True? <==> o.clusterIP != "" && o.dns.Some? && o.dns.value.available != 0)
            && (NoService in c.reason <==> o.clusterIP == "")
            && (NoDaemonSet in c.reason <==> o.dns.None?)
            && (NoDaemonSetPods in c.reason <==> o.dns.Some? && o.dns.value.available == 0)
            && (AsExpected in c.reason <==> c.status.True?)
  {}

  lemma UpgradeableSays(olds: seq<Condition>, o: Observation, tolerance: int, clock: Clock)
    ensures var c := ComputeConditions(olds, o, tolerance, clock).upgradeable;
            && c.kind.Upgradeable?
            && c.status == (if o.unmanaged then False else True)
            && c.reason == (if o.unmanaged then [OperatorUnmanaged] else [AsExpected])
  {}

  /** The operand is rolled out as the spec asks, by what the daemonsets and the service show. */
  predicate RolledOut(o: Observation) {
    && o.clusterIP != "" && o.dns.Some? && o.nodeResolver.Some?
    && o.dns.value.updated >= o.dns.value.desired
    && o.nodeResolver.value.updated >= o.nodeResolver.value.desired
    && o.dns.value.selector == (if |o.nodeSelector| > 0 then o.nodeSelector else map["kubernetes.io/os" := "linux"])
    && o.dns.value.tolerations ==
       (if |o.nodeTolerations| > 0 then o.nodeTolerations
        else [Toleration("node-role.kubernetes.io/master", "Exists", "", "", None)])
  }

  lemma NotReadyMeans(o: Observation)
    ensures NotReady(o) <==> !RolledOut(o)
  {
    assert |o.nodeSelector| > 0 <==> o.nodeSelector != map[];
  }

  /** Progressing is False exactly while the operand is rolled out, or was not progressing a moment ago. */
  lemma ProgressingSays(olds: seq<Condition>, o: Observation, tolerance: int, clock: Clock)
    ensures var r := ComputeConditions(olds, o, tolerance, clock);
            var c, held := r.progressing, YoungFalse(olds, Progressing, clock.now, tolerance);
            && c.kind.Progressing?
            && (c.status.False? <==> RolledOut(o) || held)
            && (c.status.True? <==> !RolledOut(o) && !held)
            && (r.requeue <==> !RolledOut(o) && held)
            && (!RolledOut(o) && held ==> Some(c) == Last(olds, Progressing))
            && (RolledOut(o) ==> c.reason == [AsExpected])
  {
    NotReadyMeans(o);
  }

  /** The operand has `have` pods of the new kind and wants more, `want` of them. */
  predicate Lacks(x: Option<Operand>, have: int, want: int) {
    x.Some? && x.value.updated == have && x.value.desired == want && have < want
  }

  lemma MessageIsNotes(olds: seq<Condition>, o: Observation, tolerance: int, clock: Clock)
    requires !RolledOut(o) && !YoungFalse(olds, Progressing, clock.now, tolerance)
    ensures var c := ComputeConditions(olds, o, tolerance, clock).progressing;
            c.reason == [Reconciling] && c.message == ProgressingNotes(o)
  {
    NotReadyMeans(o);
  }

  /** What the words say is missing is missing. */
  predicate Missing(o: Observation, w: Word) {
    || (w == NoService && o.clusterIP == "")
    || (w == NoDaemonSet && o.dns.None?)
    || (w == NoNodeResolverDaemonSet && o.nodeResolver.None?)
  }

  lemma FixedNotes(o: Observation, w: Word)
    ensures Fixed(w) in ProgressingNotes(o) <==> Missing(o, w)
  {
    NotesOfParts(o, Fixed(w));
  }

  /** What is missing is named in the message, and nothing that is not missing. */
  lemma MissingIsNamed(olds: seq<Condition>, o: Observation, tolerance: int, clock: Clock, w: Word)
    requires !RolledOut(o) && !YoungFalse(olds, Progressing, clock.now, tolerance)
    ensures Fixed(w) in ComputeConditions(olds, o, tolerance, clock).progressing.message <==> Missing(o, w)
  {
    MessageIsNotes(olds, o, tolerance, clock);
    FixedNotes(o, w);
  }

  lemma PodNotes(o: Observation, h: int, w: int)
    ensures UpToDate("DNS", h, w) in ProgressingNotes(o) <==> Lacks(o.dns, h, w)
    ensures UpToDate("node-resolver", h, w) in ProgressingNotes(o) <==> Lacks(o.nodeResolver, h, w)
  {
    assert "DNS"[0] != "node-resolver"[0];
    NotesOfParts(o, UpToDate("DNS", h, w));
    NotesOfParts(o, UpToDate("node-resolver", h, w));
  }

  /** So are the pods that are not up to date, with their numbers. */
  lemma LackIsNamed(olds: seq<Condition>, o: Observation, tolerance: int, clock: Clock, h: int, w: int)
    requires !RolledOut(o) && !YoungFalse(olds, Progressing, clock.now, tolerance)
    ensures var m := ComputeConditions(olds, o, tolerance, clock).progressing.message;
            && (UpToDate("DNS", h, w) in m <==> Lacks(o.dns, h, w))
            && (UpToDate("node-resolver", h, w) in m <==> Lacks(o.nodeResolver, h, w))
  {
    MessageIsNotes(olds, o, tolerance, clock);
    PodNotes(o, h, w);
  }

  /** A sentence comes from the service, from the DNS daemonset or from the node-resolver daemonset. */
  lemma NotesOfParts(o: Observation, n: Note)
    ensures n in ProgressingNotes(o) <==>
            || (o.clusterIP == "" && n == Fixed(NoService))
            || (o.dns.None? && n == Fixed(NoDaemonSet))
            || (o.dns.Some? && (n in UpToDateNotes("DNS", o.dns.value) || n in PlacementNotes(o, o.dns.value)))
            || (o.nodeResolver.None? && n == Fixed(NoNodeResolverDaemonSet))
            || (o.nodeResolver.Some? && n in UpToDateNotes("node-resolver", o.nodeResolver.value))
  {}

  /** The service has no address, or the DNS daemonset is missing or short of more than a tenth of its pods. */
  predicate Suffers(o: Observation) {
    || o.clusterIP == "" || o.dns.None?
    || o.dns.value.desired == 0 || o.dns.value.available == 0
    || o.dns.value.available < 9 * o.dns.value.desired / 10
  }

  lemma DegradedSays(olds: seq<Condition>, o: Observation, tolerance: int, clock: Clock)
    requires o.dns.Some? ==> o.dns.value.desired >= 0 && o.dns.value.available >= 0
    ensures var c := ComputeConditions(olds, o, tolerance, clock).degraded;
            var held := YoungFalse(olds, Degraded, clock.now, tolerance);
            && c.kind.Degraded?
            && (c.status.True? <==>
                  Suffers(o) && !held && (RolledOut(o) || YoungFalse(olds, Progressing, clock.now, tolerance)))
            && (c.status.False? <==> !c.status.True?)
            && (Suffers(o) && held ==> Some(c) == Last(olds, Degraded))
            && (c.status.True? ==> c.reason == [DegradedConditions])
  {
    ProgressingSays(olds, o, tolerance, clock);
    if o.dns.Some? {
      DegradedThreshold(o.dns.value);
    }
    assert DegradedNotes(o) != [] <==> Suffers(o);
  }

  /** What the words say of a degraded operand is so. */
  predicate Wrong(o: Observation, w: Word) {
    || (w == NoService && o.clusterIP == "")
    || (w == NoDaemonSet && o.dns.None?)
    || (w == NoDaemonSetPodsDesired && o.dns.Some? && o.dns.value.desired == 0)
    || (w == NoDaemonSetPods && o.dns.Some? && o.dns.value.desired != 0 && o.dns.value.available == 0)
  }

  lemma DegradedNotesSay(o: Observation, w: Word, u: int, m: int)
    ensures Fixed(w) in DegradedNotes(o) <==> Wrong(o, w)
    ensures TooManyUnavailable(u, m) in DegradedNotes(o) <==>
            && o.dns.Some? && o.dns.value.desired != 0 && o.dns.value.available != 0
            && u == o.dns.value.desired - o.dns.value.available && m == (o.dns.value.desired + 9) / 10 && u > m
  {}

  /** A degraded operand is described by what is wrong with it, and by the numbers where pods are missing. */
  lemma DegradedMessage(olds: seq<Condition>, o: Observation, tolerance: int, clock: Clock, w: Word, u: int, m: int)
    requires ComputeConditions(olds, o, tolerance, clock).degraded.status.True?
    ensures var notes := ComputeConditions(olds, o, tolerance, clock).degraded.message;
            && (Fixed(w) in notes <==> Wrong(o, w))
            && (TooManyUnavailable(u, m) in notes <==>
                  && o.dns.Some? && o.dns.value.desired != 0 && o.dns.value.available != 0
                  && u == o.dns.value.desired - o.dns.value.available && m == (o.dns.value.desired + 9) / 10 && u > m)
  {
    assert ComputeConditions(olds, o, tolerance, clock).degraded.message == DegradedNotes(o);
    DegradedNotesSay(o, w, u, m);
  }

  /** A pass that is not found degraded and whose write, if any, takes effect leaves what it computed. */
  lemma SyncShows(st: DnsState, p: Pass, tolerance: int)
    requires Ordered(p.clock)
    requires Sync(st, p, tolerance).wrote ==> ApiCalls.Effective(p.write)
    ensures var c, r := ComputeConditions(st.conditions, p.o, tolerance, p.clock), Sync(st, p, tolerance);
            && r.requeue == c.requeue
            && (!c.degraded.status.True? ==>
                  && r.state.clusterIP == p.o.clusterIP && r.state.clusterDomain == p.o.clusterDomain
                  && Persisted(c, r.state.conditions)
                  && (r.err.None? <==> !r.wrote || p.write.Ok?))
  {
    var c := ComputeConditions(st.conditions, p.o, tolerance, p.clock);
    StampedConditions(st.conditions, p.o, tolerance, p.clock);
    if c.err.None? {
      PersistShows(st, c, p);
    }
  }

  lemma PersistShows(st: DnsState, c: Computed, p: Pass)
    requires c.err.None? && FourKinds(c.progressing, c.available, c.upgradeable, c.degraded)
    requires Persist(st, c, p).wrote ==> ApiCalls.Effective(p.write)
    ensures var r := Persist(st, c, p);
            && r.state.clusterIP == p.o.clusterIP && r.state.clusterDomain == p.o.clusterDomain
            && Persisted(c, r.state.conditions) && (r.err.None? <==> !r.wrote || p.write.Ok?)
  {
    if Persist(st, c, p).wrote {
      LastOfFour(c.Conditions());
    } else {
      SyncPersists(c, st.conditions);
    }
  }

  // ---------------------------------------------------------------------
  // What one pass may do to the persisted status
  // ---------------------------------------------------------------------

  predicate FourKinds(p: Condition, a: Condition, u: Condition, d: Condition) {
    p.kind.Progressing? && a.kind.Available? && u.kind.Upgradeable? && d.kind.Degraded?
  }

  /** A transition time moves only together with its status, and then into the time of the pass. */
  predicate Stamped(prior: Option<Condition>, c: Condition, clock: Clock) {
    if prior.Some? && prior.value.status == c.status then c.since == prior.value.since
    else clock.now <= c.since <= clock.degraded
  }

  lemma StampedConditions(olds: seq<Condition>, o: Observation, tolerance: int, clock: Clock)
    requires Ordered(clock)
    ensures var c := ComputeConditions(olds, o, tolerance, clock);
            && FourKinds(c.progressing, c.available, c.upgradeable, c.degraded)
            && Stamped(Last(olds, Progressing), c.progressing, clock)
            && Stamped(Last(olds, Available), c.available, clock)
            && Stamped(Last(olds, Upgradeable), c.upgradeable, clock)
            && Stamped(Last(olds, Degraded), c.degraded, clock)
  {}

  predicate FromFalseToTrue(prior: Option<Condition>, c: Condition) {
    prior.Some? && prior.value.status.False? && c.status.True?
  }

  lemma ProgressingWaits(prior: Option<Condition>, o: Observation, tolerance: int, clock: Clock)
    requires prior.Some? ==> prior.value.since <= clock.now
    ensures FromFalseToTrue(prior, ProgressingCondition(prior, o, tolerance, clock)) ==>
              clock.now - prior.value.since > tolerance
  {}

  /** Either the status is left alone, or it is replaced by four conditions that respect the hold. */
  predicate Advances(a: seq<Condition>, b: seq<Condition>, clock: Clock, tolerance: int) {
    b == a ||
    (&& |b| == 4 && FourKinds(b[0], b[1], b[2], b[3])
     && Stamped(Last(a, Progressing), b[0], clock) && Stamped(Last(a, Available), b[1], clock)
     && Stamped(Last(a, Upgradeable), b[2], clock) && Stamped(Last(a, Degraded), b[3], clock)
     && (FromFalseToTrue(Last(a, Progressing), b[0]) ==> clock.now - Last(a, Progressing).value.since > tolerance)
     && !b[3].status.True?)
  }

  predicate NoFuture(cs: seq<Condition>, t: int) {
    forall c :: c in cs ==> c.since <= t
  }

  lemma ComputedAdvances(olds: seq<Condition>, o: Observation, tolerance: int, clock: Clock)
    requires NoFuture(olds, clock.now) && Ordered(clock)
    requires ComputeConditions(olds, o, tolerance, clock).err.None?
    ensures Advances(olds, ComputeConditions(olds, o, tolerance, clock).Conditions(), clock, tolerance)
  {
    StampedConditions(olds, o, tolerance, clock);
    ProgressingWaits(Last(olds, Progressing), o, tolerance, clock);
  }

  lemma PersistCases(st: DnsState, c: Computed, p: Pass)
    ensures var r := Persist(st, c, p).state; r == st || (c.err.None? && r.conditions == c.Conditions())
  {}

  lemma SyncAdvances(st: DnsState, p: Pass, tolerance: int)
    requires NoFuture(st.conditions, p.clock.now) && Ordered(p.clock)
    ensures Advances(st.conditions, Sync(st, p, tolerance).state.conditions, p.clock, tolerance)
  {
    var c := ComputeConditions(st.conditions, p.o, tolerance, p.clock);
    PersistCases(st, c, p);
    if c.err.None? {
      ComputedAdvances(st.conditions, p.o, tolerance, p.clock);
    }
  }

  lemma LastOfFour(cs: seq<Condition>)
    requires |cs| == 4 && FourKinds(cs[0], cs[1], cs[2], cs[3])
    ensures Last(cs, Progressing) == Some(cs[0]) && Last(cs, Available) == Some(cs[1])
    ensures Last(cs, Upgradeable) == Some(cs[2]) && Last(cs, Degraded) == Some(cs[3])
  {
    assert Last(cs, Progressing) == Last(cs[..3], Progressing) && Last(cs, Available) == Last(cs[..3], Available);
    assert cs[..3][..2] == cs[..2] && cs[..2][..1] == cs[..1];
    assert Last(cs[..3], Progressing) == Last(cs[..2], Progressing) == Last(cs[..1], Progressing);
    assert Last(cs[..3], Available) == Last(cs[..2], Available);
  }

  lemma AdvancesKeepsPast(a: seq<Condition>, b: seq<Condition>, clock: Clock, tolerance: int)
    requires Ordered(clock) && NoFuture(a, clock.now) && Advances(a, b, clock, tolerance)
    ensures NoFuture(b, clock.degraded)
  {}

  // ---------------------------------------------------------------------
  // Runs
  // ---------------------------------------------------------------------

  /** The persisted states before, between and after the passes of a run. */
  predicate IsRun(states: seq<DnsState>, ps: seq<Pass>, tolerance: int) {
    && |states| == |ps| + 1
    && forall i :: 0 <= i < |ps| ==> Passes(states, ps, tolerance, i)
  }

  predicate Passes(states: seq<DnsState>, ps: seq<Pass>, tolerance: int, i: nat)
    requires |states| == |ps| + 1 && i < |ps|
  {
    states[i + 1] == Sync(states[i], ps[i], tolerance).state
  }

  /** The last reading of the clock in the first `n` passes of a run that began at `start`. */
  function TimeAfter(ps: seq<Pass>, start: int, n: nat): int
    requires n <= |ps|
  {
    if n == 0 then start else ps[n - 1].clock.degraded
  }

  /** The clock never goes back, within passes and from one to the next. */
  predicate Clocked(ps: seq<Pass>, start: int) {
    forall i :: 0 <= i < |ps| ==> OnTime(ps, start, i)
  }

  predicate OnTime(ps: seq<Pass>, start: int, i: nat)
    requires i < |ps|
  {
    Ordered(ps[i].clock) && TimeAfter(ps, start, i) <= ps[i].clock.now
  }

  /** A run as far as its persisted conditions go. */
  ghost predicate History(states: seq<DnsState>, ps: seq<Pass>, tolerance: int, start: int) {
    && |states| == |ps| + 1 && Clocked(ps, start)
    && (forall i :: 0 <= i < |states| ==> NoFuture(states[i].conditions, TimeAfter(ps, start, i)))
    && (forall i :: 0 <= i < |ps| ==> Moves(states, ps, tolerance, i))
  }

  predicate Moves(states: seq<DnsState>, ps: seq<Pass>, tolerance: int, i: nat)
    requires |states| == |ps| + 1 && i < |ps|
  {
    Advances(states[i].conditions, states[i + 1].conditions, ps[i].clock, tolerance)
  }

  lemma SyncStep(st: DnsState, p: Pass, tolerance: int, next: DnsState)
    requires NoFuture(st.conditions, p.clock.now) && Ordered(p.clock)
    requires next == Sync(st, p, tolerance).state
    ensures Advances(st.conditions, next.conditions, p.clock, tolerance) && NoFuture(next.conditions, p.clock.degraded)
  {
    SyncAdvances(st, p, tolerance);
    AdvancesKeepsPast(st.conditions, next.conditions, p.clock, tolerance);
  }

  lemma PassAt(states: seq<DnsState>, ps: seq<Pass>, tolerance: int, start: int, i: nat)
    requires IsRun(states, ps, tolerance) && Clocked(ps, start) && i < |ps|
    requires NoFuture(states[i].conditions, TimeAfter(ps, start, i))
    ensures Moves(states, ps, tolerance, i) && NoFuture(states[i + 1].conditions, TimeAfter(ps, start, i + 1))
  {
    assert Passes(states, ps, tolerance, i) && OnTime(ps, start, i);
    SyncStep(states[i], ps[i], tolerance, states[i + 1]);
  }

  lemma {:induction false} RunReaches(states: seq<DnsState>, ps: seq<Pass>, tolerance: int, start: int, n: nat)
    requires IsRun(states, ps, tolerance) && Clocked(ps, start) && NoFuture(states[0].conditions, start)
    requires n <= |ps|
    ensures NoFuture(states[n].conditions, TimeAfter(ps, start, n))
  {
    if n > 0 {
      RunReaches(states, ps, tolerance, start, n - 1);
      PassAt(states, ps, tolerance, start, n - 1);
    }
  }

  lemma RunIsHistory(states: seq<DnsState>, ps: seq<Pass>, tolerance: int, start: int)
    requires IsRun(states, ps, tolerance) && Clocked(ps, start) && NoFuture(states[0].conditions, start)
    ensures History(states, ps, tolerance, start)
  {
    forall i | 0 <= i < |states|
      ensures NoFuture(states[i].conditions, TimeAfter(ps, start, i))
    {
      RunReaches(states, ps, tolerance, start, i);
    }
    forall i | 0 <= i < |ps|
      ensures Moves(states, ps, tolerance, i)
    {
      PassAt(states, ps, tolerance, start, i);
    }
  }

  /** The persisted Progressing goes from False to True. */
  predicate Flips(a: seq<Condition>, b: seq<Condition>) {
    Last(b, Progressing).Some? && FromFalseToTrue(Last(a, Progressing), Last(b, Progressing).value)
  }

  predicate KeepsSince(a: seq<Condition>, b: seq<Condition>, k: Kind) {
    var before, after := Last(a, k), Last(b, k);
    before.Some? ==>
      after.Some? && (after.value.since != before.value.since ==> after.value.status != before.value.status)
  }

  predicate RespectsHold(a: seq<Condition>, b: seq<Condition>, now: int, tolerance: int) {
    && (Flips(a, b) ==> now - Last(a, Progressing).value.since > tolerance)
    && KeepsSince(a, b, Progressing) && KeepsSince(a, b, Available)
    && KeepsSince(a, b, Upgradeable) && KeepsSince(a, b, Degraded)
  }

  lemma AdvancesRespectsHold(a: seq<Condition>, b: seq<Condition>, clock: Clock, tolerance: int)
    requires Advances(a, b, clock, tolerance)
    ensures RespectsHold(a, b, clock.now, tolerance)
  {
    if b != a {
      LastOfFour(b);
    }
  }

  /**
   In every run under a clock that never goes back, whatever the passes observe
   and whichever writes fail: the persisted Progressing leaves False only when
   strictly more than the tolerance has passed since its recorded transition,
   and no recorded transition time moves unless its status does.
   */
  lemma HoldOnEveryRun(states: seq<DnsState>, ps: seq<Pass>, tolerance: int, start: int, n: nat)
    requires IsRun(states, ps, tolerance) && Clocked(ps, start) && NoFuture(states[0].conditions, start)
    requires n < |ps|
    ensures RespectsHold(states[n].conditions, states[n + 1].conditions, ps[n].clock.now, tolerance)
  {
    RunIsHistory(states, ps, tolerance, start);
    assert Moves(states, ps, tolerance, n);
    AdvancesRespectsHold(states[n].conditions, states[n + 1].conditions, ps[n].clock, tolerance);
  }

  /** How often the persisted Progressing went from False to True in the first `n` passes. */
  function FlipCount(states: seq<DnsState>, n: nat): nat
    requires n < |states|
  {
    if n == 0 then 0
    else FlipCount(states, n - 1) + if Flips(states[n - 1].conditions, states[n].conditions) then 1 else 0
  }

  /** Since when Progressing has been False, or the present when it is not. */
  function Anchor(cs: seq<Condition>, t: int): int {
    var p := Last(cs, Progressing);
    if p.Some? && p.value.status.False? then p.value.since else t
  }

  lemma AnchorMoves(a: seq<Condition>, b: seq<Condition>, clock: Clock, tolerance: int, t: int)
    requires Ordered(clock) && t <= clock.now && NoFuture(a, t) && Advances(a, b, clock, tolerance)
    ensures if Flips(a, b) then Anchor(b, clock.degraded) == clock.degraded && Anchor(a, t) + tolerance < clock.now
            else Anchor(a, t) <= Anchor(b, clock.degraded)
    ensures Anchor(b, clock.degraded) <= clock.degraded
  {
    if b != a {
      LastOfFour(b);
    }
  }

  /** That many flips fit into that much time. */
  predicate Limited(flips: int, tolerance: int, span: int) {
    flips > 0 ==> (flips - 1) * tolerance <= span
  }

  lemma OneMore(k: int, flips: bool, tolerance: int, before: int, after: int)
    requires k >= 0 && Limited(k, tolerance, before)
    requires if flips then 0 <= after && before + tolerance <= after else before <= after
    ensures Limited(if flips then k + 1 else k, tolerance, after)
  {
    assert k * tolerance == (k - 1) * tolerance + tolerance;
  }

  lemma HistoryAt(states: seq<DnsState>, ps: seq<Pass>, tolerance: int, start: int, i: nat)
    requires History(states, ps, tolerance, start) && i < |ps|
    ensures Ordered(ps[i].clock) && TimeAfter(ps, start, i) <= ps[i].clock.now
    ensures NoFuture(states[i].conditions, TimeAfter(ps, start, i))
    ensures Advances(states[i].conditions, states[i + 1].conditions, ps[i].clock, tolerance)
  {
    assert Moves(states, ps, tolerance, i) && OnTime(ps, start, i);
  }

  /** The anchor, measured from the start of the run. */
  function AnchorAt(states: seq<DnsState>, ps: seq<Pass>, start: int, n: nat): int
    requires n < |states| == |ps| + 1
  {
    Anchor(states[n].conditions, TimeAfter(ps, start, n)) - start
  }

  lemma AnchorStep(states: seq<DnsState>, ps: seq<Pass>, tolerance: int, start: int, n: nat)
    requires History(states, ps, tolerance, start) && tolerance >= 0 && n < |ps| && start <= TimeAfter(ps, start, n)
    ensures start <= TimeAfter(ps, start, n + 1)
    ensures AnchorAt(states, ps, start, n + 1) <= TimeAfter(ps, start, n + 1) - start
    ensures var before, after := AnchorAt(states, ps, start, n), AnchorAt(states, ps, start, n + 1);
            if Flips(states[n].conditions, states[n + 1].conditions) then 0 <= after && before + tolerance <= after
            else before <= after
  {
    HistoryAt(states, ps, tolerance, start, n);
    var a, b := states[n].conditions, states[n + 1].conditions;
    AnchorMoves(a, b, ps[n].clock, tolerance, TimeAfter(ps, start, n));
  }

  lemma {:induction false} HistoryIsRateLimited(
    states: seq<DnsState>, ps: seq<Pass>, tolerance: int, start: int, n: nat)
    requires History(states, ps, tolerance, start) && tolerance >= 0 && n <= |ps|
    ensures start <= TimeAfter(ps, start, n)
    ensures Limited(FlipCount(states, n), tolerance, AnchorAt(states, ps, start, n))
    ensures n > 0 ==> AnchorAt(states, ps, start, n) <= TimeAfter(ps, start, n) - start
  {
    if n > 0 {
      HistoryIsRateLimited(states, ps, tolerance, start, n - 1);
      AnchorStep(states, ps, tolerance, start, n - 1);
      var flips := Flips(states[n - 1].conditions, states[n].conditions);
      var before, after := AnchorAt(states, ps, start, n - 1), AnchorAt(states, ps, start, n);
      OneMore(FlipCount(states, n - 1), flips, tolerance, before, after);
    }
  }

  /** The hold window bounds the rate of flapping: in every run, k flips take at least k - 1 tolerances. */
  lemma FlappingIsRateLimited(states: seq<DnsState>, ps: seq<Pass>, tolerance: int, start: int, n: nat)
    requires IsRun(states, ps, tolerance) && Clocked(ps, start) && NoFuture(states[0].conditions, start)
    requires tolerance >= 0 && n <= |ps|
    ensures FlipCount(states, n) > 0 ==> (FlipCount(states, n) - 1) * tolerance <= TimeAfter(ps, start, n) - start
  {
    RunIsHistory(states, ps, tolerance, start);
    HistoryIsRateLimited(states, ps, tolerance, start, n);
  }

  // ---------------------------------------------------------------------
  // Bounded hold
  // ---------------------------------------------------------------------

  predicate SuppressedPass(st: DnsState, p: Pass, tolerance: int) {
    Suppressed(Last(st.conditions, Progressing), p.o, tolerance, p.clock.now)
  }

  lemma SuppressedComputes(olds: seq<Condition>, o: Observation, tolerance: int, clock: Clock)
    requires Suppressed(Last(olds, Progressing), o, tolerance, clock.now)
    ensures var c := ComputeConditions(olds, o, tolerance, clock);
            && Last(olds, Progressing) == Some(c.progressing) && c.requeue
            && FourKinds(c.progressing, c.available, c.upgradeable, c.degraded)
  {}

  lemma PersistKeepsProgressing(st: DnsState, c: Computed, p: Pass)
    requires FourKinds(c.progressing, c.available, c.upgradeable, c.degraded)
    requires Last(st.conditions, Progressing) == Some(c.progressing)
    ensures Last(Persist(st, c, p).state.conditions, Progressing) == Some(c.progressing)
    ensures Persist(st, c, p).requeue == c.requeue
  {
    LastOfFour(c.Conditions());
    PersistCases(st, c, p);
  }

  lemma SuppressedPassKeepsProgressing(st: DnsState, p: Pass, tolerance: int)
    requires SuppressedPass(st, p, tolerance)
    ensures Last(Sync(st, p, tolerance).state.conditions, Progressing) == Last(st.conditions, Progressing)
    ensures Sync(st, p, tolerance).requeue
  {
    SuppressedComputes(st.conditions, p.o, tolerance, p.clock);
    PersistKeepsProgressing(st, ComputeConditions(st.conditions, p.o, tolerance, p.clock), p);
  }

  /**
   If the operand stays not ready and passes come no sooner than the requeue they
   ask for, at most two passes in a row are suppressed: the third computes
   Progressing=True. Every suppressed pass asks for a requeue.
   */
  lemma BoundedHold(st: DnsState, p1: Pass, p2: Pass, p3: Pass, tolerance: int)
    requires tolerance > 0 && NoFuture(st.conditions, p1.clock.now)
    requires p1.clock.now + tolerance <= p2.clock.now && p2.clock.now + tolerance <= p3.clock.now
    requires NotReady(p3.o)
    requires SuppressedPass(st, p1, tolerance)
    requires SuppressedPass(Sync(st, p1, tolerance).state, p2, tolerance)
    ensures var st2 := Sync(Sync(st, p1, tolerance).state, p2, tolerance).state;
            && Sync(st, p1, tolerance).requeue && Sync(Sync(st, p1, tolerance).state, p2, tolerance).requeue
            && !SuppressedPass(st2, p3, tolerance)
            && ComputeConditions(st2.conditions, p3.o, tolerance, p3.clock).progressing.status.True?
  {
    var st1 := Sync(st, p1, tolerance).state;
    SuppressedPassKeepsProgressing(st, p1, tolerance);
    SuppressedPassKeepsProgressing(st1, p2, tolerance);
  }

  /** Consecutive passes are at least the requeue delay apart. */
  predicate Spaced(ps: seq<Pass>, tolerance: int) {
    forall i :: 0 <= i < |ps| - 1 ==> ps[i].clock.now + tolerance <= ps[i + 1].clock.now
  }

  /** In every run of spaced passes, no three passes in a row are suppressed. */
  lemma NoThirdSuppression(states: seq<DnsState>, ps: seq<Pass>, tolerance: int, start: int, n: nat)
    requires IsRun(states, ps, tolerance) && Clocked(ps, start) && NoFuture(states[0].conditions, start)
    requires tolerance > 0 && Spaced(ps, tolerance) && n + 2 < |ps|
    ensures !(SuppressedPass(states[n], ps[n], tolerance) && SuppressedPass(states[n + 1], ps[n + 1], tolerance)
              && SuppressedPass(states[n + 2], ps[n + 2], tolerance))
  {
    RunReaches(states, ps, tolerance, start, n);
    assert OnTime(ps, start, n) && Passes(states, ps, tolerance, n) && Passes(states, ps, tolerance, n + 1);
    var first := SuppressedPass(states[n], ps[n], tolerance);
    var second := SuppressedPass(states[n + 1], ps[n + 1], tolerance);
    if first && second && NotReady(ps[n + 2].o) {
      BoundedHold(states[n], ps[n], ps[n + 1], ps[n + 2], tolerance);
    }
  }

  // ---------------------------------------------------------------------
  // What is persisted
  // ---------------------------------------------------------------------

  predicate NotDegraded(cs: seq<Condition>) {
    forall c :: c in cs && c.kind.Degraded? ==> !c.status.True?
  }

  lemma {:induction false} HistoryIsNotDegraded(
    states: seq<DnsState>, ps: seq<Pass>, tolerance: int, start: int, n: nat)
    requires History(states, ps, tolerance, start) && NotDegraded(states[0].conditions) && n <= |ps|
    ensures NotDegraded(states[n].conditions)
  {
    if n > 0 {
      HistoryIsNotDegraded(states, ps, tolerance, start, n - 1);
      assert Moves(states, ps, tolerance, n - 1);
    }
  }

  /** The controller never persists Degraded=True: in every run, what was not degraded at first never is. */
  lemma DegradedNeverPersisted(states: seq<DnsState>, ps: seq<Pass>, tolerance: int, start: int, n: nat)
    requires IsRun(states, ps, tolerance) && Clocked(ps, start) && NoFuture(states[0].conditions, start)
    requires NotDegraded(states[0].conditions) && n <= |ps|
    ensures NotDegraded(states[n].conditions)
  {
    RunIsHistory(states, ps, tolerance, start);
    HistoryIsNotDegraded(states, ps, tolerance, start, n);
  }

  /** Neither condition is being held by the pass. */
  predicate NoHold(st: DnsState, p: Pass, tolerance: int) {
    && !SuppressedPass(st, p, tolerance)
    && !(DegradedNotes(p.o) != [] && Held(Last(st.conditions, Degraded), p.clock.now, tolerance))
  }

  /** The same observation, except for where printed pointers happen to live. */
  predicate SameObservation(a: Observation, b: Observation) {
    b == a.(addresses := b.addresses)
  }

  /** The message spells out tolerations that hold a pointer. */
  predicate PrintsPointers(o: Observation) {
    && o.dns.Some? && o.dns.value.tolerations != TolerationsForDns(o)
    && PrintsAddress(o.dns.value.tolerations + TolerationsForDns(o))
  }

  /** The note about tolerations stands after the others of the daemonset and shows the addresses. */
  lemma PointersShow(o: Observation) returns (k: nat)
    requires PrintsPointers(o)
    ensures k == (if o.clusterIP == "" then 1 else 0) + |UpToDateNotes("DNS", o.dns.value)|
               + (if o.dns.value.selector != NodeSelectorForDns(o) then 1 else 0)
    ensures k < |ProgressingNotes(o)|
    ensures ProgressingNotes(o)[k] == TolerationsDiffer(o.dns.value.tolerations, TolerationsForDns(o), o.addresses)
  {
    var x := o.dns.value;
    k := (if o.clusterIP == "" then 1 else 0) + |UpToDateNotes("DNS", x)|
      + (if x.selector != NodeSelectorForDns(o) then 1 else 0);
  }

  lemma SameNotes(a: Observation, b: Observation)
    requires SameObservation(a, b) && (!PrintsPointers(a) || a.addresses == b.addresses)
    ensures ProgressingNotes(a) == ProgressingNotes(b)
  {}

  lemma NotesAgain(a: Observation, b: Observation)
    requires SameObservation(a, b)
    ensures ProgressingNotes(a) == ProgressingNotes(b) <==> !PrintsPointers(a) || a.addresses == b.addresses
    ensures NotReady(a) <==> NotReady(b)
    ensures PrintsPointers(a) ==> NotReady(a)
    ensures DegradedNotes(a) == DegradedNotes(b)
  {
    if PrintsPointers(a) {
      var k := PointersShow(a);
      var l := PointersShow(b);
    }
    if !PrintsPointers(a) || a.addresses == b.addresses {
      SameNotes(a, b);
    }
  }

  predicate Persisted(c: Computed, cs: seq<Condition>) {
    && Last(cs, Progressing) == Some(c.progressing) && Last(cs, Available) == Some(c.available)
    && Last(cs, Upgradeable) == Some(c.upgradeable) && Last(cs, Degraded) == Some(c.degraded)
  }

  /** Whether or not a write was needed, the persisted conditions are then the computed ones. */
  lemma SyncPersists(c: Computed, cs: seq<Condition>)
    requires FourKinds(c.progressing, c.available, c.upgradeable, c.degraded)
    requires SameConditions(c.Conditions(), cs)
    ensures Persisted(c, cs)
  {
    LastOfFour(c.Conditions());
    LastOfEqual(c.Conditions(), cs, Progressing);
    LastOfEqual(c.Conditions(), cs, Available);
    LastOfEqual(c.Conditions(), cs, Upgradeable);
    LastOfEqual(c.Conditions(), cs, Degraded);
  }

  lemma SameProgressing(prior: Option<Condition>, p: Pass, q: Pass, tolerance: int)
    requires SameObservation(p.o, q.o) && !Suppressed(prior, p.o, tolerance, p.clock.now)
    ensures var c := ProgressingCondition(prior, p.o, tolerance, p.clock);
            var d := ProgressingCondition(Some(c), q.o, tolerance, q.clock);
            d == c.(message := d.message) && (d == c <==> !PrintsPointers(p.o) || p.o.addresses == q.o.addresses)
  {
    NotesAgain(p.o, q.o);
  }

  lemma SameDegraded(prior: Option<Condition>, progressing: Status, p: Pass, q: Pass, tolerance: int)
    requires SameObservation(p.o, q.o)
    requires !(DegradedNotes(p.o) != [] && Held(prior, p.clock.now, tolerance))
    requires !DegradedCondition(prior, progressing, p.o, tolerance, p.clock).status.True?
    ensures var c := DegradedCondition(prior, progressing, p.o, tolerance, p.clock);
            DegradedCondition(Some(c), progressing, q.o, tolerance, q.clock) == c
  {}

  lemma SameAvailableAndUpgradeable(a: Option<Condition>, u: Option<Condition>, p: Pass, q: Pass)
    requires SameObservation(p.o, q.o)
    ensures var c := AvailableCondition(a, p.o, p.clock); AvailableCondition(Some(c), q.o, q.clock) == c
    ensures var c := UpgradeableCondition(u, p.o, p.clock); UpgradeableCondition(Some(c), q.o, q.clock) == c
  {}

  /** A second look at the same operand finds the conditions that are already there, up to printed pointers. */
  lemma SameAgain(olds: seq<Condition>, news: seq<Condition>, p: Pass, q: Pass, tolerance: int)
    requires SameObservation(p.o, q.o)
    requires !Suppressed(Last(olds, Progressing), p.o, tolerance, p.clock.now)
    requires !(DegradedNotes(p.o) != [] && Held(Last(olds, Degraded), p.clock.now, tolerance))
    requires Persisted(ComputeConditions(olds, p.o, tolerance, p.clock), news)
    requires ComputeConditions(olds, p.o, tolerance, p.clock).err.None?
    ensures var c := ComputeConditions(olds, p.o, tolerance, p.clock);
            var d := ComputeConditions(news, q.o, tolerance, q.clock);
            && d.err.None?
            && d.available == c.available && d.upgradeable == c.upgradeable && d.degraded == c.degraded
            && (d.progressing == c.progressing <==> !PrintsPointers(p.o) || p.o.addresses == q.o.addresses)
  {
    SameProgressing(Last(olds, Progressing), p, q, tolerance);
    SameAvailableAndUpgradeable(Last(olds, Available), Last(olds, Upgradeable), p, q);
    var status := ComputeConditions(olds, p.o, tolerance, p.clock).progressing.status;
    SameDegraded(Last(olds, Degraded), status, p, q, tolerance);
  }

  /** Printing pointers means not being ready, and a degraded operand is not ready. */
  lemma DegradedPrintsNothing(olds: seq<Condition>, p: Pass, tolerance: int)
    requires !Suppressed(Last(olds, Progressing), p.o, tolerance, p.clock.now)
    requires ComputeConditions(olds, p.o, tolerance, p.clock).err.Some?
    ensures !PrintsPointers(p.o)
  {
    NotesAgain(p.o, p.o);
  }

  lemma WritesIffDifferent(st: DnsState, c: Computed, p: Pass)
    requires c.err.None?
    ensures Persist(st, c, p).wrote <==> !SameStatus(DnsState(c.Conditions(), p.o.clusterIP, p.o.clusterDomain), st)
  {}

  /** Still degraded, still nothing written. */
  lemma StillDegraded(st: DnsState, p: Pass, q: Pass, tolerance: int)
    requires NoFuture(st.conditions, p.clock.now) && p.clock.now <= q.clock.now && SameObservation(p.o, q.o)
    requires NoHold(st, p, tolerance) && ComputeConditions(st.conditions, p.o, tolerance, p.clock).err.Some?
    ensures ComputeConditions(st.conditions, q.o, tolerance, q.clock).err.Some?
  {
    NotesAgain(p.o, q.o);
  }

  /**
   Quiescence: after a pass without a hold in force whose write, if any,
   succeeded, a later pass that observes the same writes nothing, with exactly
   one exception: a message that prints pointers differs whenever they moved.
   */
  lemma Quiescence(st: DnsState, p: Pass, q: Pass, tolerance: int)
    requires NoFuture(st.conditions, p.clock.now) && Ordered(p.clock) && p.clock.degraded <= q.clock.now
    requires NoHold(st, p, tolerance) && p.write.Ok?
    requires SameObservation(p.o, q.o)
    ensures Sync(Sync(st, p, tolerance).state, q, tolerance).wrote <==>
            PrintsPointers(p.o) && p.o.addresses != q.o.addresses
  {
    var c := ComputeConditions(st.conditions, p.o, tolerance, p.clock);
    if c.err.Some? {
      DegradedPrintsNothing(st.conditions, p, tolerance);
      StillDegraded(st, p, q, tolerance);
    } else {
      StampedConditions(st.conditions, p.o, tolerance, p.clock);
      QuietAfter(st, p, q, tolerance, Sync(st, p, tolerance).state);
    }
  }

  /**
   An instance: a daemonset kept at tolerations with `seconds` while the spec wants none. Whatever the clock and
   the rest of the operand, the second of two equal passes writes because the pointer was printed elsewhere.
   */
  lemma MovedPointersAreWritten(p: Pass, q: Pass, tolerance: int, t: Toleration)
    requires p.o.dns.Some? && p.o.dns.value.tolerations == [t] && t.seconds.Some? && p.o.nodeTolerations == []
    requires Ordered(p.clock) && p.clock.degraded <= q.clock.now && p.write.Ok?
    requires SameObservation(p.o, q.o) && p.o.addresses != q.o.addresses
    ensures Sync(Sync(DnsState([], "", ""), p, tolerance).state, q, tolerance).wrote
  {
    assert TolerationsForDns(p.o)[0].seconds.None?;
    assert [t][0] != TolerationsForDns(p.o)[0];
    assert t in [t] + TolerationsForDns(p.o);
    assert PrintsPointers(p.o);
    Quiescence(DnsState([], "", ""), p, q, tolerance);
  }

  lemma QuietAfter(st: DnsState, p: Pass, q: Pass, tolerance: int, st1: DnsState)
    requires NoHold(st, p, tolerance) && SameObservation(p.o, q.o)
    requires ComputeConditions(st.conditions, p.o, tolerance, p.clock).err.None?
    requires var c := ComputeConditions(st.conditions, p.o, tolerance, p.clock);
             && SameStatus(DnsState(c.Conditions(), p.o.clusterIP, p.o.clusterDomain), st1)
             && FourKinds(c.progressing, c.available, c.upgradeable, c.degraded)
    ensures Sync(st1, q, tolerance).wrote <==> PrintsPointers(p.o) && p.o.addresses != q.o.addresses
  {
    var c := ComputeConditions(st.conditions, p.o, tolerance, p.clock);
    var d := ComputeConditions(st1.conditions, q.o, tolerance, q.clock);
    SyncPersists(c, st1.conditions);
    SameAgain(st.conditions, st1.conditions, p, q, tolerance);
    WritesIffDifferent(st1, d, q);
    if SameConditions(d.Conditions(), st1.conditions) {
      SyncPersists(d, st1.conditions);
    }
  }
}

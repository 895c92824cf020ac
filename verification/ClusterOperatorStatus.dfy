/**
 The second controller: it summarises the DNS object in the ClusterOperator
 (pkg/operator/controller/status/controller.go).
 */
module ClusterOperatorStatus {
  import opened Wrappers
  import opened Conditions
  import opened OperandVersions
  import opened DnsStatus
  import opened MergeConditions
  import ApiCalls
  import StringSlices

  // ---------------------------------------------------------------------
  // Upgrading
  // ---------------------------------------------------------------------

  predicate DoneDue(cur: Versions, prior: Versions, n: Name) {
    n in cur && n in prior && prior[n] != cur[n]
  }

  predicate NextDue(cur: Versions, target: Versions, n: Name) {
    n in cur && n in target && cur[n] != target[n]
  }

  predicate UpgradePending(cur: Versions, target: Versions) {
    exists n :: n in cur && NextDue(cur, target, n)
  }

  /** The message is about a version that has just been reached or one that is still to be reached. */
  predicate Due(cur: Versions, prior: Versions, target: Versions, m: Note) {
    && m.Version?
    && (if m.done then DoneDue(cur, prior, m.name) && m.version == cur[m.name]
        else NextDue(cur, target, m.name) && m.version == target[m.name])
  }

  /** The due messages of one name: what it has reached comes before where it is going. */
  function MessagesOf(cur: Versions, prior: Versions, target: Versions, n: Name): seq<Note> {
    (if DoneDue(cur, prior, n) then [Version(true, n, cur[n])] else []) +
    (if NextDue(cur, target, n) then [Version(false, n, target[n])] else [])
  }

  /** The messages of a scan that goes through the names in this order. */
  function MessagesIn(order: seq<Name>, cur: Versions, prior: Versions, target: Versions): seq<Note> {
    if order == [] then []
    else
      MessagesIn(order[..|order| - 1], cur, prior, target) + MessagesOf(cur, prior, target, order[|order| - 1])
  }

  ghost predicate GoesThrough(order: seq<Name>, names: set<Name>) {
    (forall n :: n in order <==> n in names) && (forall i, j :: 0 <= i < j < |order| ==> order[i] != order[j])
  }

  /** What a scan over the current versions can produce; a map iteration leaves the order open. */
  ghost predicate Produces(messages: seq<Note>, cur: Versions, prior: Versions, target: Versions) {
    exists order :: GoesThrough(order, cur.Keys) && messages == MessagesIn(order, cur, prior, target)
  }

  lemma MessagesStep(order: seq<Name>, n: Name, cur: Versions, prior: Versions, target: Versions)
    ensures MessagesIn(order + [n], cur, prior, target)
         == MessagesIn(order, cur, prior, target) + MessagesOf(cur, prior, target, n)
  {
    assert (order + [n])[..|order|] == order;
  }

  /** The scan over the versions. */
  method IsUpgrading(cur: Versions, prior: Versions, target: Versions) returns (upgrading: bool, messages: seq<Note>)
    ensures upgrading <==> UpgradePending(cur, target)
    ensures Produces(messages, cur, prior, target)
  {
    upgrading, messages := false, [];
    var todo := cur.Keys;
    ghost var order: seq<Name> := [];
    while todo != {}
      invariant todo <= cur.Keys && GoesThrough(order, cur.Keys - todo)
      invariant upgrading <==> exists n :: n in order && NextDue(cur, target, n)
      invariant messages == MessagesIn(order, cur, prior, target)
      decreases todo
    {
      var n :| n in todo;
      MessagesStep(order, n, cur, prior, target);
      ghost var before := messages;
      if n in prior && prior[n] != cur[n] {
        messages := messages + [Version(true, n, cur[n])];
      }
      if n in target && cur[n] != target[n] {
        messages := messages + [Version(false, n, target[n])];
        upgrading := true;
      }
      assert messages == before + MessagesOf(cur, prior, target, n);
      GoesThroughStep(order, cur.Keys - todo, n);
      assert cur.Keys - (todo - {n}) == cur.Keys - todo + {n};
      todo, order := todo - {n}, order + [n];
    }
    assert cur.Keys - todo == cur.Keys;
  }

  lemma GoesThroughStep(order: seq<Name>, names: set<Name>, n: Name)
    requires GoesThrough(order, names) && n !in names
    ensures GoesThrough(order + [n], names + {n})
  {
    var all := order + [n];
    assert forall i :: 0 <= i < |order| ==> all[i] == order[i] && order[i] in order;
  }

  lemma MessagesOfAreDue(cur: Versions, prior: Versions, target: Versions, n: Name, m: Note)
    ensures m in MessagesOf(cur, prior, target, n) <==> Due(cur, prior, target, m) && m.name == n
  {}

  lemma {:induction false} MessagesAreDue(order: seq<Name>, cur: Versions, prior: Versions, target: Versions, m: Note)
    ensures m in MessagesIn(order, cur, prior, target) <==> Due(cur, prior, target, m) && m.name in order
  {
    if order != [] {
      var k := |order| - 1;
      MessagesAreDue(order[..k], cur, prior, target, m);
      MessagesOfAreDue(cur, prior, target, order[k], m);
      assert order == order[..k] + [order[k]];
    }
  }

  /** Whatever the order, the messages are exactly the due ones. */
  lemma ProducedAreDue(ms: seq<Note>, cur: Versions, prior: Versions, target: Versions, m: Note)
    requires Produces(ms, cur, prior, target)
    ensures m in ms <==> Due(cur, prior, target, m)
  {
    var order :| GoesThrough(order, cur.Keys) && ms == MessagesIn(order, cur, prior, target);
    MessagesAreDue(order, cur, prior, target, m);
  }

  // ---------------------------------------------------------------------
  // Conditions computed from the DNS object, if there is one
  // ---------------------------------------------------------------------

  predicate Has(cs: seq<Condition>, k: Kind, s: Status) {
    exists c :: c in cs && c.kind == k && c.status == s
  }

  function First(cs: seq<Condition>, k: Kind): Option<Condition> {
    if cs == [] then None else if cs[0].kind == k then Some(cs[0]) else First(cs[1..], k)
  }

  function AvailableOf(dns: Option<seq<Condition>>): Condition {
    if dns.None? then Condition(Available, False, [DnsDoesNotExist], [Fixed(DnsDoesNotExist)], 0)
    else if !Has(dns.value, Available, True) then
      Condition(Available, False, [DnsUnavailable], [Fixed(DnsUnavailable)], 0)
    else Condition(Available, True, [AsExpected], [Fixed(AsExpected)], 0)
  }

  /** What the DNS object contributes to Progressing: a status, reasons and sentences. */
  function ReportedProgressing(dns: Option<seq<Condition>>): (Status, seq<Word>, seq<Note>) {
    if dns.None? then (True, [DnsDoesNotExist], [Fixed(DnsDoesNotExist)])
    else
      match First(dns.value, Progressing)
      case None => (Unknown, [DnsDoesNotReportProgressing], [Fixed(DnsDoesNotReportProgressing)])
      case Some(c) =>
        match c.status
        case True => (True, [DnsReportsProgressingIsTrue], [Fixed(DnsReportsProgressingIsTrue), Quoted(c.message)])
        case Unknown =>
          (Unknown, [DnsReportsProgressingIsUnknown], [Fixed(DnsReportsProgressingIsUnknown), Quoted(c.message)])
        case False => (Unknown, [], [])
  }

  function ProgressingOf(dns: Option<seq<Condition>>, upgrading: bool, messages: seq<Note>): Condition {
    var (status, reasons, notes) := ReportedProgressing(dns);
    if upgrading then Condition(Progressing, True, reasons + [Word.Upgrading], notes + messages, 0)
    else if reasons != [] then Condition(Progressing, status, reasons, notes, 0)
    else Condition(Progressing, False, [AsExpected], [Fixed(AsExpected)], 0)
  }

  function DegradedMessages(cs: seq<Condition>): seq<Note> {
    if cs == [] then []
    else
      var c := cs[|cs| - 1];
      DegradedMessages(cs[..|cs| - 1]) + if c.kind.Degraded? && c.status.True? then [Quoted(c.message)] else []
  }

  /** An operator that is upgrading is never reported as degraded. */
  function DegradedOf(dns: Option<seq<Condition>>, upgrading: bool): Condition {
    if dns.None? then Condition(Degraded, True, [DnsDoesNotExist], [Fixed(DnsDoesNotExist)], 0)
    else if !upgrading && Has(dns.value, Degraded, True) then
      Condition(Degraded, True, [DnsDegraded], DegradedMessages(dns.value), 0)
    else Condition(Degraded, False, [DnsNotDegraded], [], 0)
  }

  function UpgradeableOf(cs: seq<Condition>): Condition {
    var c := Last(cs, Upgradeable);
    var message := if c.Some? then [Quoted(c.value.message)] else [];
    if c.Some? && !c.value.status.True? then Condition(Upgradeable, False, [DnsNotUpgradeable], message, 0)
    else Condition(Upgradeable, True, [DnsUpgradeable], message, 0)
  }

  method ComputeOperatorDegradedCondition(dns: Option<seq<Condition>>, upgrading: bool) returns (r: Condition)
    ensures r == DegradedOf(dns, upgrading)
  {
    if dns.None? {
      return Condition(Degraded, True, [DnsDoesNotExist], [Fixed(DnsDoesNotExist)], 0);
    }
    if !upgrading {
      var degraded, messages := false, [];
      var cs := dns.value;
      for i := 0 to |cs|
        invariant degraded <==> Has(cs[..i], Degraded, True)
        invariant messages == DegradedMessages(cs[..i])
      {
        assert cs[..i + 1][..i] == cs[..i];
        assert cs[..i + 1] == cs[..i] + [cs[i]];
        if cs[i].kind.Degraded? && cs[i].status.True? {
          assert cs[i] in cs[..i + 1];
          degraded, messages := true, messages + [Quoted(cs[i].message)];
        }
      }
      assert cs[..|cs|] == cs;
      if degraded {
        return Condition(Degraded, True, [DnsDegraded], messages, 0);
      }
    }
    return Condition(Degraded, False, [DnsNotDegraded], [], 0);
  }

  lemma {:induction false} FirstIsDecidedBy(cs: seq<Condition>, i: nat, k: Kind)
    requires i < |cs| && cs[i].kind == k && forall j :: 0 <= j < i ==> cs[j].kind != k
    ensures First(cs, k) == Some(cs[i])
  {
    if i > 0 {
      FirstIsDecidedBy(cs[1..], i - 1, k);
    }
  }

  lemma {:induction false} FirstOfNone(cs: seq<Condition>, k: Kind)
    requires forall j :: 0 <= j < |cs| ==> cs[j].kind != k
    ensures First(cs, k) == None
  {
    if cs != [] {
      FirstOfNone(cs[1..], k);
    }
  }

  method ComputeOperatorProgressingCondition(dns: Option<seq<Condition>>, upgrading: bool, upgradingMessages: seq<Note>)
    returns (r: Condition)
    ensures r == ProgressingOf(dns, upgrading, upgradingMessages)
  {
    var status, reasons, messages := Unknown, [], [];
    if dns.None? {
      status, reasons, messages := True, [DnsDoesNotExist], [Fixed(DnsDoesNotExist)];
    } else {
      var cs, found := dns.value, false;
      for i := 0 to |cs|
        invariant !found && status == Unknown && reasons == [] && messages == []
        invariant forall j :: 0 <= j < i ==> !cs[j].kind.Progressing?
      {
        if cs[i].kind.Progressing? {
          FirstIsDecidedBy(cs, i, Progressing);
          found := true;
          if cs[i].status.True? {
            status := True;
            reasons := [DnsReportsProgressingIsTrue];
            messages := [Fixed(DnsReportsProgressingIsTrue), Quoted(cs[i].message)];
          } else if cs[i].status.Unknown? {
            reasons := [DnsReportsProgressingIsUnknown];
            messages := [Fixed(DnsReportsProgressingIsUnknown), Quoted(cs[i].message)];
          }
          break;
        }
      }
      if !found {
        FirstOfNone(cs, Progressing);
        reasons, messages := [DnsDoesNotReportProgressing], [Fixed(DnsDoesNotReportProgressing)];
      }
    }
    if upgrading {
      status, messages, reasons := True, messages + upgradingMessages, reasons + [Word.Upgrading];
    }
    if reasons != [] {
      return Condition(Progressing, status, reasons, messages, 0);
    }
    return Condition(Progressing, False, [AsExpected], [Fixed(AsExpected)], 0);
  }

  // ---------------------------------------------------------------------
  // The roll-up of the two controllers
  // ---------------------------------------------------------------------

  /**
   From any conditions the DNS controller computes, the ClusterOperator reports
   Degraded=True only together with Progressing=False and with no version still
   on its way.
   */
  lemma DegradedRollsUpAlone(
    olds: seq<Condition>, o: Observation, tolerance: int, clock: Clock,
    cur: Versions, target: Versions, messages: seq<Note>)
    ensures var dns := Some(ComputeConditions(olds, o, tolerance, clock).Conditions());
            DegradedOf(dns, UpgradePending(cur, target)).status.True? ==>
              && ProgressingOf(dns, UpgradePending(cur, target), messages).status.False?
              && forall n :: n in cur && n in target ==> cur[n] == target[n]
  {
    var c := ComputeConditions(olds, o, tolerance, clock);
    NeverDegradedWhileProgressing(olds, o, tolerance, clock);
    RollUp(c, UpgradePending(cur, target), messages);
  }

  lemma RollUp(c: Computed, upgrading: bool, messages: seq<Note>)
    requires FourKinds(c.progressing, c.available, c.upgradeable, c.degraded)
    requires c.degraded.status.True? ==> c.progressing.status.False?
    ensures var dns := Some(c.Conditions());
            DegradedOf(dns, upgrading).status.True? ==>
              ProgressingOf(dns, upgrading, messages).status.False? && !upgrading
  {
    assert First(c.Conditions(), Progressing) == Some(c.progressing);
  }

  /**
   In every run of the DNS controller that does not start out degraded, the
   ClusterOperator never reports Degraded=True while the DNS object exists: a
   degraded operand shows only in the retries of the DNS controller.
   */
  lemma DegradedNeverRollsUp(states: seq<DnsState>, ps: seq<Pass>, tolerance: int, start: int, n: nat, upgrading: bool)
    requires DnsStatus.IsRun(states, ps, tolerance) && Clocked(ps, start) && NoFuture(states[0].conditions, start)
    requires NotDegraded(states[0].conditions) && n <= |ps|
    ensures DegradedOf(Some(states[n].conditions), upgrading).status.False?
  {
    DegradedNeverPersisted(states, ps, tolerance, start, n);
  }

  // ---------------------------------------------------------------------
  // The pass
  // ---------------------------------------------------------------------

  /** The part of the ClusterOperator status the pass computes. */
  datatype CoState = CoState(conditions: seq<Condition>, versions: seq<OperandVersion>)

  /** What a pass looks at: the DNS conditions if there is a DNS object, the roll-out, the configured versions. */
  datatype View = View(dns: Option<seq<Condition>>, rollout: Rollout, target: Versions)

  function ReportedDns(v: View): seq<Condition> {
    if v.dns.Some? then v.dns.value else []
  }

  function Current(st: CoState, v: View): Versions {
    CurrentVersions(OldVersions(st.versions), v.target, v.rollout)
  }

  function Summary(v: View, upgrading: bool, messages: seq<Note>): seq<Condition> {
    [AvailableOf(v.dns), ProgressingOf(v.dns, upgrading, messages), DegradedOf(v.dns, upgrading)]
  }

  function NewConditions(cs: seq<Condition>, v: View, upgrading: bool, messages: seq<Note>, t1: int, t2: int)
    : seq<Condition>
  {
    Merged(Merged(cs, Summary(v, upgrading, messages), t1), [UpgradeableOf(ReportedDns(v))], t2)
  }

  predicate SameCoStatus(a: CoState, b: CoState) {
    SameConditions(a.conditions, b.conditions) && SameVersions(a.versions, b.versions)
  }

  class ClusterOperator {
    var status: CoState

    constructor (status: CoState)
      ensures this.status == status
    {
      this.status := status;
    }

    /**
     One pass over the fetched status. The merges edit the fetched conditions in
     place; the copy taken before them is what the result is compared with.
     */
    method Reconcile(v: View, t1: int, t2: int, write: ApiCalls.Outcome)
      returns (wrote: bool, messages: seq<Note>, versions: seq<OperandVersion>)
      modifies this
      ensures Enumerates(versions, Current(old(status), v))
      ensures var cur := Current(old(status), v);
              Produces(messages, cur, OldVersions(old(status).versions), v.target)
      ensures var cur := Current(old(status), v);
              var upgrading := UpgradePending(cur, v.target);
              var next := CoState(NewConditions(old(status).conditions, v, upgrading, messages, t1, t2), versions);
              && (wrote <==> !SameCoStatus(old(status), next))
              && status == (if wrote && ApiCalls.Effective(write) then next else old(status))
              && ((wrote ==> ApiCalls.Effective(write)) ==> SameCoStatus(next, status))
    {
      var oldVersions := ComputeOldVersions(status.versions);
      var cur := ComputeCurrentVersions(oldVersions, v.target, v.rollout);
      var upgrading;
      upgrading, messages := IsUpgrading(cur, oldVersions, v.target);
      var before, after := MergeSummary(status.conditions, v, upgrading, messages, t1, t2);
      versions := ComputeOperatorStatusVersions(cur);
      var next := CoState(after, versions);
      wrote := !SameCoStatus(CoState(before, status.versions), next);
      SameCoStatusReflexive(next);
      if !wrote {
        SameConditionsSymmetric(status.conditions, after);
        SameVersionsSymmetric(status.versions, versions);
      }
      if wrote && ApiCalls.Effective(write) {
        status := next;
      }
    }
  }

  /** Both merges, on an array; `before` is read from the deep copy only after they are done. */
  method MergeSummary(fetched: seq<Condition>, v: View, upgrading: bool, messages: seq<Note>, t1: int, t2: int)
    returns (before: seq<Condition>, after: seq<Condition>)
    ensures before == fetched
    ensures after == NewConditions(fetched, v, upgrading, messages, t1, t2)
  {
    var conditions := FromSeq(fetched);
    var oldConditions := DeepCopy(conditions);
    var progressing := ComputeOperatorProgressingCondition(v.dns, upgrading, messages);
    var degraded := ComputeOperatorDegradedCondition(v.dns, upgrading);
    var updates := FromSeq([AvailableOf(v.dns), progressing, degraded]);
    conditions := Merge(conditions, updates, t1);
    var more := FromSeq([UpgradeableOf(ReportedDns(v))]);
    conditions := Merge(conditions, more, t2);
    before, after := oldConditions[..], conditions[..];
  }

  method FromSeq(s: seq<Condition>) returns (r: array<Condition>)
    ensures fresh(r) && r[..] == s
  {
    r := new Condition[|s|](i requires 0 <= i < |s| => s[i]);
  }

  method DeepCopy(a: array<Condition>) returns (r: array<Condition>)
    ensures fresh(r) && r[..] == a[..]
  {
    r := FromSeq(a[..]);
  }

  // ---------------------------------------------------------------------
  // Quiescence
  // ---------------------------------------------------------------------

  lemma SummaryKinds(v: View, upgrading: bool, messages: seq<Note>, u: Condition)
    requires u in Summary(v, upgrading, messages)
    ensures DistinctKinds(Summary(v, upgrading, messages))
    ensures !Touches([UpgradeableOf(ReportedDns(v))], u.kind)
  {
    var us := Summary(v, upgrading, messages);
    assert us[0].kind == Available && us[1].kind == Progressing && us[2].kind == Degraded;
  }

  lemma SummaryIsReflected(
    cs: seq<Condition>, v: View, upgrading: bool, messages: seq<Note>, t1: int, t2: int, u: Condition)
    requires u in Summary(v, upgrading, messages) || u == UpgradeableOf(ReportedDns(v))
    ensures Reflects(NewConditions(cs, v, upgrading, messages, t1, t2), u)
  {
    var us, more := Summary(v, upgrading, messages), [UpgradeableOf(ReportedDns(v))];
    var mid := Merged(cs, us, t1);
    if u in us {
      SummaryKinds(v, upgrading, messages, u);
      MergeReflects(cs, us, t1, u);
      MergeKeepsReflected(mid, more, t2, u);
    } else {
      MergeReflects(mid, more, t2, u);
    }
  }

  lemma ReflectedIsKept(cs: seq<Condition>, v: View, upgrading: bool, messages: seq<Note>, t1: int, t2: int)
    requires forall u :: u in Summary(v, upgrading, messages) ==> Reflects(cs, u)
    requires Reflects(cs, UpgradeableOf(ReportedDns(v)))
    ensures NewConditions(cs, v, upgrading, messages, t1, t2) == cs
  {
    MergeOfReflected(cs, Summary(v, upgrading, messages), t1);
    MergeOfReflected(cs, [UpgradeableOf(ReportedDns(v))], t2);
  }

  /** Without an upgrade under way the messages of the version scan are not used. */
  lemma QuietSummary(v: View, m1: seq<Note>, m2: seq<Note>)
    ensures Summary(v, false, m1) == Summary(v, false, m2)
  {}

  lemma VersionsSettle(st: CoState, v: View, st1: CoState, list1: seq<OperandVersion>, list2: seq<OperandVersion>)
    requires Enumerates(list1, Current(st, v)) && SameVersions(list1, st1.versions)
    requires Enumerates(list2, Current(st1, v))
    ensures Current(st1, v) == Current(st, v) && SameVersions(st1.versions, list2)
  {
    SameVersionsSameMap(list1, st1.versions);
    VersionsRoundTrip(list1, Current(st, v));
    CurrentVersionsSettle(OldVersions(st.versions), v.target, v.rollout);
    ListingsCompareEqual(list2, list1, Current(st, v));
    SameVersionsTransitive(list2, list1, st1.versions);
    SameVersionsSymmetric(list2, st1.versions);
  }

  /** Conditions that compare equal to merged ones already say all that was merged. */
  lemma SettledReflects(
    cs: seq<Condition>, cs1: seq<Condition>, v: View, upgrading: bool, m: seq<Note>, t1: int, t2: int, u: Condition)
    requires SameConditions(NewConditions(cs, v, upgrading, m, t1, t2), cs1)
    requires u in Summary(v, upgrading, m) || u == UpgradeableOf(ReportedDns(v))
    ensures Reflects(cs1, u)
  {
    SummaryIsReflected(cs, v, upgrading, m, t1, t2, u);
    SameReflects(NewConditions(cs, v, upgrading, m, t1, t2), cs1, u);
  }

  /** So merging the same again changes nothing. */
  lemma ConditionsSettle(
    cs: seq<Condition>, cs1: seq<Condition>, v: View, upgrading: bool, m: seq<Note>, t1: int, t2: int, t3: int, t4: int)
    requires SameConditions(NewConditions(cs, v, upgrading, m, t1, t2), cs1)
    ensures NewConditions(cs1, v, upgrading, m, t3, t4) == cs1
  {
    forall u | u in Summary(v, upgrading, m) || u == UpgradeableOf(ReportedDns(v))
      ensures Reflects(cs1, u)
    {
      SettledReflects(cs, cs1, v, upgrading, m, t1, t2, u);
    }
    ReflectedIsKept(cs1, v, upgrading, m, t3, t4);
  }

  /**
   Quiescence: once a pass that is not upgrading has been written or did not have
   to be, an identical later pass writes nothing, whatever the iteration orders
   of its maps.
   */
  lemma CoQuiescence(st: CoState, v: View, st1: CoState,
                     m1: seq<Note>, list1: seq<OperandVersion>, t1: int, t2: int,
                     m2: seq<Note>, list2: seq<OperandVersion>, t3: int, t4: int)
    requires !UpgradePending(Current(st, v), v.target) && Enumerates(list1, Current(st, v))
    requires SameCoStatus(CoState(NewConditions(st.conditions, v, false, m1, t1, t2), list1), st1)
    requires Enumerates(list2, Current(st1, v))
    ensures !UpgradePending(Current(st1, v), v.target)
    ensures SameCoStatus(st1, CoState(NewConditions(st1.conditions, v, false, m2, t3, t4), list2))
  {
    VersionsSettle(st, v, st1, list1, list2);
    QuietSummary(v, m1, m2);
    ConditionsSettle(st.conditions, st1.conditions, v, false, m1, t1, t2, t3, t4);
  }

  lemma SameMessages(v: View, m1: seq<Note>, m2: seq<Note>, cs: seq<Condition>)
    requires Reflects(cs, ProgressingOf(v.dns, true, m1)) && Reflects(cs, ProgressingOf(v.dns, true, m2))
    ensures m1 == m2
  {
    var notes := ReportedProgressing(v.dns).2;
    assert notes + m1 == notes + m2;
    assert m1 == (notes + m1)[|notes|..] && m2 == (notes + m2)[|notes|..];
  }

  /**
   While upgrading, an identical later pass writes if and only if its messages differ from those persisted:
   because they come in another order, or because a version that was news then is not any more.
   */
  lemma UpgradingWritesIff(st: CoState, v: View, st1: CoState,
                           m1: seq<Note>, list1: seq<OperandVersion>, t1: int, t2: int,
                           m2: seq<Note>, list2: seq<OperandVersion>, t3: int, t4: int)
    requires UpgradePending(Current(st, v), v.target) && Enumerates(list1, Current(st, v))
    requires SameCoStatus(CoState(NewConditions(st.conditions, v, true, m1, t1, t2), list1), st1)
    requires Enumerates(list2, Current(st1, v))
    ensures UpgradePending(Current(st1, v), v.target)
    ensures SameCoStatus(st1, CoState(NewConditions(st1.conditions, v, true, m2, t3, t4), list2)) <==> m1 == m2
  {
    VersionsSettle(st, v, st1, list1, list2);
    if m1 == m2 {
      ConditionsSettle(st.conditions, st1.conditions, v, true, m1, t1, t2, t3, t4);
    }
    var next := NewConditions(st1.conditions, v, true, m2, t3, t4);
    if SameConditions(st1.conditions, next) {
      var p1, p2 := ProgressingOf(v.dns, true, m1), ProgressingOf(v.dns, true, m2);
      assert p1 == Summary(v, true, m1)[1] && p2 == Summary(v, true, m2)[1];
      SettledReflects(st.conditions, st1.conditions, v, true, m1, t1, t2, p1);
      SummaryIsReflected(st1.conditions, v, true, m2, t3, t4, p2);
      SameConditionsSymmetric(st1.conditions, next);
      SameReflects(next, st1.conditions, p2);
      SameMessages(v, m1, m2, st1.conditions);
    }
  }

  lemma SameConditionsSymmetric(a: seq<Condition>, b: seq<Condition>)
    requires SameConditions(a, b)
    ensures SameConditions(b, a)
  {
    assert forall c :: c in b + a ==> c in a + b;
  }

  // ---------------------------------------------------------------------
  // What the ClusterOperator says
  // ---------------------------------------------------------------------

  lemma {:induction false} FirstAtIndex(cs: seq<Condition>, k: Kind)
    ensures First(cs, k) == if IndexOf(cs, k) < |cs| then Some(cs[IndexOf(cs, k)]) else None
  {
    if cs != [] && cs[0].kind != k {
      FirstAtIndex(cs[1..], k);
    }
  }

  /** After a pass, the list says of one kind what was computed of it. */
  lemma PassShowsCondition(
    cs: seq<Condition>, cs1: seq<Condition>, v: View, upgrading: bool, m: seq<Note>, t1: int, t2: int, u: Condition)
    requires SameConditions(NewConditions(cs, v, upgrading, m, t1, t2), cs1)
    requires u in Summary(v, upgrading, m) || u == UpgradeableOf(ReportedDns(v))
    ensures First(cs1, u.kind).Some? && First(cs1, u.kind).value == u.(since := First(cs1, u.kind).value.since)
  {
    SettledReflects(cs, cs1, v, upgrading, m, t1, t2, u);
    FirstAtIndex(cs1, u.kind);
  }

  /** The status of the first condition of a kind. */
  function StatusIn(cs: seq<Condition>, k: Kind): Option<Status> {
    if First(cs, k).Some? then Some(First(cs, k).value.status) else None
  }

  function ReasonIn(cs: seq<Condition>, k: Kind): seq<Word> {
    if First(cs, k).Some? then First(cs, k).value.reason else []
  }

  /** `cs1` is what a pass over `st` leaves. */
  predicate Leaves(st: CoState, v: View, m: seq<Note>, t1: int, t2: int, cs1: seq<Condition>) {
    SameConditions(NewConditions(st.conditions, v, UpgradePending(Current(st, v), v.target), m, t1, t2), cs1)
  }

  /** Available exactly when there is a DNS that says so. */
  lemma SaysAvailable(st: CoState, v: View, m: seq<Note>, t1: int, t2: int, cs1: seq<Condition>)
    requires Leaves(st, v, m, t1, t2, cs1)
    ensures StatusIn(cs1, Available) == Some(True) <==>
            v.dns.Some? && exists c :: c in v.dns.value && c.kind.Available? && c.status.True?
    ensures StatusIn(cs1, Available) == Some(False) <==>
            v.dns.Some? ==> forall c :: c in v.dns.value && c.kind.Available? ==> !c.status.True?
    ensures ReasonIn(cs1, Available) ==
            if v.dns.None? then [DnsDoesNotExist]
            else if StatusIn(cs1, Available) == Some(True) then [AsExpected] else [DnsUnavailable]
  {
    ShowsAvailable(st, v, m, t1, t2, cs1);
  }

  lemma ShowsAvailable(st: CoState, v: View, m: seq<Note>, t1: int, t2: int, cs1: seq<Condition>)
    requires Leaves(st, v, m, t1, t2, cs1)
    ensures StatusIn(cs1, Available) == Some(AvailableOf(v.dns).status)
    ensures ReasonIn(cs1, Available) == AvailableOf(v.dns).reason
  {
    var upgrading := UpgradePending(Current(st, v), v.target);
    assert AvailableOf(v.dns).kind == Available && AvailableOf(v.dns) == Summary(v, upgrading, m)[0];
    PassShowsCondition(st.conditions, cs1, v, upgrading, m, t1, t2, AvailableOf(v.dns));
  }

  /** Some reported version is not the configured one. */
  predicate SomeVersionDiffers(st: CoState, v: View) {
    var cur := Current(st, v);
    exists n :: n in cur && n in v.target && cur[n] != v.target[n]
  }

  lemma PendingIsDiffers(st: CoState, v: View)
    ensures UpgradePending(Current(st, v), v.target) <==> SomeVersionDiffers(st, v)
  {
    var cur := Current(st, v);
    if n :| n in cur && n in v.target && cur[n] != v.target[n] {
      assert NextDue(cur, v.target, n);
    }
  }

  /** Degraded exactly when there is no DNS, or one that says so while no version is under way. */
  lemma SaysDegraded(st: CoState, v: View, m: seq<Note>, t1: int, t2: int, cs1: seq<Condition>)
    requires Leaves(st, v, m, t1, t2, cs1)
    ensures StatusIn(cs1, Degraded) == Some(True) <==>
            || v.dns.None?
            || (!SomeVersionDiffers(st, v) && exists c :: c in v.dns.value && c.kind.Degraded? && c.status.True?)
    ensures StatusIn(cs1, Degraded) in {Some(True), Some(False)}
    ensures ReasonIn(cs1, Degraded) ==
            if v.dns.None? then [DnsDoesNotExist]
            else if StatusIn(cs1, Degraded) == Some(True) then [DnsDegraded] else [DnsNotDegraded]
  {
    PendingIsDiffers(st, v);
    var upgrading := UpgradePending(Current(st, v), v.target);
    assert DegradedOf(v.dns, upgrading) == Summary(v, upgrading, m)[2];
    PassShowsCondition(st.conditions, cs1, v, upgrading, m, t1, t2, DegradedOf(v.dns, upgrading));
  }

  /** The first condition of the kind in the list has that status. */
  predicate FirstIs(cs: seq<Condition>, k: Kind, s: Status) {
    exists i :: 0 <= i < |cs| && cs[i].kind == k && cs[i].status == s && forall j :: 0 <= j < i ==> cs[j].kind != k
  }

  lemma FirstIsIff(cs: seq<Condition>, k: Kind, s: Status)
    ensures FirstIs(cs, k, s) <==> StatusIn(cs, k) == Some(s)
  {
    FirstAtIndex(cs, k);
    var i := IndexOf(cs, k);
    if i < |cs| && cs[i].status == s {
      assert FirstIs(cs, k, s);
    }
    if FirstIs(cs, k, s) {
      var j :| 0 <= j < |cs| && cs[j].kind == k && cs[j].status == s && forall l :: 0 <= l < j ==> cs[l].kind != k;
      assert j == i;
    }
  }

  lemma ProgressingOfSays(dns: Option<seq<Condition>>, upgrading: bool, m: seq<Note>)
    ensures var status := ProgressingOf(dns, upgrading, m).status;
            && (status.True? <==> dns.None? || upgrading || StatusIn(dns.value, Progressing) == Some(True))
            && (status.False? <==> dns.Some? && !upgrading && StatusIn(dns.value, Progressing) == Some(False))
  {}

  /**
   Progressing is True when there is no DNS, when a version is under way, or when the DNS says so first; it is False
   when no version is under way and the DNS says so first; and Unknown otherwise.
   */
  lemma SaysProgressing(st: CoState, v: View, m: seq<Note>, t1: int, t2: int, cs1: seq<Condition>)
    requires Leaves(st, v, m, t1, t2, cs1)
    ensures StatusIn(cs1, Progressing) == Some(True) <==>
            v.dns.None? || SomeVersionDiffers(st, v) || FirstIs(v.dns.value, Progressing, True)
    ensures StatusIn(cs1, Progressing) == Some(False) <==>
            v.dns.Some? && !SomeVersionDiffers(st, v) && FirstIs(v.dns.value, Progressing, False)
    ensures StatusIn(cs1, Progressing).Some?
  {
    PendingIsDiffers(st, v);
    var upgrading := UpgradePending(Current(st, v), v.target);
    ShowsProgressing(st, v, m, t1, t2, cs1);
    ProgressingOfSays(v.dns, upgrading, m);
    if v.dns.Some? {
      FirstIsIff(v.dns.value, Progressing, True);
      FirstIsIff(v.dns.value, Progressing, False);
    }
  }

  lemma ShowsProgressing(st: CoState, v: View, m: seq<Note>, t1: int, t2: int, cs1: seq<Condition>)
    requires Leaves(st, v, m, t1, t2, cs1)
    ensures StatusIn(cs1, Progressing) ==
            Some(ProgressingOf(v.dns, UpgradePending(Current(st, v), v.target), m).status)
  {
    var upgrading := UpgradePending(Current(st, v), v.target);
    var u := ProgressingOf(v.dns, upgrading, m);
    assert u.kind == Progressing && u == Summary(v, upgrading, m)[1];
    PassShowsCondition(st.conditions, cs1, v, upgrading, m, t1, t2, u);
  }

  /** The reasons for Progressing name exactly what holds. */
  lemma ProgressingReasons(st: CoState, v: View, m: seq<Note>, t1: int, t2: int, cs1: seq<Condition>)
    requires Leaves(st, v, m, t1, t2, cs1)
    ensures var r := ReasonIn(cs1, Progressing);
            && (DnsDoesNotExist in r <==> v.dns.None?)
            && (Word.Upgrading in r <==> SomeVersionDiffers(st, v))
            && (DnsReportsProgressingIsTrue in r <==> v.dns.Some? && FirstIs(v.dns.value, Progressing, True))
            && (DnsReportsProgressingIsUnknown in r <==> v.dns.Some? && FirstIs(v.dns.value, Progressing, Unknown))
            && (DnsDoesNotReportProgressing in r <==> v.dns.Some? && First(v.dns.value, Progressing).None?)
  {
    PendingIsDiffers(st, v);
    var upgrading := UpgradePending(Current(st, v), v.target);
    var u := ProgressingOf(v.dns, upgrading, m);
    assert u.kind == Progressing && u == Summary(v, upgrading, m)[1];
    PassShowsCondition(st.conditions, cs1, v, upgrading, m, t1, t2, u);
    ReasonsOfProgressing(v.dns, upgrading, m);
    if v.dns.Some? {
      FirstIsIff(v.dns.value, Progressing, True);
      FirstIsIff(v.dns.value, Progressing, Unknown);
    }
  }

  lemma ReasonsOfProgressing(dns: Option<seq<Condition>>, upgrading: bool, m: seq<Note>)
    ensures var r := ProgressingOf(dns, upgrading, m).reason;
            && (DnsDoesNotExist in r <==> dns.None?)
            && (Word.Upgrading in r <==> upgrading)
            && (DnsReportsProgressingIsTrue in r <==> dns.Some? && StatusIn(dns.value, Progressing) == Some(True))
            && (DnsReportsProgressingIsUnknown in r <==> dns.Some? && StatusIn(dns.value, Progressing) == Some(Unknown))
            && (DnsDoesNotReportProgressing in r <==> dns.Some? && First(dns.value, Progressing).None?)
  {}

  /** The index of the last condition of a kind, or -1. */
  function LastIndexOf(cs: seq<Condition>, k: Kind): (i: int)
    ensures -1 <= i < |cs| && (i >= 0 ==> cs[i].kind == k) && forall j :: i < j < |cs| ==> cs[j].kind != k
  {
    if cs == [] then -1
    else if cs[|cs| - 1].kind == k then |cs| - 1
    else LastIndexOf(cs[..|cs| - 1], k)
  }

  lemma {:induction false} LastAtIndex(cs: seq<Condition>, k: Kind)
    ensures Last(cs, k) == if LastIndexOf(cs, k) >= 0 then Some(cs[LastIndexOf(cs, k)]) else None
  {
    if cs != [] && cs[|cs| - 1].kind != k {
      LastAtIndex(cs[..|cs| - 1], k);
    }
  }

  /** The last condition of the kind in the list is there and has another status. */
  predicate LastIsNot(cs: seq<Condition>, k: Kind, s: Status) {
    exists i :: 0 <= i < |cs| && cs[i].kind == k && cs[i].status != s && forall j :: i < j < |cs| ==> cs[j].kind != k
  }

  lemma LastIsNotIff(cs: seq<Condition>, k: Kind, s: Status)
    ensures LastIsNot(cs, k, s) <==> Last(cs, k).Some? && Last(cs, k).value.status != s
  {
    LastAtIndex(cs, k);
    var i := LastIndexOf(cs, k);
    if LastIsNot(cs, k, s) {
      var j :| 0 <= j < |cs| && cs[j].kind == k && cs[j].status != s && forall l :: j < l < |cs| ==> cs[l].kind != k;
      assert j == i;
    }
  }

  /** Not upgradeable exactly when the DNS says so last; a missing DNS does not stand in the way. */
  lemma SaysUpgradeable(st: CoState, v: View, m: seq<Note>, t1: int, t2: int, cs1: seq<Condition>)
    requires Leaves(st, v, m, t1, t2, cs1)
    ensures StatusIn(cs1, Upgradeable) == Some(False) <==> v.dns.Some? && LastIsNot(v.dns.value, Upgradeable, True)
    ensures StatusIn(cs1, Upgradeable) in {Some(True), Some(False)}
    ensures ReasonIn(cs1, Upgradeable) ==
            if StatusIn(cs1, Upgradeable) == Some(True) then [DnsUpgradeable] else [DnsNotUpgradeable]
  {
    var upgrading := UpgradePending(Current(st, v), v.target);
    PassShowsCondition(st.conditions, cs1, v, upgrading, m, t1, t2, UpgradeableOf(ReportedDns(v)));
    LastIsNotIff(ReportedDns(v), Upgradeable, True);
  }

  /**
   End to end, when the DNS object has the conditions that its controller computed: the ClusterOperator is available
   iff the service has an address and the daemonset an available pod, upgradeable iff the operator is managed, and,
   with no version under way, progressing iff the DNS is.
   */
  lemma EndToEnd(
    olds: seq<Condition>, o: Observation, tolerance: int, clock: Clock,
    st: CoState, rollout: Rollout, target: Versions, m: seq<Note>, t1: int, t2: int, cs1: seq<Condition>)
    requires Leaves(
      st, View(Some(ComputeConditions(olds, o, tolerance, clock).Conditions()), rollout, target), m, t1, t2, cs1)
    ensures var v := View(Some(ComputeConditions(olds, o, tolerance, clock).Conditions()), rollout, target);
            var held := YoungFalse(olds, Progressing, clock.now, tolerance);
            && (StatusIn(cs1, Available) == Some(True) <==>
                  o.clusterIP != "" && o.dns.Some? && o.dns.value.available != 0)
            && (StatusIn(cs1, Upgradeable) == Some(True) <==> !o.unmanaged)
            && (StatusIn(cs1, Progressing) == Some(True) <==> SomeVersionDiffers(st, v) || (!RolledOut(o) && !held))
  {
    var c := ComputeConditions(olds, o, tolerance, clock);
    var dns := c.Conditions();
    var v := View(Some(dns), rollout, target);
    AvailableSays(olds, o, tolerance, clock);
    UpgradeableSays(olds, o, tolerance, clock);
    ProgressingSays(olds, o, tolerance, clock);
    SaysAvailable(st, v, m, t1, t2, cs1);
    SaysUpgradeable(st, v, m, t1, t2, cs1);
    SaysProgressing(st, v, m, t1, t2, cs1);
    FourStatuses(c);
  }

  lemma FourStatuses(c: Computed)
    requires c.progressing.kind.Progressing? && c.available.kind.Available? && c.upgradeable.kind.Upgradeable?
    requires c.degraded.kind.Degraded?
    ensures var cs := c.Conditions();
            && ((exists a :: a in cs && a.kind.Available? && a.status.True?) <==> c.available.status.True?)
            && (FirstIs(cs, Progressing, True) <==> c.progressing.status.True?)
            && (LastIsNot(cs, Upgradeable, True) <==> !c.upgradeable.status.True?)
  {
    var cs := c.Conditions();
    assert cs[0] == c.progressing && cs[1] == c.available && cs[2] == c.upgradeable && cs[3] == c.degraded;
    assert cs[1] in cs;
  }

  // ---------------------------------------------------------------------
  // When passes settle during an upgrade
  // ---------------------------------------------------------------------

  /** A version that has moved has moved to its target, so no name is reported both as reached and as pending. */
  lemma NeverBoth(prior: Versions, target: Versions, r: Rollout, n: Name)
    ensures var cur := CurrentVersions(prior, target, r); !(DoneDue(cur, prior, n) && NextDue(cur, target, n))
  {}

  /** The second look at the same roll-out starts from the versions it finds: nothing is news any more. */
  lemma NoNewsTwice(st: CoState, v: View, st1: CoState, list1: seq<OperandVersion>)
    requires Enumerates(list1, Current(st, v)) && SameVersions(list1, st1.versions)
    ensures OldVersions(st1.versions) == Current(st, v) && Current(st1, v) == Current(st, v)
  {
    SameVersionsSameMap(list1, st1.versions);
    VersionsRoundTrip(list1, Current(st, v));
    CurrentVersionsSettle(OldVersions(st.versions), v.target, v.rollout);
  }

  function Reversed(order: seq<Name>): (r: seq<Name>)
    ensures |r| == |order| && forall i :: 0 <= i < |r| ==> r[i] == order[|order| - 1 - i]
  {
    seq(|order|, i requires 0 <= i < |order| => order[|order| - 1 - i])
  }

  lemma ReversedGoesThrough(order: seq<Name>, names: set<Name>)
    requires GoesThrough(order, names)
    ensures GoesThrough(Reversed(order), names)
  {
    var r := Reversed(order);
    forall n
      ensures n in order <==> n in r
    {
      if n in order {
        var i :| 0 <= i < |order| && order[i] == n;
        assert r[|order| - 1 - i] == n;
      }
    }
  }

  lemma {:induction false} MessagesConcat(a: seq<Name>, b: seq<Name>, cur: Versions, prior: Versions, target: Versions)
    ensures MessagesIn(a + b, cur, prior, target)
         == MessagesIn(a, cur, prior, target) + MessagesIn(b, cur, prior, target)
  {
    if b == [] {
      assert a + b == a;
    } else {
      var k := |b| - 1;
      MessagesConcat(a, b[..k], cur, prior, target);
      MessagesStep(a + b[..k], b[k], cur, prior, target);
      assert a + b == a + b[..k] + [b[k]];
      var x, y := MessagesIn(a, cur, prior, target), MessagesIn(b[..k], cur, prior, target);
      StringSlices.Regroup(x, y, MessagesOf(cur, prior, target, b[k]));
    }
  }

  lemma MessagesOfOne(n: Name, cur: Versions, prior: Versions, target: Versions)
    ensures MessagesIn([n], cur, prior, target) == MessagesOf(cur, prior, target, n)
  {
    assert [n][..0] == [];
  }

  lemma BackwardsStep(order: seq<Name>, cur: Versions, target: Versions)
    requires order != []
    ensures var k := |order| - 1;
            MessagesIn(Reversed(order), cur, cur, target) ==
            MessagesOf(cur, cur, target, order[k]) + MessagesIn(Reversed(order[..k]), cur, cur, target)
  {
    var k := |order| - 1;
    assert Reversed(order) == [order[k]] + Reversed(order[..k]);
    MessagesConcat([order[k]], Reversed(order[..k]), cur, cur, target);
    MessagesOfOne(order[k], cur, cur, target);
  }

  /** The first message of a scan backwards is the last pending one of the scan forwards. */
  lemma {:induction false} Backwards(order: seq<Name>, cur: Versions, target: Versions)
    requires MessagesIn(order, cur, cur, target) != []
    ensures var ms, back := MessagesIn(order, cur, cur, target), MessagesIn(Reversed(order), cur, cur, target);
            back != [] && back[0] == ms[|ms| - 1]
  {
    var k := |order| - 1;
    BackwardsStep(order, cur, target);
    if NextDue(cur, target, order[k]) {
      assert MessagesOf(cur, cur, target, order[k]) == [Version(false, order[k], target[order[k]])];
    } else {
      assert MessagesOf(cur, cur, target, order[k]) == [];
      Backwards(order[..k], cur, target);
    }
  }

  predicate NoRepeats(ms: seq<Note>) {
    forall i, j :: 0 <= i < j < |ms| ==> ms[i] != ms[j]
  }

  lemma NoRepeatsConcat(a: seq<Note>, b: seq<Note>)
    requires NoRepeats(a) && NoRepeats(b) && forall m :: m in a ==> m !in b
    ensures NoRepeats(a + b)
  {
    var all := a + b;
    forall i, j | 0 <= i < j < |all|
      ensures all[i] != all[j]
    {
      if i < |a| <= j {
        assert all[i] in a && all[j] == b[j - |a|];
      }
    }
  }

  /** No message comes twice. */
  lemma {:induction false} MessagesDistinct(order: seq<Name>, cur: Versions, prior: Versions, target: Versions)
    requires forall i, j :: 0 <= i < j < |order| ==> order[i] != order[j]
    ensures NoRepeats(MessagesIn(order, cur, prior, target))
  {
    if order != [] {
      var k := |order| - 1;
      var front, last := MessagesIn(order[..k], cur, prior, target), MessagesOf(cur, prior, target, order[k]);
      MessagesDistinct(order[..k], cur, prior, target);
      forall m | m in front
        ensures m !in last
      {
        MessagesAreDue(order[..k], cur, prior, target, m);
        assert forall i :: 0 <= i < |last| ==> last[i].Version? && last[i].name == order[k];
      }
      NoRepeatsConcat(front, last);
    }
  }

  ghost predicate AllDueAre(cur: Versions, prior: Versions, target: Versions, only: Note) {
    forall m :: Due(cur, prior, target, m) ==> m == only
  }

  /** `n` is still on its way, and there is nothing else to report. */
  ghost predicate SingleNews(cur: Versions, prior: Versions, target: Versions, n: Name) {
    NextDue(cur, target, n) && AllDueAre(cur, prior, target, Version(false, n, target[n]))
  }

  /** Then there is a single order. */
  lemma SingleIsProduced(ms: seq<Note>, cur: Versions, prior: Versions, target: Versions, n: Name)
    requires Produces(ms, cur, prior, target) && SingleNews(cur, prior, target, n)
    ensures ms == [Version(false, n, target[n])]
  {
    var order :| GoesThrough(order, cur.Keys) && ms == MessagesIn(order, cur, prior, target);
    MessagesDistinct(order, cur, prior, target);
    var only := Version(false, n, target[n]);
    MessagesAreDue(order, cur, prior, target, only);
    forall m | m in ms
      ensures m == only
    {
      MessagesAreDue(order, cur, prior, target, m);
    }
    OnlyOne(ms, only);
  }

  lemma OnlyOne(ms: seq<Note>, only: Note)
    requires only in ms && NoRepeats(ms) && forall m :: m in ms ==> m == only
    ensures ms == [only]
  {
    assert forall i :: 0 <= i < |ms| ==> ms[i] in ms;
    FirstTwo(ms);
  }

  lemma FirstTwo(ms: seq<Note>)
    requires NoRepeats(ms)
    ensures |ms| > 1 ==> ms[0] != ms[1]
  {}

  lemma TwoMembers(ms: seq<Note>, x: Note, y: Note)
    requires x in ms && y in ms && x != y
    ensures |ms| >= 2
  {
    var i :| 0 <= i < |ms| && ms[i] == x;
    var j :| 0 <= j < |ms| && ms[j] == y;
  }

  lemma AtLeastTwo(order: seq<Name>, cur: Versions, prior: Versions, target: Versions)
    requires UpgradePending(cur, target) && GoesThrough(order, cur.Keys)
    requires forall n :: !SingleNews(cur, prior, target, n)
    ensures |MessagesIn(order, cur, prior, target)| >= 2
  {
    var n :| n in cur && NextDue(cur, target, n);
    var x := Version(false, n, target[n]);
    assert !SingleNews(cur, prior, target, n);
    var y :| Due(cur, prior, target, y) && y != x;
    MessagesAreDue(order, cur, prior, target, x);
    MessagesAreDue(order, cur, prior, target, y);
    TwoMembers(MessagesIn(order, cur, prior, target), x, y);
  }

  /**
   In every other case of an upgrade, a later look at the same versions can produce other messages: something
   reached is not news any more, or the pending versions come in the reverse order.
   */
  lemma OtherMessages(m1: seq<Note>, cur: Versions, prior: Versions, target: Versions) returns (m2: seq<Note>)
    requires UpgradePending(cur, target) && Produces(m1, cur, prior, target)
    requires forall n :: !SingleNews(cur, prior, target, n)
    ensures Produces(m2, cur, cur, target) && m2 != m1
  {
    var order :| GoesThrough(order, cur.Keys) && m1 == MessagesIn(order, cur, prior, target);
    m2 := MessagesIn(order, cur, cur, target);
    if m2 == m1 {
      AtLeastTwo(order, cur, prior, target);
      m2 := OtherOrder(order, cur, target);
    }
  }

  lemma OtherOrder(order: seq<Name>, cur: Versions, target: Versions) returns (m2: seq<Note>)
    requires GoesThrough(order, cur.Keys) && |MessagesIn(order, cur, cur, target)| >= 2
    ensures Produces(m2, cur, cur, target) && m2 != MessagesIn(order, cur, cur, target)
  {
    var ms := MessagesIn(order, cur, cur, target);
    m2 := MessagesIn(Reversed(order), cur, cur, target);
    ReversedGoesThrough(order, cur.Keys);
    Backwards(order, cur, target);
    MessagesDistinct(order, cur, cur, target);
    assert ms[0] != ms[|ms| - 1];
  }

  /** An identical later pass over `st1`, with the messages and the listing that its map iterations happen to give. */
  ghost predicate CanFollow(st1: CoState, v: View, m2: seq<Note>, list2: seq<OperandVersion>) {
    && Produces(m2, Current(st1, v), OldVersions(st1.versions), v.target)
    && Enumerates(list2, Current(st1, v))
  }

  predicate Quiet(st1: CoState, v: View, m2: seq<Note>, list2: seq<OperandVersion>, t3: int, t4: int) {
    SameCoStatus(st1, CoState(NewConditions(st1.conditions, v, true, m2, t3, t4), list2))
  }

  /** What one pass during an upgrade has left behind, whether it had to write or not. */
  ghost predicate LeftBehind(
    st: CoState, v: View, st1: CoState, m1: seq<Note>, list1: seq<OperandVersion>, t1: int, t2: int)
  {
    && UpgradePending(Current(st, v), v.target) && Enumerates(list1, Current(st, v))
    && Produces(m1, Current(st, v), OldVersions(st.versions), v.target)
    && SameCoStatus(CoState(NewConditions(st.conditions, v, true, m1, t1, t2), list1), st1)
  }

  lemma SingleNewsIsQuiet(
    st: CoState, v: View, st1: CoState, m1: seq<Note>, list1: seq<OperandVersion>, t1: int, t2: int,
    m2: seq<Note>, list2: seq<OperandVersion>, t3: int, t4: int, n: Name)
    requires LeftBehind(st, v, st1, m1, list1, t1, t2) && CanFollow(st1, v, m2, list2)
    requires SingleNews(Current(st, v), OldVersions(st.versions), v.target, n)
    ensures Quiet(st1, v, m2, list2, t3, t4)
  {
    var cur, prior := Current(st, v), OldVersions(st.versions);
    NoNewsTwice(st, v, st1, list1);
    SingleNewsAgain(cur, prior, v.target, n);
    SingleIsProduced(m1, cur, prior, v.target, n);
    SingleIsProduced(m2, cur, cur, v.target, n);
    UpgradingWritesIff(st, v, st1, m1, list1, t1, t2, m2, list2, t3, t4);
  }

  lemma OtherwiseItCanWrite(
    st: CoState, v: View, st1: CoState, m1: seq<Note>, list1: seq<OperandVersion>, t1: int, t2: int, t3: int, t4: int)
    returns (m2: seq<Note>)
    requires LeftBehind(st, v, st1, m1, list1, t1, t2)
    requires forall n :: !SingleNews(Current(st, v), OldVersions(st.versions), v.target, n)
    ensures CanFollow(st1, v, m2, list1) && !Quiet(st1, v, m2, list1, t3, t4)
  {
    NoNewsTwice(st, v, st1, list1);
    m2 := OtherMessages(m1, Current(st, v), OldVersions(st.versions), v.target);
    UpgradingWritesIff(st, v, st1, m1, list1, t1, t2, m2, list1, t3, t4);
  }

  /** No identical later pass writes, whatever its map iterations. */
  ghost predicate AlwaysQuiet(st1: CoState, v: View, t3: int, t4: int) {
    forall m2, list2 :: CanFollow(st1, v, m2, list2) ==> Quiet(st1, v, m2, list2, t3, t4)
  }

  /** A single version is pending and none has just been reached. */
  ghost predicate HasSingleNews(st: CoState, v: View) {
    exists n :: SingleNews(Current(st, v), OldVersions(st.versions), v.target, n)
  }

  lemma SingleNewsSettles(
    st: CoState, v: View, st1: CoState, m1: seq<Note>, list1: seq<OperandVersion>, t1: int, t2: int, t3: int, t4: int)
    requires LeftBehind(st, v, st1, m1, list1, t1, t2) && HasSingleNews(st, v)
    ensures AlwaysQuiet(st1, v, t3, t4)
  {
    var n :| SingleNews(Current(st, v), OldVersions(st.versions), v.target, n);
    forall m2, list2 | CanFollow(st1, v, m2, list2)
      ensures Quiet(st1, v, m2, list2, t3, t4)
    {
      SingleNewsIsQuiet(st, v, st1, m1, list1, t1, t2, m2, list2, t3, t4, n);
    }
  }

  lemma NotAlwaysQuiet(st1: CoState, v: View, m2: seq<Note>, list2: seq<OperandVersion>, t3: int, t4: int)
    requires CanFollow(st1, v, m2, list2) && !Quiet(st1, v, m2, list2, t3, t4)
    ensures !AlwaysQuiet(st1, v, t3, t4)
  {}

  /**
   During an upgrade, passes have settled if and only if the first of them found a single pending version and
   none that had just been reached.
   */
  lemma UpgradeSettlesIff(
    st: CoState, v: View, st1: CoState, m1: seq<Note>, list1: seq<OperandVersion>, t1: int, t2: int, t3: int, t4: int)
    requires LeftBehind(st, v, st1, m1, list1, t1, t2)
    ensures AlwaysQuiet(st1, v, t3, t4) <==> HasSingleNews(st, v)
  {
    if HasSingleNews(st, v) {
      SingleNewsSettles(st, v, st1, m1, list1, t1, t2, t3, t4);
    } else {
      var m2 := OtherwiseItCanWrite(st, v, st1, m1, list1, t1, t2, t3, t4);
      NotAlwaysQuiet(st1, v, m2, list1, t3, t4);
    }
  }

  /** In terms of what the first pass reported: one message. */
  lemma SingleNewsIffOneMessage(
    st: CoState, v: View, st1: CoState, m1: seq<Note>, list1: seq<OperandVersion>, t1: int, t2: int)
    requires LeftBehind(st, v, st1, m1, list1, t1, t2)
    ensures HasSingleNews(st, v) <==> |m1| == 1
  {
    var cur, prior := Current(st, v), OldVersions(st.versions);
    if HasSingleNews(st, v) {
      var n :| SingleNews(cur, prior, v.target, n);
      SingleIsProduced(m1, cur, prior, v.target, n);
    } else {
      var order :| GoesThrough(order, cur.Keys) && m1 == MessagesIn(order, cur, prior, v.target);
      AtLeastTwo(order, cur, prior, v.target);
    }
  }

  lemma SingleNewsAgain(cur: Versions, prior: Versions, target: Versions, n: Name)
    requires SingleNews(cur, prior, target, n)
    ensures SingleNews(cur, cur, target, n)
  {
    forall m | Due(cur, cur, target, m)
      ensures m == Version(false, n, target[n])
    {
      assert Due(cur, prior, target, m);
    }
  }

  lemma SameCoStatusReflexive(st: CoState)
    ensures SameCoStatus(st, st)
  {}

  /** Two pending versions are no single news. */
  lemma TwoPending(cur: Versions, prior: Versions, target: Versions, a: Name, b: Name, n: Name)
    requires a != b && NextDue(cur, target, a) && NextDue(cur, target, b)
    ensures !SingleNews(cur, prior, target, n)
  {
    assert Due(cur, prior, target, Version(false, a, target[a]));
    assert Due(cur, prior, target, Version(false, b, target[b]));
  }

  /** A ClusterOperator without versions while the first pods are still missing: everything is pending. */
  lemma FirstRollout(operator: string, image: string, cli: string, proxy: string)
    requires operator != "" && image != "" && cli != "" && proxy != ""
    ensures var target := NewVersions(operator, image, cli, proxy);
            var cur := CurrentVersions(OldVersions([]), target, Rollout(1, 1, [], []));
            NextDue(cur, target, Operator) && NextDue(cur, target, CoreDns)
  {}

  /** The versions of a map, listed in the given order. */
  function Listed(order: seq<Name>, cur: Versions): (r: seq<OperandVersion>)
    requires forall n :: n in order ==> n in cur
    ensures |r| == |order| && forall i :: 0 <= i < |r| ==> r[i] == OperandVersion(order[i], cur[order[i]])
  {
    seq(|order|, i requires 0 <= i < |order| => OperandVersion(order[i], cur[order[i]]))
  }

  lemma ListedEnumerates(order: seq<Name>, cur: Versions)
    requires GoesThrough(order, cur.Keys)
    ensures Enumerates(Listed(order, cur), cur)
  {
    var list := Listed(order, cur);
    forall n | n in cur
      ensures OperandVersion(n, cur[n]) in list
    {
      var i :| 0 <= i < |order| && order[i] == n;
      assert list[i] in list;
    }
  }

  lemma SomeOrder(cur: Versions) returns (order: seq<Name>)
    requires cur.Keys == {Operator, CoreDns, OpenshiftCli, KubeRbacProxy}
    ensures GoesThrough(order, cur.Keys)
  {
    order := [Operator, CoreDns, OpenshiftCli, KubeRbacProxy];
  }

  /** In that roll-out, whatever the conditions so far: a first pass, and an identical second one that writes again. */
  lemma FirstRolloutIsRewritten(
    dns: Option<seq<Condition>>, cs: seq<Condition>, operator: string, image: string, cli: string, proxy: string,
    t1: int, t2: int, t3: int, t4: int)
    returns (m1: seq<Note>, list: seq<OperandVersion>, m2: seq<Note>)
    requires operator != "" && image != "" && cli != "" && proxy != ""
    ensures var v := View(dns, Rollout(1, 1, [], []), NewVersions(operator, image, cli, proxy));
            var st1 := CoState(NewConditions(cs, v, true, m1, t1, t2), list);
            && LeftBehind(CoState(cs, []), v, st1, m1, list, t1, t2)
            && CanFollow(st1, v, m2, list) && !Quiet(st1, v, m2, list, t3, t4)
  {
    var st := CoState(cs, []);
    var v := View(dns, Rollout(1, 1, [], []), NewVersions(operator, image, cli, proxy));
    var order := SomeOrder(Current(st, v));
    list := Listed(order, Current(st, v));
    ListedEnumerates(order, Current(st, v));
    m1 := MessagesIn(order, Current(st, v), OldVersions(st.versions), v.target);
    var st1 := CoState(NewConditions(cs, v, true, m1, t1, t2), list);
    SameCoStatusReflexive(st1);
    FirstRollout(operator, image, cli, proxy);
    forall n
      ensures !SingleNews(Current(st, v), OldVersions(st.versions), v.target, n)
    {
      TwoPending(Current(st, v), OldVersions(st.versions), v.target, Operator, CoreDns, n);
    }
    m2 := OtherwiseItCanWrite(st, v, st1, m1, list, t1, t2, t3, t4);
  }
}

/**
 Status conditions as both the DNS object and the ClusterOperator carry them
 (pkg/util/conditions/conditions.go). Message text is kept as a list of notes.
 */
module Conditions {
  import opened Wrappers
  import opened Kube
  import opened StringSlices
  import OperandVersions

  datatype Status = True | False | Unknown

  datatype Kind = Degraded | Progressing | Available | Upgradeable | Other(name: string)

  /** The words that reasons are joined from; `Text` is for conditions somebody else wrote. */
  datatype Word =
    | AsExpected | Reconciling | DegradedConditions | OperatorUnmanaged
    | NoService | NoDaemonSet | NoDaemonSetPods | NoDaemonSetPodsDesired | NoNodeResolverDaemonSet
    | DnsDoesNotExist | DnsUnavailable | DnsDegraded | DnsNotDegraded | DnsUpgradeable | DnsNotUpgradeable
    | DnsReportsProgressingIsTrue | DnsReportsProgressingIsUnknown | DnsDoesNotReportProgressing | Upgrading
    | Text(text: string)

  /** One sentence of a condition message, by what it depends on. */
  datatype Note =
    | Fixed(word: Word)
    | UpToDate(operand: string, have: int, want: int)
    | SelectorDiffers(haveSelector: Labels, wantSelector: Labels)
    | TolerationsDiffer(haveTolerations: seq<Toleration>, wantTolerations: seq<Toleration>, addresses: int)
    | TooManyUnavailable(unavailable: int, maxUnavailable: int)
    | Version(done: bool, name: OperandVersions.Name, version: string)
    | Quoted(reported: seq<Note>)

  datatype Condition = Condition(kind: Kind, status: Status, reason: seq<Word>, message: seq<Note>, since: int)

  /** The conditions of one kind, in list order. */
  function OfKind(cs: seq<Condition>, k: Kind): seq<Condition> {
    if cs == [] then []
    else (if cs[0].kind == k then [cs[0]] else []) + OfKind(cs[1..], k)
  }

  /** The last condition of a kind, which is the one the DNS controller treats as the old one. */
  function Last(cs: seq<Condition>, k: Kind): (r: Option<Condition>)
    ensures r.Some? ==> r.value in cs && r.value.kind == k
  {
    if cs == [] then None
    else if cs[|cs| - 1].kind == k then Some(cs[|cs| - 1])
    else Last(cs[..|cs| - 1], k)
  }

  /**
   Equality after a stable sort by kind: the lists agree exactly when, kind by
   kind, they hold the same conditions in the same order.
   */
  predicate SameConditions(a: seq<Condition>, b: seq<Condition>) {
    forall c :: c in a + b ==> OfKind(a, c.kind) == OfKind(b, c.kind)
  }

  predicate DistinctKinds(cs: seq<Condition>) {
    forall i, j :: 0 <= i < j < |cs| ==> cs[i].kind != cs[j].kind
  }

  lemma {:induction false} LastOfEqual(a: seq<Condition>, b: seq<Condition>, k: Kind)
    requires SameConditions(a, b)
    ensures Last(a, k) == Last(b, k)
  {
    LastOfKind(a, k);
    LastOfKind(b, k);
    assert forall c :: c in a || c in b ==> c in a + b;
  }

  lemma {:induction false} LastOfKind(cs: seq<Condition>, k: Kind)
    ensures Last(cs, k) == var own := OfKind(cs, k); if own == [] then None else Some(own[|own| - 1])
  {
    if cs != [] {
      var front, last := cs[..|cs| - 1], cs[|cs| - 1];
      LastOfKind(front, k);
      OfKindSnoc(front, last, k);
      assert cs == front + [last];
    }
  }

  lemma {:induction false} OfKindSnoc(cs: seq<Condition>, c: Condition, k: Kind)
    ensures OfKind(cs + [c], k) == OfKind(cs, k) + if c.kind == k then [c] else []
  {
    if cs == [] {
      assert cs + [c] == [c];
      assert OfKind([c][1..], k) == [];
    } else {
      OfKindSnoc(cs[1..], c, k);
      assert (cs + [c])[1..] == cs[1..] + [c];
      Regroup(if cs[0].kind == k then [cs[0]] else [], OfKind(cs[1..], k), if c.kind == k then [c] else []);
    }
  }
}

/** The Kubernetes placement vocabulary shared by the daemonset and status code. */
module Kube {
  import opened Wrappers

  /** Labels, annotations and node selectors. */
  type Labels = map<string, string>

  datatype Taint = Taint(key: string, value: string, effect: string)

  datatype Toleration = Toleration(key: string, operator: string, value: string, effect: string, seconds: Option<int>)

  /** Matching of one toleration against one taint; numeric comparison operators are switched off by the caller. */
  predicate Tolerates(t: Toleration, taint: Taint) {
    && (t.effect == "" || t.effect == taint.effect)
    && (t.key == "" || t.key == taint.key)
    && (t.operator == "Exists" || ((t.operator == "" || t.operator == "Equal") && t.value == taint.value))
  }

  datatype Node = Node(labels: Labels, unschedulable: bool, taints: seq<Taint>)

  predicate MatchesSelector(labels: Labels, selector: Labels) {
    forall k :: k in selector ==> k in labels && labels[k] == selector[k]
  }

  /** Without a key and an effect, Exists tolerates everything. */
  lemma BlanketToleration(value: string, seconds: Option<int>, taint: Taint)
    ensures Tolerates(Toleration("", "Exists", value, "", seconds), taint)
  {}

  /** With a key, Exists tolerates that key whatever its value, under the given effect or any. */
  lemma KeyToleration(key: string, value: string, effect: string, seconds: Option<int>, taint: Taint)
    requires key != ""
    ensures Tolerates(Toleration(key, "Exists", value, effect, seconds), taint) <==>
            taint.key == key && effect in {"", taint.effect}
  {}

  /** Equal, which is the default, also asks for the value. */
  lemma ValueToleration(
    key: string, operator: string, value: string, effect: string, seconds: Option<int>, taint: Taint)
    requires key != "" && effect != "" && operator in {"", "Equal"}
    ensures Tolerates(Toleration(key, operator, value, effect, seconds), taint) <==> taint == Taint(key, value, effect)
  {
    assert "Exists" != "" && |"Exists"| != |"Equal"|;
  }

  /** Any other operator tolerates nothing. */
  lemma UnknownOperator(t: Toleration, taint: Taint)
    requires t.operator !in {"", "Equal", "Exists"}
    ensures !Tolerates(t, taint)
  {}
}

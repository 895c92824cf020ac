/**
 The in-place merge of computed conditions into the reported ones
 (pkg/operator/controller/status/controller.go).
 */
module MergeConditions {
  import opened Conditions

  /** The index of the first condition of a kind, or the length of the list. */
  function IndexOf(cs: seq<Condition>, k: Kind): (i: nat)
    ensures i <= |cs|
    ensures i < |cs| ==> cs[i].kind == k
    ensures forall j :: 0 <= j < i ==> cs[j].kind != k
  {
    if cs == [] || cs[0].kind == k then 0 else 1 + IndexOf(cs[1..], k)
  }

  function Applied(c: Condition, u: Condition, now: int): Condition {
    var since := if c.status != u.status then now else c.since;
    c.(status := u.status, reason := u.reason, message := u.message, since := since)
  }

  function ApplyOne(cs: seq<Condition>, u: Condition, now: int): seq<Condition> {
    var i := IndexOf(cs, u.kind);
    if i < |cs| then cs[i := Applied(cs[i], u, now)] else cs
  }

  /** The updates of conditions that are already there. */
  function InPlace(cs: seq<Condition>, us: seq<Condition>, now: int): (r: seq<Condition>)
    ensures |r| == |cs| && forall i :: 0 <= i < |cs| ==> r[i].kind == cs[i].kind
  {
    if us == [] then cs else ApplyOne(InPlace(cs, us[..|us| - 1], now), us[|us| - 1], now)
  }

  /** The updates of kinds that are not there yet. */
  function Additions(cs: seq<Condition>, us: seq<Condition>, now: int): seq<Condition> {
    if us == [] then []
    else
      var u := us[|us| - 1];
      Additions(cs, us[..|us| - 1], now) + if IndexOf(cs, u.kind) < |cs| then [] else [u.(since := now)]
  }

  function Merged(cs: seq<Condition>, us: seq<Condition>, now: int): seq<Condition> {
    InPlace(cs, us, now) + Additions(cs, us, now)
  }

  lemma IndexByKinds(a: seq<Condition>, b: seq<Condition>, k: Kind)
    requires |a| == |b| && forall i :: 0 <= i < |a| ==> a[i].kind == b[i].kind
    ensures IndexOf(a, k) == IndexOf(b, k)
  {}

  /** Edits the first condition of the kind in place; reports when there is none. */
  method MergeInto(conditions: array<Condition>, u: Condition, now: int) returns (add: bool)
    modifies conditions
    ensures conditions[..] == ApplyOne(old(conditions[..]), u, now)
    ensures add <==> IndexOf(old(conditions[..]), u.kind) == conditions.Length
  {
    ghost var before := conditions[..];
    for j := 0 to conditions.Length
      invariant conditions[..] == before
      invariant IndexOf(before, u.kind) >= j
    {
      if conditions[j].kind == u.kind {
        assert before[j].kind == u.kind;
        conditions[j] := Applied(conditions[j], u, now);
        return false;
      }
    }
    return true;
  }

  lemma MergeStep(cs: seq<Condition>, us: seq<Condition>, now: int, i: nat)
    requires i < |us|
    ensures InPlace(cs, us[..i + 1], now) == ApplyOne(InPlace(cs, us[..i], now), us[i], now)
    ensures Additions(cs, us[..i + 1], now)
         == Additions(cs, us[..i], now) + if IndexOf(cs, us[i].kind) < |cs| then [] else [us[i].(since := now)]
    ensures IndexOf(InPlace(cs, us[..i], now), us[i].kind) == IndexOf(cs, us[i].kind)
  {
    assert us[..i + 1][..i] == us[..i];
    IndexByKinds(InPlace(cs, us[..i], now), cs, us[i].kind);
  }

  method Merge(conditions: array<Condition>, updates: array<Condition>, now: int) returns (r: array<Condition>)
    requires conditions != updates
    modifies conditions, updates
    ensures conditions[..] == InPlace(old(conditions[..]), old(updates[..]), now)
    ensures r[..] == Merged(old(conditions[..]), old(updates[..]), now)
    ensures r == conditions || fresh(r)
  {
    ghost var cs, us := conditions[..], updates[..];
    var additions := [];
    for i := 0 to updates.Length
      invariant forall k :: i <= k < updates.Length ==> updates[k] == us[k]
      invariant conditions[..] == InPlace(cs, us[..i], now)
      invariant additions == Additions(cs, us[..i], now)
    {
      MergeStep(cs, us, now, i);
      var add := MergeInto(conditions, updates[i], now);
      if add {
        updates[i] := updates[i].(since := now);
        additions := additions + [updates[i]];
      }
    }
    assert us[..|us|] == us;
    r := Append(conditions, additions);
  }

  method Append(a: array<Condition>, more: seq<Condition>) returns (r: array<Condition>)
    ensures r[..] == a[..] + more
    ensures r == a || fresh(r)
  {
    if more == [] {
      return a;
    }
    var all := a[..] + more;
    r := new Condition[|all|](k requires 0 <= k < |all| => all[k]);
    assert r[..] == all;
  }

  // ---------------------------------------------------------------------
  // What the merge keeps
  // ---------------------------------------------------------------------

  predicate Touches(us: seq<Condition>, k: Kind) {
    exists u :: u in us && u.kind == k
  }

  lemma {:induction false} InPlaceUntouched(cs: seq<Condition>, us: seq<Condition>, now: int, i: nat)
    requires i < |cs| && !Touches(us, cs[i].kind)
    ensures InPlace(cs, us, now)[i] == cs[i]
  {
    if us != [] {
      var front, last := us[..|us| - 1], us[|us| - 1];
      assert last in us && forall u :: u in front ==> u in us;
      InPlaceUntouched(cs, front, now, i);
    }
  }

  /** A condition that was there takes the update of its kind if it is the first of that kind. */
  lemma {:induction false} InPlaceTouched(cs: seq<Condition>, us: seq<Condition>, now: int, i: nat, u: Condition)
    requires DistinctKinds(us) && i < |cs| && u in us && u.kind == cs[i].kind
    ensures InPlace(cs, us, now)[i] == if IndexOf(cs, u.kind) == i then Applied(cs[i], u, now) else cs[i]
  {
    var front, last := us[..|us| - 1], us[|us| - 1];
    IndexByKinds(InPlace(cs, front, now), cs, last.kind);
    if u == last {
      assert !Touches(front, u.kind);
      InPlaceUntouched(cs, front, now, i);
    } else {
      InPlaceTouched(cs, front, now, i, u);
    }
  }

  /** What is added are the updates of kinds that were not there, stamped. */
  lemma {:induction false} AdditionsAre(cs: seq<Condition>, us: seq<Condition>, now: int)
    ensures forall a :: a in Additions(cs, us, now) ==> IndexOf(cs, a.kind) == |cs| && Touches(us, a.kind)
  {
    if us != [] {
      var front, last := us[..|us| - 1], us[|us| - 1];
      AdditionsAre(cs, front, now);
      assert last in us;
      forall a | a in Additions(cs, front, now)
        ensures Touches(us, a.kind)
      {
        var u :| u in front && u.kind == a.kind;
        assert u in us;
      }
    }
  }

  lemma {:induction false} AddedAt(cs: seq<Condition>, us: seq<Condition>, now: int, u: Condition) returns (k: nat)
    requires u in us && IndexOf(cs, u.kind) == |cs|
    ensures k < |Additions(cs, us, now)| && Additions(cs, us, now)[k] == u.(since := now)
  {
    var front, last := us[..|us| - 1], us[|us| - 1];
    if u in front {
      k := AddedAt(cs, front, now, u);
    } else {
      k := |Additions(cs, front, now)|;
    }
  }

  /** Each is added once. */
  lemma {:induction false} AdditionsDistinct(cs: seq<Condition>, us: seq<Condition>, now: int)
    requires DistinctKinds(us)
    ensures DistinctKinds(Additions(cs, us, now))
  {
    if us != [] {
      var front, last := us[..|us| - 1], us[|us| - 1];
      AdditionsDistinct(cs, front, now);
      AdditionsAre(cs, front, now);
      var rest := Additions(cs, front, now);
      forall k | 0 <= k < |rest|
        ensures rest[k].kind != last.kind
      {
        assert rest[k] in rest;
        var u :| u in front && u.kind == rest[k].kind;
      }
    }
  }

  /** A merge keeps order, unrelated conditions, and every transition time whose status it does not change. */
  lemma MergeKeepsTheRest(cs: seq<Condition>, us: seq<Condition>, now: int, i: nat)
    requires DistinctKinds(us) && i < |cs|
    ensures var m := Merged(cs, us, now);
            && |m| >= |cs| && m[i].kind == cs[i].kind
            && (!Touches(us, cs[i].kind) ==> m[i] == cs[i])
            && m[i].since == if m[i].status == cs[i].status then cs[i].since else now
  {
    if Touches(us, cs[i].kind) {
      var u :| u in us && u.kind == cs[i].kind;
      InPlaceTouched(cs, us, now, i, u);
    } else {
      InPlaceUntouched(cs, us, now, i);
    }
  }

  lemma MergeKeepsKindsDistinct(cs: seq<Condition>, us: seq<Condition>, now: int)
    requires DistinctKinds(us) && DistinctKinds(cs)
    ensures DistinctKinds(Merged(cs, us, now))
  {
    AdditionsAre(cs, us, now);
    AdditionsDistinct(cs, us, now);
    var m, n := Merged(cs, us, now), |cs|;
    forall i, j | 0 <= i < j < |m|
      ensures m[i].kind != m[j].kind
    {
      if i < n && n <= j {
        assert m[j] == Additions(cs, us, now)[j - n];
        assert m[i].kind == cs[i].kind;
      }
    }
  }

  /** The list already says what the update says. */
  predicate Reflects(cs: seq<Condition>, u: Condition) {
    var i := IndexOf(cs, u.kind);
    i < |cs| && cs[i] == u.(since := cs[i].since)
  }

  lemma {:induction false} MergeOfReflected(cs: seq<Condition>, us: seq<Condition>, now: int)
    requires forall u :: u in us ==> Reflects(cs, u)
    ensures Merged(cs, us, now) == cs
  {
    if us != [] {
      var front, last := us[..|us| - 1], us[|us| - 1];
      assert us == front + [last];
      MergeOfReflected(cs, front, now);
      assert InPlace(cs, front, now) == cs && Additions(cs, front, now) == [] by {
        assert |InPlace(cs, front, now)| == |cs|;
        assert Merged(cs, front, now)[..|cs|] == InPlace(cs, front, now);
      }
      assert Reflects(cs, last);
    }
  }

  lemma IndexInMerged(cs: seq<Condition>, us: seq<Condition>, now: int, k: Kind)
    ensures var i := IndexOf(cs, k);
            i < |cs| ==> IndexOf(Merged(cs, us, now), k) == i
  {
    var m := Merged(cs, us, now);
    var i := IndexOf(cs, k);
    if i < |cs| {
      assert m[i].kind == k;
      assert forall j :: 0 <= j < i ==> m[j].kind == cs[j].kind;
    }
  }

  /** After the merge every update is reflected. */
  lemma MergeReflects(cs: seq<Condition>, us: seq<Condition>, now: int, u: Condition)
    requires DistinctKinds(us) && u in us
    ensures Reflects(Merged(cs, us, now), u)
  {
    var m, i := Merged(cs, us, now), IndexOf(cs, u.kind);
    if i < |cs| {
      InPlaceTouched(cs, us, now, i, u);
      IndexInMerged(cs, us, now, u.kind);
    } else {
      AddedIsReflected(cs, us, now, u);
    }
  }

  lemma AddedIsReflected(cs: seq<Condition>, us: seq<Condition>, now: int, u: Condition)
    requires DistinctKinds(us) && u in us && IndexOf(cs, u.kind) == |cs|
    ensures Reflects(Merged(cs, us, now), u)
  {
    AdditionsDistinct(cs, us, now);
    var kept, added := InPlace(cs, us, now), Additions(cs, us, now);
    IndexByKinds(kept, cs, u.kind);
    var k := AddedAt(cs, us, now, u);
    IndexInSecond(kept, added, k);
  }

  lemma IndexInSecond(a: seq<Condition>, b: seq<Condition>, k: nat)
    requires k < |b| && DistinctKinds(b) && IndexOf(a, b[k].kind) == |a|
    ensures IndexOf(a + b, b[k].kind) == |a| + k
  {
    var i := IndexOf(a + b, b[k].kind);
    assert (a + b)[|a| + k] == b[k];
    assert i >= |a|;
    assert (a + b)[i] == b[i - |a|];
  }

  /** A later merge of other kinds does not disturb what is reflected. */
  lemma MergeKeepsReflected(cs: seq<Condition>, us: seq<Condition>, now: int, u: Condition)
    requires DistinctKinds(us) && Reflects(cs, u) && !Touches(us, u.kind)
    ensures Reflects(Merged(cs, us, now), u)
  {
    IndexInMerged(cs, us, now, u.kind);
    MergeKeepsTheRest(cs, us, now, IndexOf(cs, u.kind));
  }

  lemma {:induction false} FirstOfKind(cs: seq<Condition>, k: Kind)
    ensures var i := IndexOf(cs, k);
            if i < |cs| then OfKind(cs, k) != [] && OfKind(cs, k)[0] == cs[i] else OfKind(cs, k) == []
  {
    if cs != [] {
      FirstOfKind(cs[1..], k);
    }
  }

  /** Lists that compare equal reflect the same updates. */
  lemma SameReflects(a: seq<Condition>, b: seq<Condition>, u: Condition)
    requires SameConditions(a, b) && Reflects(a, u)
    ensures Reflects(b, u)
  {
    FirstOfKind(a, u.kind);
    FirstOfKind(b, u.kind);
    assert a[IndexOf(a, u.kind)] in a + b;
  }
}

/**
 Errors that ask to be retried, and their aggregation
 (pkg/util/retryableerror/retryableerror.go).
 */
module RetryableErrors {
  import opened StringSlices
  import opened Wrappers

  datatype Error =
    | Plain(text: string)
    | Retryable(cause: Error, after: int)
    | Aggregate(errors: seq<Error>)

  function NonNil(errs: seq<Option<Error>>): (r: seq<Error>)
    ensures forall e :: e in r <==> Some(e) in errs
  {
    if errs == [] then []
    else (if errs[0].None? then [] else [errs[0].value]) + NonNil(errs[1..])
  }

  function Min(a: int, b: int): int {
    if a < b then a else b
  }

  predicate AllRetryable(es: seq<Error>) {
    forall e :: e in es ==> e.Retryable?
  }

  function MinAfter(es: seq<Error>): int
    requires es != [] && AllRetryable(es)
  {
    if |es| == 1 then es[0].after
    else Min(MinAfter(es[..|es| - 1]), es[|es| - 1].after)
  }

  /** What the aggregation of a list of possibly-nil errors is meant to be. */
  function Combined(errs: seq<Option<Error>>): Option<Error> {
    var es := NonNil(errs);
    if es == [] then None
    else if AllRetryable(es) then Some(Retryable(Aggregate(es), MinAfter(es)))
    else Some(Aggregate(es))
  }

  lemma {:induction false} NonNilSnoc(errs: seq<Option<Error>>, e: Option<Error>)
    ensures NonNil(errs + [e]) == NonNil(errs) + if e.None? then [] else [e.value]
  {
    if errs == [] {
      assert errs + [e] == [e] && [e][1..] == [];
    } else {
      NonNilSnoc(errs[1..], e);
      assert (errs + [e])[1..] == errs[1..] + [e];
      Regroup(if errs[0].None? then [] else [errs[0].value], NonNil(errs[1..]), if e.None? then [] else [e.value]);
    }
  }

  method NewAggregate(errlist: seq<Option<Error>>) returns (errs: seq<Error>)
    ensures errs == NonNil(errlist)
  {
    errs := [];
    for i := 0 to |errlist|
      invariant errs == NonNil(errlist[..i])
    {
      NonNilSnoc(errlist[..i], errlist[i]);
      assert errlist[..i + 1] == errlist[..i] + [errlist[i]];
      if errlist[i].Some? {
        errs := errs + [errlist[i].value];
      }
    }
    assert errlist[..|errlist|] == errlist;
  }

  method NewMaybeRetryableAggregate(errlist: seq<Option<Error>>) returns (r: Option<Error>)
    ensures r == Combined(errlist)
  {
    var errs := NewAggregate(errlist);
    if errs == [] {
      return None;
    }
    var afterHasInitialValue, after := false, 0;
    for i := 0 to |errs|
      invariant AllRetryable(errs[..i])
      invariant afterHasInitialValue <==> i > 0
      invariant i > 0 ==> after == MinAfter(errs[..i])
    {
      assert errs[..i + 1] == errs[..i] + [errs[i]];
      assert errs[..i + 1][..i] == errs[..i];
      if errs[i].Retryable? {
        if !afterHasInitialValue || errs[i].after < after {
          after := errs[i].after;
        }
        afterHasInitialValue := true;
      } else {
        assert errs[i] in errs;
        return Some(Aggregate(errs));
      }
    }
    assert errs[..|errs|] == errs;
    return Some(Retryable(Aggregate(errs), after));
  }

  // ---------------------------------------------------------------------
  // What a caller can tell from an error, as a monoid
  // ---------------------------------------------------------------------

  datatype Verdict = Clean | Retry(after: int) | Broken

  function VerdictOf(e: Option<Error>): Verdict {
    match e
    case None => Clean
    case Some(Retryable(_, after)) => Retry(after)
    case Some(_) => Broken
  }

  function Join(a: Verdict, b: Verdict): Verdict {
    match (a, b)
    case (Clean, _) => b
    case (_, Clean) => a
    case (Retry(x), Retry(y)) => Retry(Min(x, y))
    case _ => Broken
  }

  function JoinAll(errs: seq<Option<Error>>): Verdict {
    if errs == [] then Clean else Join(VerdictOf(errs[0]), JoinAll(errs[1..]))
  }

  lemma JoinAssociative(x: Verdict, y: Verdict, z: Verdict)
    ensures Join(Join(x, y), z) == Join(x, Join(y, z))
  {}

  lemma {:induction false} JoinAllDistributes(a: seq<Option<Error>>, b: seq<Option<Error>>)
    ensures JoinAll(a + b) == Join(JoinAll(a), JoinAll(b))
  {
    if a == [] {
      assert a + b == b;
    } else {
      JoinAllDistributes(a[1..], b);
      assert (a + b)[0] == a[0] && (a + b)[1..] == a[1..] + b;
      JoinAssociative(VerdictOf(a[0]), JoinAll(a[1..]), JoinAll(b));
    }
  }

  predicate IsLeastAfter(errs: seq<Option<Error>>, m: int) {
    && (exists e :: e in errs && e.Some? && e.value.Retryable? && e.value.after == m)
    && (forall e :: e in errs && e.Some? && e.value.Retryable? ==> m <= e.value.after)
  }

  /** The monoid says exactly what the documentation of the aggregate promises. */
  lemma {:induction false} JoinAllMeaning(errs: seq<Option<Error>>)
    ensures JoinAll(errs).Clean? <==> forall e :: e in errs ==> e.None?
    ensures JoinAll(errs).Broken? <==> exists e :: e in errs && e.Some? && !e.value.Retryable?
    ensures JoinAll(errs).Retry? ==> IsLeastAfter(errs, JoinAll(errs).after)
  {
    if errs != [] {
      JoinAllMeaning(errs[1..]);
      assert errs == [errs[0]] + errs[1..];
      var rest := JoinAll(errs[1..]);
      if JoinAll(errs).Retry? && rest.Retry? {
        var e :| e in errs[1..] && e.Some? && e.value.Retryable? && e.value.after == rest.after;
        assert e in errs && errs[0] in errs;
      } else if JoinAll(errs).Retry? {
        assert errs[0] in errs;
      }
    }
  }

  lemma {:induction false} MinAfterIsLeast(es: seq<Error>)
    requires es != [] && AllRetryable(es)
    ensures exists e :: e in es && e.after == MinAfter(es)
    ensures forall e :: e in es ==> MinAfter(es) <= e.after
  {
    if |es| == 1 {
      assert es[0] in es;
    } else {
      var front, last := es[..|es| - 1], es[|es| - 1];
      MinAfterIsLeast(front);
      assert es == front + [last];
      assert last in es;
    }
  }

  /** A list with the least delay of some retryable error and no other errors has that verdict. */
  lemma RetryVerdict(errs: seq<Option<Error>>)
    requires NonNil(errs) != [] && AllRetryable(NonNil(errs))
    ensures JoinAll(errs) == Retry(MinAfter(NonNil(errs)))
  {
    JoinAllMeaning(errs);
    var es := NonNil(errs);
    MinAfterIsLeast(es);
    var e :| e in es && e.after == MinAfter(es);
    assert Some(e) in errs;
    var f :| f in errs && f.Some? && f.value.Retryable? && f.value.after == JoinAll(errs).after;
    assert f.value in es;
  }

  lemma CombinedVerdict(errs: seq<Option<Error>>)
    ensures VerdictOf(Combined(errs)) == JoinAll(errs)
  {
    var es := NonNil(errs);
    if es == [] {
      JoinAllMeaning(errs);
    } else if AllRetryable(es) {
      RetryVerdict(errs);
    } else {
      JoinAllMeaning(errs);
      var e :| e in es && !e.Retryable?;
      assert Some(e) in errs;
    }
  }

  // ---------------------------------------------------------------------
  // Nested aggregation
  // ---------------------------------------------------------------------

  /** Call sites nest: the result of one aggregation is an element of the next. */
  datatype Tree = Leaf(err: Option<Error>) | Node(children: seq<Tree>)

  function Eval(t: Tree): Option<Error>
    decreases t, 0
  {
    match t
    case Leaf(e) => e
    case Node(ts) => Combined(EvalAll(ts))
  }

  function EvalAll(ts: seq<Tree>): seq<Option<Error>>
    decreases ts, 1
  {
    if ts == [] then [] else [Eval(ts[0])] + EvalAll(ts[1..])
  }

  function Leaves(t: Tree): seq<Option<Error>>
    decreases t, 0
  {
    match t
    case Leaf(e) => [e]
    case Node(ts) => LeavesAll(ts)
  }

  function LeavesAll(ts: seq<Tree>): seq<Option<Error>>
    decreases ts, 1
  {
    if ts == [] then [] else Leaves(ts[0]) + LeavesAll(ts[1..])
  }

  lemma {:induction false} TreeVerdict(t: Tree)
    ensures VerdictOf(Eval(t)) == JoinAll(Leaves(t))
    decreases t, 0
  {
    match t
    case Leaf(e) =>
      assert JoinAll([e][1..]).Clean?;
    case Node(ts) =>
      CombinedVerdict(EvalAll(ts));
      TreesVerdict(ts);
  }

  lemma {:induction false} TreesVerdict(ts: seq<Tree>)
    ensures JoinAll(EvalAll(ts)) == JoinAll(LeavesAll(ts))
    decreases ts, 1
  {
    if ts != [] {
      TreeVerdict(ts[0]);
      TreesVerdict(ts[1..]);
      JoinAllDistributes(Leaves(ts[0]), LeavesAll(ts[1..]));
      assert EvalAll(ts)[1..] == EvalAll(ts[1..]);
    }
  }

  /**
   For every tree of nested aggregations: nil exactly when every leaf is nil,
   retryable exactly when some leaf is not nil and all of those are retryable,
   and then the delay is the least delay of any leaf.
   */
  lemma NestedAggregation(t: Tree)
    ensures Eval(t).None? <==> forall e :: e in Leaves(t) ==> e.None?
    ensures Eval(t).Some? && Eval(t).value.Retryable? <==>
            (exists e :: e in Leaves(t) && e.Some?) && (forall e :: e in Leaves(t) && e.Some? ==> e.value.Retryable?)
    ensures Eval(t).Some? && Eval(t).value.Retryable? ==> IsLeastAfter(Leaves(t), Eval(t).value.after)
  {
    TreeVerdict(t);
    JoinAllMeaning(Leaves(t));
  }

  /** The errors inside an aggregate. */
  function Causes(e: Option<Error>): seq<Error> {
    match e
    case Some(Aggregate(es)) => es
    case Some(Retryable(Aggregate(es), _)) => es
    case _ => []
  }

  /** No error is lost and none is made up: each is in the aggregate as often as it was given. */
  lemma AggregateKeepsErrors(errs: seq<Option<Error>>, e: Error)
    ensures multiset(Causes(Combined(errs)))[e] == multiset(errs)[Some(e)]
  {
    NonNilCounts(errs, e);
    CausesAre(errs);
  }

  lemma CausesAre(errs: seq<Option<Error>>)
    ensures Causes(Combined(errs)) == NonNil(errs)
  {}

  lemma CountOfConcat<T>(a: seq<T>, b: seq<T>, x: T)
    ensures multiset(a + b)[x] == multiset(a)[x] + multiset(b)[x]
  {}

  lemma CountOfOne<T>(x: T, y: T)
    ensures multiset([x])[y] == if x == y then 1 else 0
  {}

  lemma {:induction false} NonNilCounts(errs: seq<Option<Error>>, e: Error)
    ensures multiset(NonNil(errs))[e] == multiset(errs)[Some(e)]
  {
    if errs != [] {
      var head, tail := errs[0], errs[1..];
      NonNilCounts(tail, e);
      CountOfConcat([head], tail, Some(e));
      CountOfOne(head, Some(e));
      assert errs == [head] + tail;
      if head.Some? {
        CountOfConcat([head.value], NonNil(tail), e);
        CountOfOne(head.value, e);
        assert NonNil(errs) == [head.value] + NonNil(tail);
      } else {
        assert NonNil(errs) == NonNil(tail);
      }
    }
  }
}

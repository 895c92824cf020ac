/**
 How a pass of the DNS controller ends: which errors it returns and when it asks
 to be run again (pkg/operator/controller/controller.go).
 */
module Reconciliation {
  import opened Wrappers
  import opened RetryableErrors
  import opened DnsStatus
  import ApiCalls
  import Conditions

  /**
   The steps of `ensureDNS` other than the status. Some failures end it before
   the status is looked at; the others are collected, each as a plain error.
   */
  datatype Steps = Early(text: string) | Collected(errs: seq<Option<string>>)

  datatype Result = Result(requeue: bool, requeueAfter: int)

  /** Either the early return for a retryable error, which drops everything collected so far, or the regular one. */
  datatype Exit = Retried(after: int) | Finished(result: Result, err: Option<Error>)

  datatype PassEnd = PassEnd(state: DnsState, wrote: bool, exit: Exit)

  function Wrapped(e: Option<string>): Option<Error> {
    if e.Some? then Some(Plain(e.value)) else None
  }

  function WrappedAll(errs: seq<Option<string>>): (r: seq<Option<Error>>)
    ensures |r| == |errs| && forall i :: 0 <= i < |errs| ==> r[i] == Wrapped(errs[i])
  {
    seq(|errs|, i requires 0 <= i < |errs| => Wrapped(errs[i]))
  }

  function RequeueFor(requeue: bool, tolerance: int): Result {
    if requeue then Result(true, tolerance) else Result(false, 0)
  }

  function Aggregated(errs: seq<Option<Error>>): Option<Error> {
    if NonNil(errs) == [] then None else Some(Aggregate(NonNil(errs)))
  }

  /** A retryable status error is passed on as it is; wrapped, it would not be recognised any more. */
  function StatusError(sync: Option<Error>): Option<Error> {
    if sync.Some? && !sync.value.Retryable? then Some(Plain("failed to sync status")) else sync
  }

  function ManagedExit(scaffolding: Option<string>, errs: seq<Option<string>>, external: Option<string>,
                       sync: Option<Error>, result: Result): Exit {
    match Combined(WrappedAll(errs) + [StatusError(sync)])
    case Some(Retryable(_, after)) => Retried(after)
    case Some(_) => Finished(result, Aggregated([Wrapped(scaffolding), Some(Plain("failed to ensure dns"))]))
    case None => Finished(result, Aggregated([Wrapped(scaffolding), Wrapped(external)]))
  }

  function ManagedPass(scaffolding: Option<string>, steps: Steps, external: Option<string>,
                       st: DnsState, p: Pass, tolerance: int): PassEnd {
    match steps
    case Early(text) =>
      PassEnd(st, false, Finished(Result(false, 0), Aggregated([Wrapped(scaffolding), Some(Plain(text))])))
    case Collected(errs) =>
      var sync := Sync(st, p, tolerance);
      var result := RequeueFor(sync.requeue, tolerance);
      PassEnd(sync.state, sync.wrote, ManagedExit(scaffolding, errs, external, sync.err, result))
  }

  /** While unmanaged only the status is looked after, and its error is always wrapped. */
  function UnmanagedPass(errs: seq<Option<string>>, st: DnsState, p: Pass, tolerance: int): PassEnd {
    var sync := Sync(st, p, tolerance);
    var result := RequeueFor(sync.requeue, tolerance);
    PassEnd(sync.state, sync.wrote, Finished(result, UnmanagedError(errs, sync.err)))
  }

  function UnmanagedError(errs: seq<Option<string>>, sync: Option<Error>): Option<Error> {
    Aggregated(WrappedAll(errs) + [if sync.Some? then Some(Plain("failed to sync status")) else None])
  }

  predicate FoundDegraded(st: DnsState, p: Pass, tolerance: int) {
    ComputeConditions(st.conditions, p.o, tolerance, p.clock).degraded.status.True?
  }

  /** In terms of what the pass looks at: a reason, no hold on Degraded, and not progressing unless that is held. */
  lemma FoundDegradedIff(st: DnsState, p: Pass, tolerance: int)
    ensures FoundDegraded(st, p, tolerance) <==>
            && DegradedNotes(p.o) != []
            && !Held(Conditions.Last(st.conditions, Conditions.Degraded), p.clock.now, tolerance)
            && (NotReady(p.o) ==> Held(Conditions.Last(st.conditions, Conditions.Progressing), p.clock.now, tolerance))
  {}

  lemma SyncErrorKinds(st: DnsState, p: Pass, tolerance: int)
    ensures var err := Sync(st, p, tolerance).err;
            && (FoundDegraded(st, p, tolerance) <==> err.Some? && err.value.Retryable?)
            && (FoundDegraded(st, p, tolerance) ==> VerdictOf(err) == Retry(tolerance))
  {
    if FoundDegraded(st, p, tolerance) {
      DegradedIsNotWritten(st, p, tolerance);
    }
  }

  lemma CollectedVerdict(errs: seq<Option<string>>, status: Option<Error>)
    ensures var v := VerdictOf(Combined(WrappedAll(errs) + [status]));
            (v.Retry? <==> (forall e :: e in errs ==> e.None?) && VerdictOf(status).Retry?)
            && (v.Retry? ==> v == VerdictOf(status))
  {
    var all := WrappedAll(errs);
    CombinedVerdict(all + [status]);
    JoinAllDistributes(all, [status]);
    assert JoinAll([status]) == VerdictOf(status) by {
      assert JoinAll([status][1..]).Clean?;
    }
    JoinAllMeaning(all);
    if forall e :: e in errs ==> e.None? {
      forall i | 0 <= i < |all|
        ensures all[i].None?
      {
        assert errs[i] in errs;
      }
    } else {
      var i :| 0 <= i < |errs| && errs[i].Some?;
      assert all[i] in all && !all[i].value.Retryable?;
    }
  }

  lemma RetriedWhen(scaffolding: Option<string>, errs: seq<Option<string>>, external: Option<string>,
                    sync: Option<Error>, result: Result)
    ensures var exit := ManagedExit(scaffolding, errs, external, sync, result);
            && (exit.Retried? <==> (forall e :: e in errs ==> e.None?) && VerdictOf(sync).Retry?)
            && (exit.Retried? ==> VerdictOf(sync) == Retry(exit.after))
  {
    CollectedVerdict(errs, StatusError(sync));
  }

  /**
   A managed pass takes the retry exit exactly when it found the operand degraded
   and `ensureDNS` met no other error; it then writes no status, returns no
   error, and asks to be run again after the tolerance. A failure to set up the
   namespace is not reported in that case.
   */
  lemma RetryExit(
    scaffolding: Option<string>, steps: Steps, external: Option<string>, st: DnsState, p: Pass, tolerance: int)
    ensures var end := ManagedPass(scaffolding, steps, external, st, p, tolerance);
            && (end.exit.Retried? <==>
                  steps.Collected? && FoundDegraded(st, p, tolerance) && forall e :: e in steps.errs ==> e.None?)
            && (end.exit.Retried? ==> end == PassEnd(st, false, Retried(tolerance)))
  {
    if steps.Collected? {
      var sync := Sync(st, p, tolerance);
      SyncErrorKinds(st, p, tolerance);
      RetriedWhen(scaffolding, steps.errs, external, sync.err, RequeueFor(sync.requeue, tolerance));
      if FoundDegraded(st, p, tolerance) {
        DegradedIsNotWritten(st, p, tolerance);
      }
    }
  }

  /** A fresh operand that is rolled out as wanted but of which no pod is available: degraded, not progressing. */
  lemma UnavailableIsDegraded(o: Observation, clock: Clock, write: ApiCalls.Outcome, tolerance: int)
    requires o.clusterIP != "" && o.dns.Some? && o.nodeResolver.Some?
    requires o.nodeResolver.value.updated >= o.nodeResolver.value.desired
    requires var x := o.dns.value;
             && x.updated >= x.desired && x.available == 0
             && x.selector == NodeSelectorForDns(o) && x.tolerations == TolerationsForDns(o)
    ensures FoundDegraded(DnsState([], "", ""), Pass(o, clock, write), tolerance)
  {
    assert ProgressingNotes(o) == [];
    assert DegradedNotes(o) != [];
  }

  /** An instance in which a failure to set up the namespace is dropped. */
  lemma ScaffoldingErrorIsDropped(text: string, external: Option<string>, p: Pass, tolerance: int)
    requires FoundDegraded(DnsState([], "", ""), p, tolerance)
    ensures var end := ManagedPass(Some(text), Collected([]), external, DnsState([], "", ""), p, tolerance);
            end.exit == Retried(tolerance)
  {
    RetryExit(Some(text), Collected([]), external, DnsState([], "", ""), p, tolerance);
  }

  /** Unmanaged, the same finding is an error of the pass. */
  lemma UnmanagedDegradedFails(errs: seq<Option<string>>, st: DnsState, p: Pass, tolerance: int)
    requires FoundDegraded(st, p, tolerance)
    ensures var end := UnmanagedPass(errs, st, p, tolerance);
            end.state == st && !end.wrote && end.exit.Finished? && end.exit.err.Some?
  {
    DegradedIsNotWritten(st, p, tolerance);
    AggregatedFails(WrappedAll(errs), Plain("failed to sync status"));
  }

  lemma AggregatedFails(errs: seq<Option<Error>>, e: Error)
    ensures Aggregated(errs + [Some(e)]).Some?
  {
    var all := errs + [Some(e)];
    assert all[|errs|] in all;
    assert e in NonNil(all);
  }

  /** The pass fails, and why: the namespace, everything else a DNS needs, or the service that comes last. */
  lemma ManagedPassFailsIff(
    scaffolding: Option<string>, steps: Steps, external: Option<string>, st: DnsState, p: Pass, tolerance: int)
    ensures var end := ManagedPass(scaffolding, steps, external, st, p, tolerance);
            var unclean := steps.Early? || (exists e :: e in steps.errs && e.Some?) || Sync(st, p, tolerance).err.Some?;
            end.exit.Finished? ==>
              (end.exit.err.Some? <==> scaffolding.Some? || unclean || external.Some?)
  {
    if steps.Collected? {
      var sync := Sync(st, p, tolerance);
      ManagedExitFailsIff(scaffolding, steps.errs, external, sync.err, RequeueFor(sync.requeue, tolerance));
    } else {
      TwoErrors(Wrapped(scaffolding), Some(Plain(steps.text)));
    }
  }

  lemma ManagedExitFailsIff(
    scaffolding: Option<string>, errs: seq<Option<string>>, external: Option<string>, sync: Option<Error>,
      result: Result)
    ensures var exit := ManagedExit(scaffolding, errs, external, sync, result);
            exit.Finished? ==>
              && exit.result == result
              && (exit.err.Some? <==>
                    scaffolding.Some? || (exists e :: e in errs && e.Some?) || sync.Some? || external.Some?)
  {
    CleanIff(errs, sync);
    TwoErrors(Wrapped(scaffolding), Some(Plain("failed to ensure dns")));
    TwoErrors(Wrapped(scaffolding), Wrapped(external));
  }

  lemma TwoErrors(a: Option<Error>, b: Option<Error>)
    ensures Aggregated([a, b]).Some? <==> a.Some? || b.Some?
    ensures a.Some? ==> a.value in Aggregated([a, b]).value.errors
    ensures b.Some? ==> b.value in Aggregated([a, b]).value.errors
  {
    assert forall e :: Some(e) in [a, b] <==> a == Some(e) || b == Some(e);
    var es := NonNil([a, b]);
    if a.Some? {
      assert a.value in es;
    }
    if b.Some? {
      assert b.value in es;
    }
    if es != [] {
      assert Some(es[0]) in [a, b];
    }
  }

  lemma CleanIff(errs: seq<Option<string>>, sync: Option<Error>)
    ensures Combined(WrappedAll(errs) + [StatusError(sync)]).None? <==>
            (forall e :: e in errs ==> e.None?) && sync.None?
  {
    var all := WrappedAll(errs) + [StatusError(sync)];
    CombinedVerdict(all);
    JoinAllMeaning(all);
    assert all[|errs|] == StatusError(sync) && all[|errs|] in all;
    if forall e :: e in all ==> e.None? {
      forall e | e in errs
        ensures e.None?
      {
        var i :| 0 <= i < |errs| && errs[i] == e;
        assert all[i] == Wrapped(errs[i]) && all[i] in all;
      }
    }
    if (forall e :: e in errs ==> e.None?) && sync.None? {
      forall e | e in all
        ensures e.None?
      {
        var i :| 0 <= i < |all| && all[i] == e;
        assert i < |errs| ==> all[i] == Wrapped(errs[i]) && errs[i] in errs;
      }
    }
  }

  lemma SyncRequeue(st: DnsState, p: Pass, tolerance: int)
    ensures Sync(st, p, tolerance).requeue <==> SuppressedPass(st, p, tolerance)
  {}

  /** A suppressed pass asks to be run again after the tolerance, and no other pass asks for anything. */
  lemma RequeueSays(scaffolding: Option<string>, errs: seq<Option<string>>, external: Option<string>,
                    st: DnsState, p: Pass, tolerance: int)
    ensures var end := ManagedPass(scaffolding, Collected(errs), external, st, p, tolerance);
            end.exit.Finished? ==>
              end.exit.result == if SuppressedPass(st, p, tolerance) then Result(true, tolerance) else Result(false, 0)
  {
    var sync := Sync(st, p, tolerance);
    SyncRequeue(st, p, tolerance);
    ManagedExitFailsIff(scaffolding, errs, external, sync.err, RequeueFor(sync.requeue, tolerance));
  }

  lemma AggregatedIff(errs: seq<Option<Error>>)
    ensures Aggregated(errs).Some? <==> exists e :: e in errs && e.Some?
  {
    var es := NonNil(errs);
    if es != [] {
      assert Some(es[0]) in errs;
    }
    if e :| e in errs && e.Some? {
      assert e == Some(e.value) && e.value in es;
    }
  }

  lemma SomeWrapped(errs: seq<Option<string>>, last: Option<Error>)
    ensures (exists e :: e in WrappedAll(errs) + [last] && e.Some?) <==>
            (exists e :: e in errs && e.Some?) || last.Some?
  {
    var all := WrappedAll(errs) + [last];
    assert all[|errs|] == last && last in all;
    if i :| 0 <= i < |errs| && errs[i].Some? {
      assert all[i] == Wrapped(errs[i]) && all[i] in all;
    }
    if e :| e in all && e.Some? {
      var i :| 0 <= i < |all| && all[i] == e;
      assert i < |errs| ==> all[i] == Wrapped(errs[i]) && errs[i] in errs;
    }
  }

  lemma UnmanagedErrorIff(errs: seq<Option<string>>, sync: Option<Error>)
    ensures UnmanagedError(errs, sync).Some? <==> (exists e :: e in errs && e.Some?) || sync.Some?
  {
    var status := if sync.Some? then Some(Plain("failed to sync status")) else None;
    AggregatedIff(WrappedAll(errs) + [status]);
    SomeWrapped(errs, status);
  }

  /** While unmanaged, a pass fails exactly when something could not be read or the status could not be synced. */
  lemma UnmanagedPassFailsIff(errs: seq<Option<string>>, st: DnsState, p: Pass, tolerance: int)
    ensures var end, sync := UnmanagedPass(errs, st, p, tolerance), Sync(st, p, tolerance);
            && end.state == sync.state && end.wrote == sync.wrote && end.exit.Finished?
            && (end.exit.err.Some? <==> (exists e :: e in errs && e.Some?) || sync.err.Some?)
  {
    UnmanagedErrorIff(errs, Sync(st, p, tolerance).err);
  }

  lemma ExitReports(
    scaffolding: Option<string>, errs: seq<Option<string>>, external: Option<string>,
    sync: Option<Error>, result: Result)
    requires ManagedExit(scaffolding, errs, external, sync, result).Finished?
    ensures var err := ManagedExit(scaffolding, errs, external, sync, result).err;
            && (scaffolding.Some? ==> Plain(scaffolding.value) in Causes(err))
            && ((forall e :: e in errs ==> e.None?) && sync.None? && external.Some? ==>
                  Plain(external.value) in Causes(err))
  {
    CleanIff(errs, sync);
    TwoErrors(Wrapped(scaffolding), Some(Plain("failed to ensure dns")));
    TwoErrors(Wrapped(scaffolding), Wrapped(external));
  }

  /** What failed is in the error that is returned: the namespace, and the steps or the service. */
  lemma FailureIsReported(
    scaffolding: Option<string>, steps: Steps, external: Option<string>, st: DnsState, p: Pass, tolerance: int)
    requires ManagedPass(scaffolding, steps, external, st, p, tolerance).exit.Finished?
    ensures var err := ManagedPass(scaffolding, steps, external, st, p, tolerance).exit.err;
            && (scaffolding.Some? ==> Plain(scaffolding.value) in Causes(err))
            && (steps.Early? ==> Plain(steps.text) in Causes(err))
            && (steps.Collected? && Sync(st, p, tolerance).err.None? && external.Some?
                && (forall e :: e in steps.errs ==> e.None?)
                ==> Plain(external.value) in Causes(err))
  {
    if steps.Collected? {
      var sync := Sync(st, p, tolerance);
      ExitReports(scaffolding, steps.errs, external, sync.err, RequeueFor(sync.requeue, tolerance));
    } else {
      TwoErrors(Wrapped(scaffolding), Some(Plain(steps.text)));
    }
  }
}

/**
 The finalizer and deletion protocol of the DNS controller
 (pkg/operator/controller/controller.go, pkg/operator/controller/controller_dns_daemonset.go).

 The API server is an explicit store. A pass of `Reconcile` is a sequence of
 calls to it; between any two calls other clients may edit, delete or recreate
 the DNS object, and every call may fail, with or without having taken effect.
 The controller reads through a non-caching client, so a read is of the store.
 */
module FinalizerProtocol {
  import opened Wrappers
  import opened ApiCalls
  import StringSlices

  const FINALIZER := "dns.operator.openshift.io/dns-controller"

  /** The default DNS object; `spec` stands for everything the protocol does not look at. */
  datatype Dns = Dns(version: nat, finalizers: seq<string>, deleting: bool, managed: bool, spec: string)

  /** The DNS object, and whether the two controller-created resources exist. */
  datatype Store = Store(dns: Option<Dns>, daemonSet: bool, externalName: bool, nextVersion: nat)

  predicate Guarded(s: Store) {
    s.dns.Some? && FINALIZER in s.dns.value.finalizers
  }

  /** Whatever the controller created is still protected by the finalizer. */
  predicate Safe(s: Store) {
    s.daemonSet || s.externalName ==> Guarded(s)
  }

  // ---------------------------------------------------------------------
  // The API server
  // ---------------------------------------------------------------------

  /** A write of the whole object: an object that is being deleted goes away with its last finalizer. */
  function Put(s: Store, d: Dns): Store {
    s.(dns := if d.deleting && d.finalizers == [] then None else Some(d.(version := s.nextVersion)),
       nextVersion := s.nextVersion + 1)
  }

  /** Updates carry the version they were computed from and are rejected on conflict. */
  predicate Conflicts(s: Store, d: Dns) {
    s.dns.None? || s.dns.value.version != d.version
  }

  /** Versions are handed out in increasing order. */
  predicate Numbered(s: Store) {
    s.dns.Some? ==> s.dns.value.version < s.nextVersion
  }

  /** What clients other than the controller do to the DNS object and to what the controller created. */
  datatype Act =
    | CreateDns(finalizers: seq<string>, managed: bool, spec: string)
    | EditDns(finalizers: seq<string>, managed: bool, spec: string)
    | DeleteDns
    | DeleteResources(daemonSet: bool, externalName: bool)

  /**
   Nobody else strips the controller's finalizer, and the API server refuses new
   finalizers on an object that is being deleted. Status writes are edits too.
   */
  predicate Allowed(d: Dns, finalizers: seq<string>) {
    && (FINALIZER in d.finalizers ==> FINALIZER in finalizers)
    && (d.deleting ==> forall f :: f in finalizers ==> f in d.finalizers)
  }

  function Other(s: Store, a: Act): Store {
    match a
    case CreateDns(fs, managed, spec) =>
      if s.dns.Some? then s else Put(s, Dns(0, fs, false, managed, spec))
    case EditDns(fs, managed, spec) =>
      if s.dns.None? || !Allowed(s.dns.value, fs) then s
      else Put(s, s.dns.value.(finalizers := fs, managed := managed, spec := spec))
    case DeleteDns =>
      if s.dns.None? then s else Put(s, s.dns.value.(deleting := true))
    case DeleteResources(ds, svc) =>
      s.(daemonSet := s.daemonSet && !ds, externalName := s.externalName && !svc)
  }

  /** The act writes the DNS object: it is created, edited, marked for deletion or gone. */
  predicate Writes(s: Store, a: Act) {
    match a
    case CreateDns(_, _, _) => s.dns.None?
    case EditDns(fs, _, _) => s.dns.Some? && Allowed(s.dns.value, fs)
    case DeleteDns => s.dns.Some?
    case DeleteResources(_, _) => false
  }

  // ---------------------------------------------------------------------
  // The controller, one API call at a time
  // ---------------------------------------------------------------------

  /** Where the single worker stands, with the DNS object it read; `clean` says that no error was met so far. */
  datatype Pc =
    | Idle
    | Scaffolding(dns: Dns)
    | DeletingExternalName(dns: Dns, clean: bool)
    | DeletingDaemonSet(dns: Dns, clean: bool)
    | DroppingFinalizer(dns: Dns)
    | Enforcing(dns: Dns)
    | GettingDaemonSet
    | CreatingDaemonSet
    | EnsuringTheRest(clean: bool)
    | GettingExternalName
    | CreatingExternalName

  datatype State = State(store: Store, pc: Pc)

  /** After the scaffolding: the deletion branch, or the finalizer and everything else. */
  function AfterScaffolding(d: Dns, clean: bool): Pc {
    if d.deleting then DeletingExternalName(d, clean) else AfterBranch(d)
  }

  function AfterBranch(d: Dns): Pc {
    if FINALIZER in d.finalizers then GettingDaemonSet else Enforcing(d)
  }

  function ControllerStep(s: State, o: Outcome): State {
    var st := s.store;
    match s.pc
    case Idle =>
      if !o.Ok? || st.dns.None? || !st.dns.value.managed then s
      else s.(pc := Scaffolding(st.dns.value))
    case Scaffolding(d) =>
      s.(pc := AfterScaffolding(d, o.Ok?))
    case DeletingExternalName(d, clean) =>
      State(if Effective(o) then st.(externalName := false) else st, DeletingDaemonSet(d, clean && o.Ok?))
    case DeletingDaemonSet(d, clean) =>
      State(if Effective(o) then st.(daemonSet := false) else st,
            if clean && o.Ok? && FINALIZER in d.finalizers then DroppingFinalizer(d) else Idle)
    case DroppingFinalizer(d) =>
      var d' := d.(finalizers := StringSlices.Without(d.finalizers, FINALIZER));
      State(if Effective(o) && !Conflicts(st, d) then Put(st, d') else st, Idle)
    case Enforcing(d) =>
      var d' := d.(finalizers := d.finalizers + [FINALIZER]);
      State(if Effective(o) && !Conflicts(st, d) then Put(st, d') else st,
            if o.Ok? && !Conflicts(st, d) then GettingDaemonSet else Idle)
    case GettingDaemonSet =>
      s.(pc := if !o.Ok? then EnsuringTheRest(false)
               else if st.daemonSet then EnsuringTheRest(true)
               else CreatingDaemonSet)
    case CreatingDaemonSet =>
      State(if Effective(o) then st.(daemonSet := true) else st, EnsuringTheRest(o.Ok?))
    case EnsuringTheRest(clean) =>
      s.(pc := if clean && o.Ok? then GettingExternalName else Idle)
    case GettingExternalName =>
      s.(pc := if o.Ok? && !st.externalName then CreatingExternalName else Idle)
    case CreatingExternalName =>
      State(if Effective(o) then st.(externalName := true) else st, Idle)
  }

  // ---------------------------------------------------------------------
  // Runs
  // ---------------------------------------------------------------------

  datatype Label = User(act: Act) | Call(outcome: Outcome)

  function Step(s: State, l: Label): State {
    match l
    case User(a) => s.(store := Other(s.store, a))
    case Call(o) => ControllerStep(s, o)
  }

  function Run(s: State, ls: seq<Label>): State {
    if ls == [] then s else Step(Run(s, ls[..|ls| - 1]), ls[|ls| - 1])
  }

  /** The inductive strengthening of `Safe`. */
  predicate Inv(s: State) {
    && Safe(s.store) && Numbered(s.store)
    && match s.pc
       case Idle => true
       case Scaffolding(d) => FINALIZER in d.finalizers ==> Guarded(s.store)
       case DeletingExternalName(d, _) => true
       case DeletingDaemonSet(d, clean) => clean ==> !s.store.externalName
       case DroppingFinalizer(d) => !s.store.externalName && !s.store.daemonSet
       case Enforcing(d) => true
       case _ => Guarded(s.store)
  }

  lemma StepKeepsInv(s: State, l: Label)
    requires Inv(s)
    ensures Inv(Step(s, l))
  {
    if l.Call? && s.pc.Enforcing? {
      var d := s.pc.dns;
      assert (d.finalizers + [FINALIZER])[|d.finalizers|] == FINALIZER;
    }
  }

  /**
   In every run that interleaves passes with edits, deletions and recreations of
   the DNS object and with any failures, the resources the controller created
   exist only while the DNS object exists and carries the finalizer.
   */
  lemma {:induction false} FinalizerGuardsResources(s: State, ls: seq<Label>)
    requires Inv(s)
    ensures Inv(Run(s, ls)) && Safe(Run(s, ls).store)
  {
    if ls != [] {
      FinalizerGuardsResources(s, ls[..|ls| - 1]);
      StepKeepsInv(Run(s, ls[..|ls| - 1]), ls[|ls| - 1]);
    }
  }

  // ---------------------------------------------------------------------
  // The deletion pass
  // ---------------------------------------------------------------------

  function Others(s: State, acts: seq<Act>): State {
    if acts == [] then s else Step(Others(s, acts[..|acts| - 1]), User(acts[|acts| - 1]))
  }

  lemma {:induction false} OthersFrame(s: State, acts: seq<Act>)
    ensures Others(s, acts).pc == s.pc
    ensures !s.store.daemonSet ==> !Others(s, acts).store.daemonSet
    ensures !s.store.externalName ==> !Others(s, acts).store.externalName
  {
    if acts != [] {
      OthersFrame(s, acts[..|acts| - 1]);
    }
  }

  /** The object that is left once the controller lets go of `d`. */
  function Released(d: Dns, version: nat): Option<Dns> {
    var rest := StringSlices.Without(d.finalizers, FINALIZER);
    if rest == [] then None else Some(d.(finalizers := rest, version := version))
  }

  function NextCall(s: State, acts: seq<Act>): State {
    Step(Others(s, acts), Call(Ok))
  }

  /**
   A pass over a DNS object that is being deleted, with no failing call but with
   any interference between its calls: both resources are gone, and then exactly
   the controller's finalizer is, unless somebody wrote the object since it was
   read, in which case the object is left as it is for the next pass.
   */
  lemma DeletionPass(s: State, a1: seq<Act>, a2: seq<Act>, a3: seq<Act>, a4: seq<Act>)
    requires s.pc.Idle? && s.store.dns.Some?
    requires s.store.dns.value.deleting && s.store.dns.value.managed && FINALIZER in s.store.dns.value.finalizers
    ensures var d := s.store.dns.value;
            var before := Others(NextCall(NextCall(NextCall(NextCall(s, []), a1), a2), a3), a4);
            var after := Step(before, Call(Ok));
            && after.pc.Idle?
            && !after.store.daemonSet && !after.store.externalName
            && after.store.dns == (if Conflicts(before.store, d) then before.store.dns
                                   else Released(d, before.store.nextVersion))
  {
    var s1 := NextCall(s, []);
    OthersFrame(s1, a1);
    var s2 := NextCall(s1, a1);
    OthersFrame(s2, a2);
    var s3 := NextCall(s2, a2);
    OthersFrame(s3, a3);
    var s4 := NextCall(s3, a3);
    OthersFrame(s4, a4);
  }

  /** Whichever of the three calls before it fails, a deletion pass stops short of dropping the finalizer. */
  lemma FailureKeepsFinalizer(
    s: State, d: Dns, o1: Outcome, o2: Outcome, o3: Outcome, a1: seq<Act>, a2: seq<Act>, a3: seq<Act>)
    requires s.pc == Scaffolding(d) && d.deleting && !(o1.Ok? && o2.Ok? && o3.Ok?)
    ensures var s1 := Step(Others(s, a1), Call(o1));
            var s2 := Step(Others(s1, a2), Call(o2));
            Step(Others(s2, a3), Call(o3)).pc.Idle?
    ensures var s1 := Step(Others(s, a1), Call(o1));
            var s2 := Step(Others(s1, a2), Call(o2));
            && s1.store.dns == Others(s, a1).store.dns && s2.store.dns == Others(s1, a2).store.dns
            && Step(Others(s2, a3), Call(o3)).store.dns == Others(s2, a3).store.dns
  {
    OthersFrame(s, a1);
    var s1 := Step(Others(s, a1), Call(o1));
    OthersFrame(s1, a2);
    var s2 := Step(Others(s1, a2), Call(o2));
    OthersFrame(s2, a3);
  }

  /** Some act of the sequence writes the DNS object. */
  predicate SomeWrite(s: State, acts: seq<Act>) {
    acts != [] && (SomeWrite(s, acts[..|acts| - 1]) || Writes(Others(s, acts[..|acts| - 1]).store, acts[|acts| - 1]))
  }

  /** The DNS object is as it was read, or has a later version, or is gone. */
  predicate Since(s: Store, d: Dns, wrote: bool) {
    if wrote then s.dns.None? || d.version < s.dns.value.version else s.dns == Some(d)
  }

  lemma {:induction false} OthersSince(s: State, acts: seq<Act>, d: Dns, wrote: bool)
    requires Numbered(s.store) && d.version < s.store.nextVersion && Since(s.store, d, wrote)
    ensures Numbered(Others(s, acts).store) && d.version < Others(s, acts).store.nextVersion
    ensures Since(Others(s, acts).store, d, wrote || SomeWrite(s, acts))
  {
    if acts != [] {
      OthersSince(s, acts[..|acts| - 1], d, wrote);
    }
  }

  lemma NextCallSince(s: State, acts: seq<Act>, d: Dns, wrote: bool)
    requires Numbered(s.store) && d.version < s.store.nextVersion && Since(s.store, d, wrote)
    requires s.pc.Scaffolding? || s.pc.DeletingExternalName? || s.pc.DeletingDaemonSet?
    ensures var n := NextCall(s, acts).store;
            Numbered(n) && d.version < n.nextVersion && Since(n, d, wrote || SomeWrite(s, acts))
  {
    OthersSince(s, acts, d, wrote);
    OthersFrame(s, acts);
  }

  /**
   The conflict in `DeletionPass` means exactly that somebody has written the object since it was read:
   without such a write the finalizer is removed from the object as it was read, and from nothing else.
   */
  lemma ConflictIffWritten(s: State, a1: seq<Act>, a2: seq<Act>, a3: seq<Act>, a4: seq<Act>)
    requires Inv(s) && s.pc.Idle? && s.store.dns.Some?
    requires s.store.dns.value.deleting && s.store.dns.value.managed && FINALIZER in s.store.dns.value.finalizers
    ensures var s1 := NextCall(s, []);
            var s2 := NextCall(s1, a1);
            var s3 := NextCall(s2, a2);
            var s4 := NextCall(s3, a3);
            Conflicts(Others(s4, a4).store, s.store.dns.value) <==>
            SomeWrite(s1, a1) || SomeWrite(s2, a2) || SomeWrite(s3, a3) || SomeWrite(s4, a4)
  {
    var d := s.store.dns.value;
    var s1 := NextCall(s, []);
    assert Others(s, []) == s;
    assert s1.pc == Scaffolding(d);
    OthersFrame(s1, a1);
    NextCallSince(s1, a1, d, false);
    var s2 := NextCall(s1, a1);
    assert s2.pc.DeletingExternalName?;
    OthersFrame(s2, a2);
    NextCallSince(s2, a2, d, SomeWrite(s1, a1));
    var s3 := NextCall(s2, a2);
    assert s3.pc.DeletingDaemonSet?;
    NextCallSince(s3, a3, d, SomeWrite(s1, a1) || SomeWrite(s2, a2));
    var s4 := NextCall(s3, a3);
    OthersSince(s4, a4, d, SomeWrite(s1, a1) || SomeWrite(s2, a2) || SomeWrite(s3, a3));
  }

  /** The finalizer the controller adds to a live object is the only trace it leaves on it. */
  lemma EnforceThenRelease(d: Dns, version: nat)
    requires FINALIZER !in d.finalizers
    ensures Released(d.(finalizers := d.finalizers + [FINALIZER]), version) ==
            if d.finalizers == [] then None else Some(d.(version := version))
  {
    StringSlices.WithoutUndoesAppend(d.finalizers, FINALIZER);
  }

  // ---------------------------------------------------------------------
  // The creation pass
  // ---------------------------------------------------------------------

  /** No act takes a resource away. */
  predicate SparesResources(acts: seq<Act>) {
    forall a :: a in acts && a.DeleteResources? ==> !a.daemonSet && !a.externalName
  }

  /**
   Nothing stands in the way of the next call: resources are spared, and the object is not written before the
   finalizer is in place. With `quiet`, it is not written later either.
   */
  predicate Unhindered(s: State, acts: seq<Act>, quiet: bool) {
    SparesResources(acts) && (quiet || s.pc.Scaffolding? || s.pc.Enforcing? ==> !SomeWrite(s, acts))
  }

  lemma {:induction false} SparedResourcesStay(s: State, acts: seq<Act>)
    requires SparesResources(acts)
    ensures var t := Others(s, acts);
            t.pc == s.pc && t.store.daemonSet == s.store.daemonSet && t.store.externalName == s.store.externalName
    ensures !SomeWrite(s, acts) ==> Others(s, acts).store.dns == s.store.dns
  {
    if acts != [] {
      var k := |acts| - 1;
      assert acts[k] in acts;
      SparedResourcesStay(s, acts[..k]);
    }
  }

  /** The finalizers the object has once the controller watches over it. */
  function Watched(finalizers: seq<string>): seq<string> {
    if FINALIZER in finalizers then finalizers else finalizers + [FINALIZER]
  }

  /** What a pass over the live object `d` has achieved, by where it stands; idle means done. */
  predicate Toward(s: State, d: Dns, quiet: bool) {
    var watched := s.store.dns.Some? && s.store.dns.value.finalizers == Watched(d.finalizers);
    match s.pc
    case Scaffolding(e) => e == d && s.store.dns == Some(d)
    case Enforcing(e) => e == d && s.store.dns == Some(d) && FINALIZER !in d.finalizers
    case GettingDaemonSet => quiet ==> watched
    case CreatingDaemonSet => quiet ==> watched
    case EnsuringTheRest(clean) => clean && s.store.daemonSet && (quiet ==> watched)
    case GettingExternalName => s.store.daemonSet && (quiet ==> watched)
    case CreatingExternalName => s.store.daemonSet && (quiet ==> watched)
    case Idle => s.store.daemonSet && s.store.externalName && (quiet ==> watched)
    case _ => false
  }

  /** An upper bound on the calls that a pass has still to make. */
  function CallsLeft(pc: Pc): nat {
    match pc
    case Idle => 0
    case CreatingExternalName => 1
    case GettingExternalName => 2
    case EnsuringTheRest(_) => 3
    case CreatingDaemonSet => 4
    case GettingDaemonSet => 5
    case DroppingFinalizer(_) => 5
    case Enforcing(_) => 6
    case DeletingDaemonSet(_, _) => 6
    case DeletingExternalName(_, _) => 7
    case Scaffolding(_) => 8
  }

  /** Every pass comes to an end, however its calls end. */
  lemma EveryCallCounts(s: State, o: Outcome)
    requires !s.pc.Idle?
    ensures CallsLeft(ControllerStep(s, o).pc) < CallsLeft(s.pc)
  {}

  lemma TowardStep(s: State, acts: seq<Act>, d: Dns, quiet: bool)
    requires !s.pc.Idle? && Toward(s, d, quiet) && !d.deleting && Unhindered(s, acts, quiet)
    ensures Toward(NextCall(s, acts), d, quiet)
  {
    SparedResourcesStay(s, acts);
  }

  /** The calls of one pass, each after what others did before it, up to where the worker is idle again. */
  function Calls(s: State, interference: seq<seq<Act>>): State {
    if interference == [] then s
    else NextCall(Calls(s, interference[..|interference| - 1]), interference[|interference| - 1])
  }

  predicate OnePass(s: State, interference: seq<seq<Act>>, quiet: bool) {
    forall k :: 0 <= k < |interference| ==> UnderWay(s, interference, k, quiet)
  }

  predicate UnderWay(s: State, interference: seq<seq<Act>>, k: nat, quiet: bool)
    requires k < |interference|
  {
    var t := Calls(s, interference[..k]);
    !t.pc.Idle? && Unhindered(t, interference[k], quiet)
  }

  lemma {:induction false} TowardAll(s: State, interference: seq<seq<Act>>, d: Dns, quiet: bool)
    requires Toward(s, d, quiet) && !d.deleting && OnePass(s, interference, quiet)
    ensures Toward(Calls(s, interference), d, quiet)
    ensures CallsLeft(Calls(s, interference).pc) + |interference| <= CallsLeft(s.pc)
  {
    if interference != [] {
      var k := |interference| - 1;
      var front := interference[..k];
      assert OnePass(s, front, quiet) by {
        forall j | 0 <= j < |front|
          ensures UnderWay(s, front, j, quiet)
        {
          assert UnderWay(s, interference, j, quiet) && front[..j] == interference[..j];
        }
      }
      TowardAll(s, front, d, quiet);
      assert UnderWay(s, interference, k, quiet);
      TowardStep(Calls(s, front), interference[k], d, quiet);
      OthersFrame(Calls(s, front), interference[k]);
      EveryCallCounts(Others(Calls(s, front), interference[k]), Ok);
    }
  }

  /**
   A pass over a managed DNS object that is not being deleted, with no failing call and unhindered: when the
   worker is idle again, which is after at most eight more calls, both resources exist; and if nobody wrote the
   object meanwhile, its finalizers are those read with the controller's own among them, at the end if it was new.
   */
  lemma CreationPass(s: State, interference: seq<seq<Act>>, quiet: bool)
    requires s.pc.Idle? && s.store.dns.Some? && s.store.dns.value.managed && !s.store.dns.value.deleting
    requires OnePass(NextCall(s, []), interference, quiet)
    ensures var d, after := s.store.dns.value, Calls(NextCall(s, []), interference);
            && |interference| <= 8
            && (after.pc.Idle? ==>
                  && after.store.daemonSet && after.store.externalName
                  && (quiet ==> after.store.dns.Some? && after.store.dns.value.finalizers == Watched(d.finalizers)))
  {
    var d := s.store.dns.value;
    assert Others(s, []) == s;
    assert NextCall(s, []) == s.(pc := Scaffolding(d));
    TowardAll(NextCall(s, []), interference, d, quiet);
  }

  // ---------------------------------------------------------------------
  // Reconcile as the controller executes it
  // ---------------------------------------------------------------------

  predicate AllOk(ls: seq<Label>) {
    forall l :: l in ls && l.Call? ==> l.outcome.Ok?
  }

  /** No other client takes a resource away. */
  predicate NoDeletions(ls: seq<Label>) {
    forall l :: l in ls && l.User? && l.act.DeleteResources? ==> !l.act.daemonSet && !l.act.externalName
  }

  /** No other client tries to write the DNS object. */
  predicate NoEdits(ls: seq<Label>) {
    forall l :: l in ls && l.User? ==> l.act.DeleteResources?
  }

  lemma TraceStep(ls: seq<Label>, l: Label)
    ensures AllOk(ls + [l]) <==> AllOk(ls) && (l.Call? ==> l.outcome.Ok?)
    ensures NoDeletions(ls + [l]) <==>
            NoDeletions(ls) && (l.User? && l.act.DeleteResources? ==> !l.act.daemonSet && !l.act.externalName)
    ensures NoEdits(ls + [l]) <==> NoEdits(ls) && (l.User? ==> l.act.DeleteResources?)
    ensures (ls + [l])[..|ls|] == ls
  {
    assert forall k :: k in ls + [l] <==> k in ls || k == l;
  }

  lemma OtherEffect(s: Store, a: Act)
    ensures var t := Other(s, a);
            && (a.DeleteResources? ==> t.dns == s.dns)
            && ((a.DeleteResources? ==> !a.daemonSet && !a.externalName) ==>
                  t.daemonSet == s.daemonSet && t.externalName == s.externalName)
            && (t.daemonSet ==> s.daemonSet) && (t.externalName ==> s.externalName)
  {}

  /** The finalizer write that the controller is about to make. */
  predicate Proposes(pc: Pc, updated: Dns) {
    || (pc.DroppingFinalizer? && updated == pc.dns.(finalizers := StringSlices.Without(pc.dns.finalizers, FINALIZER)))
    || (pc.Enforcing? && updated == pc.dns.(finalizers := pc.dns.finalizers + [FINALIZER]))
  }

  lemma ProposedStep(s: State, updated: Dns, o: Outcome)
    requires Proposes(s.pc, updated)
    ensures var fits := !Conflicts(s.store, updated);
            ControllerStep(s, o) ==
            State(if Effective(o) && fits then Put(s.store, updated) else s.store,
                  if s.pc.Enforcing? && o.Ok? && fits then GettingDaemonSet else Idle)
  {}

  /** The object has the finalizers and the spec of `d`, or is gone with its last finalizer. */
  predicate Holds(s: Store, d: Dns) {
    if d.deleting && d.finalizers == [] then s.dns.None?
    else s.dns.Some? && s.dns.value.finalizers == d.finalizers && s.dns.value.spec == d.spec
  }

  lemma PutHolds(s: Store, d: Dns)
    ensures Holds(Put(s, d), d)
    ensures Put(s, d).daemonSet == s.daemonSet && Put(s, d).externalName == s.externalName
  {}

  /** The API server the controller talks to; the ghost fields record the run it takes part in. */
  class ApiServer {
    var store: Store
    ghost var pc: Pc
    ghost var trace: seq<Label>

    ghost predicate Follows(start: State)
      reads this
    {
      State(store, pc) == Run(start, trace)
    }

    constructor (store: Store)
      ensures this.store == store && pc == Idle && trace == []
    {
      this.store := store;
      pc, trace := Idle, [];
    }

    /** What stays as long as no other client interferes with it. */
    twostate predicate Kept()
      reads this
    {
      && (NoDeletions(trace) ==>
            && NoDeletions(old(trace))
            && (old(store).daemonSet ==> store.daemonSet) && (old(store).externalName ==> store.externalName))
      && (NoEdits(trace) ==> NoEdits(old(trace)))
    }

    method Interfere(ghost start: State)
      requires Follows(start)
      modifies this
      ensures Follows(start) && pc == old(pc) && Kept()
      ensures AllOk(old(trace)) <==> AllOk(trace)
      ensures NoEdits(trace) ==> store.dns == old(store).dns
      ensures !old(store).daemonSet ==> !store.daemonSet
      ensures !old(store).externalName ==> !store.externalName
    {
      var acts: seq<Act> := *;
      for i := 0 to |acts|
        invariant Follows(start) && pc == old(pc) && Kept()
        invariant AllOk(old(trace)) <==> AllOk(trace)
        invariant NoEdits(trace) ==> store.dns == old(store).dns
        invariant !old(store).daemonSet ==> !store.daemonSet
        invariant !old(store).externalName ==> !store.externalName
      {
        TraceStep(trace, User(acts[i]));
        OtherEffect(store, acts[i]);
        store, trace := Other(store, acts[i]), trace + [User(acts[i])];
      }
    }

    ghost method Record(start: State, before: Store, o: Outcome)
      requires State(before, pc) == Run(start, trace)
      requires ControllerStep(State(before, pc), o).store == store
      modifies this`pc, this`trace
      ensures Follows(start)
      ensures pc == ControllerStep(State(before, old(pc)), o).pc
      ensures trace == old(trace) + [Call(o)]
      ensures AllOk(trace) <==> AllOk(old(trace)) && o.Ok?
      ensures NoDeletions(trace) <==> NoDeletions(old(trace))
      ensures NoEdits(trace) <==> NoEdits(old(trace))
    {
      TraceStep(trace, Call(o));
      pc, trace := ControllerStep(State(before, pc), o).pc, trace + [Call(o)];
    }

    /** The calls that change nothing the protocol looks at: scaffolding, and the rest of what a DNS needs. */
    method Perform(ghost start: State) returns (ok: bool)
      requires Follows(start)
      requires pc.Scaffolding? || pc.EnsuringTheRest?
      modifies this
      ensures Follows(start)
      ensures old(pc).Scaffolding? ==> pc == AfterScaffolding(old(pc).dns, ok)
      ensures old(pc).EnsuringTheRest? ==> pc == if old(pc).clean && ok then GettingExternalName else Idle
      ensures AllOk(trace) <==> AllOk(old(trace)) && ok
      ensures Kept() && (NoEdits(trace) ==> store.dns == old(store).dns)
    {
      Interfere(start);
      var o: Outcome := *;
      Record(start, store, o);
      ok := o.Ok?;
    }

    method GetDns(ghost start: State) returns (found: Option<Dns>, ok: bool)
      requires Follows(start) && pc.Idle?
      modifies this
      ensures Follows(start)
      ensures !ok ==> found.None?
      ensures pc == if found.Some? && found.value.managed then Scaffolding(found.value) else Idle
      ensures AllOk(trace) <==> AllOk(old(trace)) && ok
      ensures Kept() && (ok ==> found == store.dns) && (NoEdits(trace) ==> store.dns == old(store).dns)
    {
      Interfere(start);
      var o: Outcome := *;
      Record(start, store, o);
      ok := o.Ok?;
      found := if ok then store.dns else None;
    }

    method DeleteExternalName(ghost start: State) returns (ok: bool)
      requires Follows(start) && pc.DeletingExternalName?
      modifies this
      ensures Follows(start) && pc == DeletingDaemonSet(old(pc).dns, old(pc).clean && ok)
      ensures NoEdits(trace) ==> NoEdits(old(trace)) && store.dns == old(store).dns
      ensures ok ==> !store.externalName
      ensures AllOk(trace) <==> AllOk(old(trace)) && ok
    {
      Interfere(start);
      var o: Outcome := *;
      ghost var before := store;
      if Effective(o) {
        store := store.(externalName := false);
      }
      Record(start, before, o);
      ok := o.Ok?;
    }

    method DeleteDaemonSet(ghost start: State) returns (ok: bool)
      requires Follows(start) && pc.DeletingDaemonSet?
      modifies this
      ensures Follows(start)
      ensures pc == if old(pc).clean && ok && FINALIZER in old(pc).dns.finalizers
                    then DroppingFinalizer(old(pc).dns) else Idle
      ensures NoEdits(trace) ==> NoEdits(old(trace)) && store.dns == old(store).dns
      ensures ok ==> !store.daemonSet
      ensures !old(store).externalName ==> !store.externalName
      ensures AllOk(trace) <==> AllOk(old(trace)) && ok
    {
      Interfere(start);
      var o: Outcome := *;
      ghost var before := store;
      if Effective(o) {
        store := store.(daemonSet := false);
      }
      Record(start, before, o);
      ok := o.Ok?;
    }

    /** A finalizer write; it is refused when the object has moved on since it was read. */
    method UpdateFinalizers(ghost start: State, updated: Dns) returns (ok: bool)
      requires Follows(start) && Proposes(pc, updated)
      modifies this
      ensures Follows(start)
      ensures pc == if old(pc).Enforcing? && ok then GettingDaemonSet else Idle
      ensures AllOk(trace) ==> AllOk(old(trace))
      ensures !old(store).daemonSet ==> !store.daemonSet
      ensures !old(store).externalName ==> !store.externalName
      ensures ok ==> Holds(store, updated)
      ensures Kept() && (AllOk(trace) && NoEdits(trace) && old(store).dns == Some(old(pc).dns) ==> ok)
    {
      Interfere(start);
      var o: Outcome := *;
      ghost var before := store;
      var conflict := Conflicts(store, updated);
      ProposedStep(State(store, pc), updated, o);
      PutHolds(store, updated);
      if Effective(o) && !conflict {
        store := Put(store, updated);
      }
      Record(start, before, o);
      ok := o.Ok? && !conflict;
    }

    method EnforceDnsFinalizer(ghost start: State, dns: Dns) returns (ok: bool)
      requires Follows(start) && pc == AfterBranch(dns)
      modifies this
      ensures Follows(start) && pc == if ok then GettingDaemonSet else Idle
      ensures Kept() && (AllOk(trace) ==> AllOk(old(trace)))
      ensures AllOk(trace) && (FINALIZER in dns.finalizers || (NoEdits(trace) && old(store).dns == Some(dns))) ==> ok
      ensures ok && NoEdits(trace) && old(store).dns == Some(dns) ==>
              store.dns.Some? && store.dns.value.finalizers == Watched(dns.finalizers)
    {
      var have := StringSlices.ContainsString(dns.finalizers, FINALIZER);
      ok := true;
      if !have {
        ok := UpdateFinalizers(start, dns.(finalizers := dns.finalizers + [FINALIZER]));
      }
    }

    /** Afterwards the daemonset exists, unless a call failed or somebody else deleted it. */
    method EnsureDns(ghost start: State) returns (ok: bool)
      requires Follows(start) && pc.GettingDaemonSet?
      modifies this
      ensures Follows(start) && pc == if ok then GettingExternalName else Idle
      ensures Kept() && (AllOk(trace) <==> AllOk(old(trace)) && ok)
      ensures ok && NoDeletions(trace) ==> store.daemonSet
      ensures NoEdits(trace) ==> store.dns == old(store).dns
    {
      ok := EnsureDaemonSet(start);
      var rest := Perform(start);
      ok := ok && rest;
    }

    method EnsureDaemonSet(ghost start: State) returns (ok: bool)
      requires Follows(start) && pc.GettingDaemonSet?
      modifies this
      ensures Follows(start) && pc == EnsuringTheRest(ok)
      ensures Kept() && (AllOk(trace) <==> AllOk(old(trace)) && ok)
      ensures ok ==> store.daemonSet
      ensures NoEdits(trace) ==> store.dns == old(store).dns
    {
      Interfere(start);
      var o: Outcome := *;
      Record(start, store, o);
      ok := o.Ok?;
      if ok && !store.daemonSet {
        Interfere(start);
        o := *;
        ghost var before := store;
        if Effective(o) {
          store := store.(daemonSet := true);
        }
        Record(start, before, o);
        ok := o.Ok?;
      }
    }

    /** Afterwards the service exists, unless a call failed. */
    method EnsureExternalName(ghost start: State) returns (ok: bool)
      requires Follows(start) && pc.GettingExternalName?
      modifies this
      ensures Follows(start) && pc.Idle?
      ensures Kept() && (AllOk(trace) <==> AllOk(old(trace)) && ok)
      ensures ok ==> store.externalName
      ensures NoEdits(trace) ==> store.dns == old(store).dns
    {
      Interfere(start);
      var o: Outcome := *;
      Record(start, store, o);
      ok := o.Ok?;
      if ok && !store.externalName {
        Interfere(start);
        o := *;
        ghost var before := store;
        if Effective(o) {
          store := store.(externalName := true);
        }
        Record(start, before, o);
        ok := o.Ok?;
      }
    }

    /** The branch for an object that is not being deleted. */
    method EnsureEverything(ghost start: State, dns: Dns) returns (ok: bool)
      requires Follows(start) && pc == AfterBranch(dns)
      modifies this
      ensures Follows(start) && pc.Idle? && Kept() && (AllOk(trace) ==> AllOk(old(trace)))
      ensures ok && NoDeletions(trace) ==> store.daemonSet && store.externalName
      ensures AllOk(trace) && (FINALIZER in dns.finalizers || (NoEdits(trace) && old(store).dns == Some(dns))) ==> ok
      ensures ok && NoEdits(trace) && old(store).dns == Some(dns) ==>
              store.dns.Some? && store.dns.value.finalizers == Watched(dns.finalizers)
    {
      ok := EnforceDnsFinalizer(start, dns);
      if ok {
        ok := EnsureDns(start);
        if ok {
          ok := EnsureExternalName(start);
        }
      }
    }

    /** The branch for an object that is being deleted; `clean` says that no call has failed before. */
    method DeleteEverything(ghost start: State, dns: Dns, clean: bool) returns (ok: bool)
      requires Follows(start) && pc == DeletingExternalName(dns, clean)
      modifies this
      ensures Follows(start) && pc.Idle?
      ensures (AllOk(trace) ==> AllOk(old(trace))) && (NoEdits(trace) ==> NoEdits(old(trace)))
      ensures AllOk(trace) ==> !store.daemonSet && !store.externalName
      ensures AllOk(trace) && NoEdits(trace) && old(store).dns == Some(dns) ==> ok
      ensures clean && ok && FINALIZER in dns.finalizers ==>
              Holds(store, dns.(finalizers := StringSlices.Without(dns.finalizers, FINALIZER)))
    {
      ok := DeleteExternalName(start);
      var gone := DeleteDaemonSet(start);
      ok := ok && gone;
      if clean && ok {
        var have := StringSlices.ContainsString(dns.finalizers, FINALIZER);
        if have {
          var rest := StringSlices.RemoveString(dns.finalizers, FINALIZER);
          ok := UpdateFinalizers(start, dns.(finalizers := rest));
        }
      }
    }

    /** The part of a pass after the object has been read and found to be managed. */
    method ReconcileManaged(ghost start: State, dns: Dns) returns (failed: bool)
      requires Follows(start) && pc == Scaffolding(dns)
      modifies this
      ensures Follows(start) && pc.Idle?
      ensures (AllOk(trace) ==> AllOk(old(trace))) && (NoEdits(trace) ==> NoEdits(old(trace)))
      ensures dns.deleting && AllOk(trace) ==> !store.daemonSet && !store.externalName
      ensures dns.deleting && !failed && FINALIZER in dns.finalizers ==>
              Holds(store, dns.(finalizers := StringSlices.Without(dns.finalizers, FINALIZER)))
      ensures !dns.deleting ==> Kept()
      ensures !dns.deleting && !failed && NoDeletions(trace) ==> store.daemonSet && store.externalName
      ensures !dns.deleting && !failed && NoEdits(trace) && old(store).dns == Some(dns) ==>
              store.dns.Some? && store.dns.value.finalizers == Watched(dns.finalizers)
      ensures AllOk(trace) && NoEdits(trace) && old(store).dns == Some(dns) ==> !failed
    {
      var clean := Perform(start);
      var ok;
      if dns.deleting {
        ok := DeleteEverything(start, dns, clean);
      } else {
        ok := EnsureEverything(start, dns);
      }
      failed := !clean || !ok;
    }

    /**
     One pass, however the other clients and the failures fall: it is a run of the
     protocol that starts and ends with the worker idle, so nothing is unguarded
     at any point of it. A deletion pass without failing calls has removed both
     resources. A pass over a live object that reports no failure has created both,
     unless somebody else deleted them, and it reports none when no call failed and
     nobody wrote the object.
     */
    method Reconcile() returns (read: Option<Dns>, failed: bool)
      requires pc.Idle? && Inv(State(store, pc))
      modifies this
      ensures pc.Idle? && Follows(State(old(store), Idle))
      ensures forall k :: 0 <= k <= |trace| ==> Safe(Run(State(old(store), Idle), trace[..k]).store)
      ensures AllOk(trace) && NoEdits(trace) ==> read == old(store).dns
      ensures read.Some? && read.value.managed && read.value.deleting && AllOk(trace) ==>
              !store.daemonSet && !store.externalName
      ensures !failed &&
              read.Some? && read.value.managed && read.value.deleting && FINALIZER in read.value.finalizers ==>
              Holds(store, read.value.(finalizers := StringSlices.Without(read.value.finalizers, FINALIZER)))
      ensures !failed && read.Some? && read.value.managed && !read.value.deleting && NoDeletions(trace) ==>
              store.daemonSet && store.externalName
      ensures !failed && read.Some? && read.value.managed && !read.value.deleting && NoEdits(trace) ==>
              store.dns.Some? && store.dns.value.finalizers == Watched(read.value.finalizers)
      ensures AllOk(trace) && NoEdits(trace) ==> !failed
    {
      ghost var start := State(store, Idle);
      trace := [];
      var ok;
      read, ok := GetDns(start);
      failed := !ok;
      if read.Some? && read.value.managed {
        var managed := ReconcileManaged(start, read.value);
        failed := failed || managed;
      }
      SafeThroughout(start, trace);
    }
  }

  lemma SafeThroughout(s: State, ls: seq<Label>)
    requires Inv(s)
    ensures forall k :: 0 <= k <= |ls| ==> Safe(Run(s, ls[..k]).store)
  {
    forall k | 0 <= k <= |ls|
      ensures Safe(Run(s, ls[..k]).store)
    {
      FinalizerGuardsResources(s, ls[..k]);
    }
  }
}

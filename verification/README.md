# A model of the cluster DNS operator in Dafny

The cluster DNS operator runs two reconcilers. The DNS controller turns a `DNS` object into a CoreDNS
daemonset, its Corefile, its services and copies of CA bundles, guards all that with a finalizer, and
reports status. The status controller summarises the `DNS` object in a `ClusterOperator`. Beside them, a
shell loop on every node keeps service addresses in the hosts file. All of it runs again and again
against state that others change and that calls may fail to reach.

This project models those parts and proves what they are for. State that the operator updates in place is
a class whose methods are proved against a specification function; each main law is then proved about the
specification, over all inputs, all runs or all reachable states. A failed API call may still have taken
effect on the server. Time is an integer that never goes back.

| file | subject |
|---|---|
| `FinalizerProtocol.dfy` | finalizer and deletion protocol, as a state machine and as `Reconcile` |
| `DnsStatus.dfy`, `Reconciliation.dfy`, `RetryableErrors.dfy` | status conditions with hold windows, retries, how a pass ends |
| `OperandVersions.dfy`, `MergeConditions.dfy`, `ClusterOperatorStatus.dfy`, `Conditions.dfy` | the second controller |
| `DaemonSets.dfy` | diff, merge and placement guard of the DNS daemonset |
| `Upstreams.dfy`, `TlsSettings.dfy`, `Corefile.dfy` | upstream resolvers, TLS settings, forward blocks of the Corefile |
| `CaBundles.dfy`, `CaSync.dfy` | CA bundle revisions, mounts and copies |
| `TopologyHints.dfy` | topology-aware hints and the node events that matter for them |
| `NodeResolver.dfy` | the hosts-file loop |
| `StringSlices.dfy`, `Kube.dfy`, `ApiCalls.dfy`, `Wrappers.dfy` | shared vocabulary |

## What the proofs show about the code

Laws that hold as one would hope are in the table below. In these places the code does something else than
one might expect; the members named say exactly when, and show an instance where that is not plain:

- A degraded operand is never written to the `DNS` status (`DegradedIsNotWritten`, `DegradedNeverPersisted`),
  so the `ClusterOperator` never reports `DNSDegraded` either (`DegradedNeverRollsUp`), although
  `computeOperatorDegradedCondition` is there to report it.
- The retry exit of a managed pass drops an earlier failure to set up the namespace (`RetryExit`,
  `FoundDegradedIff`, `ScaffoldingErrorIsDropped`).
- The readiness probe is copied by the index of the current container. For the two containers the operator
  expects, this goes wrong in exactly two ways (`AssetConvergesIff`). If a managed container stands behind two
  others and its probe differs, the index is out of range and every pass panics (`PanicsIff`, `CrashIff`,
  `SidecarInFrontPanics`). If the two names have changed places over command lines that agree index by index and
  a probe differs, the wrong probe is copied (`ExchangedNamesDoNotSettle`); the daemonset is then written on every
  pass when the wanted placement is safe, and once when it is not (`SecondPassWritesIff`, `PassesWriteIff`).
  Containers that merely come in another order, each with its own command line, are replaced as a whole and settle
  in one pass (`ReorderedConverges`).
- A message that prints tolerations holding a pointer changes whenever the pointer does, and is written again
  (`Quiescence`, `MovedPointersAreWritten`).
- While an upgrade is under way, an identical pass can write the `ClusterOperator` again, because its messages
  come in the order of a map iteration or because something reached is not news any more. It cannot exactly when a
  single version is pending and none has just been reached (`UpgradeSettlesIff`, `FirstRolloutIsRewritten`).
- System upstreams that differ only in port or address put `/etc/resolv.conf` in the Corefile twice
  (`TokensDistinctIffSystemUpstreamsAgree`, `SystemResolverListedTwice`).
- Deduplication reads a missing port as 53; over TLS, where it means 853, an endpoint can be lost
  (`TlsKeepsEndpointsIff`, `TlsEndpointLost`). The shipped CRD fills in port 53 and allows no port below 1
  (manifests/0000_70_dns-operator_00.crd.yaml:512-519), so this concerns specs that did not go through it.
- An upstream without a type passes the check that is to keep TLS away from the system resolver
  (`TlsReachesSystemResolverIff`, `UntypedUpstreamUnderTls`).
- Under a transport the operator does not know, a server name brings TLS lines without the `tls://` prefix
  (`PrefixIffServerName`, `UnknownTransport`). The CRD admits only the empty transport, `TLS` and `Cleartext`
  (manifests/0000_70_dns-operator_00.crd.yaml:460-463), so this too concerns specs that did not go through it.
- Two blocks that name the same bundle, of which a cleartext one may be one, produce the same volume name twice
  (`AllVolumesUniqueIff`, `SharedBundle`).
- The node watch ignores a changed zone label (`DroppedUpdateMattersIff`, `MissedMove`).
- After an iteration that gave up, the hosts loop keeps the addresses it had collected, since `unset` is skipped
  (`CarriesIffStalled`). The next iteration holds, and may write, an address that nobody told it exactly when a
  service that was answered in one of the iterations that gave up directly before is not answered now
  (`StaleInRunIff`, `StaleAddressIsWritten`).

## Model

| member | source | states |
|---|---|---|
| `StringSlices.RemoveString` | pkg/util/slice/slice.go:5-20 | removes every occurrence and nothing else, as specified by `Without` |
| `StringSlices.ContainsString` | pkg/util/slice/slice.go:22-29 | true if and only if the string is an element |
| `StringSlices.WithoutDistributes` | pkg/util/slice/slice.go:5-20 | removal works piecewise, so what is kept stays in order |
| `StringSlices.WithoutLosesOnlyThat` | pkg/util/slice/slice.go:5-20 | every other string keeps its multiplicity |
| `StringSlices.WithoutUndoesAppend` | pkg/util/slice/slice.go:5-20 | removing an appended new string is the identity |
| `FinalizerProtocol.StepKeepsInv` | pkg/operator/controller/controller.go:264-302 | every API call of the controller, however it ends, and every act of another client keeps the inductive invariant |
| `FinalizerProtocol.FinalizerGuardsResources` | pkg/operator/controller/controller.go:264-302 | in every run, the daemonset or the external-name service exists only while the DNS object exists and carries the finalizer |
| `FinalizerProtocol.OthersFrame` | pkg/operator/controller/controller.go:270-288 | what other clients do between two calls of a deletion pass brings no deleted resource back |
| `FinalizerProtocol.DeletionPass` | pkg/operator/controller/controller.go:269-288 | a deletion pass without failing calls, under any interference, removes both resources and then exactly the finalizer, or leaves an object that has moved on |
| `FinalizerProtocol.ConflictIffWritten` | pkg/operator/controller/controller.go:278-286 | the finalizer update of a deletion pass conflicts iff some other client wrote the object since it was read |
| `FinalizerProtocol.EnforceThenRelease` | pkg/operator/controller/controller.go:365-374 | adding and later removing the finalizer leaves the other finalizers, in order, as they were |
| `FinalizerProtocol.FailureKeepsFinalizer` | pkg/operator/controller/controller.go:264-287 | whichever call before it fails, a deletion pass stops short of dropping the finalizer |
| `FinalizerProtocol.EveryCallCounts` | pkg/operator/controller/controller.go:201-311 | every pass comes to an end, however its calls end |
| `FinalizerProtocol.CreationPass` | pkg/operator/controller/controller.go:288-302 | a pass over a managed live object, unhindered and with no failing call, ends after at most eight more calls with both resources in place; if nobody wrote the object, its finalizers are those read, followed by the controller's own if it was missing |
| `FinalizerProtocol.ApiServer.GetDns` | pkg/operator/controller/controller.go:213-225 | success returns the object as it is stored |
| `FinalizerProtocol.ApiServer.DeleteExternalName` | pkg/operator/controller/controller.go:346-362 | success means that the service is gone, and the call is one step of the protocol |
| `FinalizerProtocol.ApiServer.DeleteDaemonSet` | pkg/operator/controller/controller_dns_daemonset.go:72-85 | success means that the daemonset is gone; the finalizer is dropped next only if nothing failed so far |
| `FinalizerProtocol.ApiServer.UpdateFinalizers` | pkg/operator/controller/controller.go:278-286 | success stores exactly the given finalizers, or the object is gone with its last one; a conflict changes nothing |
| `FinalizerProtocol.ApiServer.EnforceDnsFinalizer` | pkg/operator/controller/controller.go:365-374 | goes on to create resources only once the finalizer is in place, at the end if it was missing; fails only if a call does or somebody wrote the object |
| `FinalizerProtocol.ApiServer.EnsureDns` | pkg/operator/controller/controller_dns_daemonset.go:45-68 | success means that the daemonset exists, unless somebody else deleted it, and no call failed |
| `FinalizerProtocol.ApiServer.EnsureExternalName` | pkg/operator/controller/controller.go:316-343 | success means that the service exists |
| `FinalizerProtocol.ApiServer.Reconcile` | pkg/operator/controller/controller.go:201-302 | a whole pass is a run of the protocol, safe at each of its points; without a failing call it has removed both resources of an object being deleted, and with no failure reported it has created both of a live one; it fails only if a call does or somebody wrote the object |
| `RetryableErrors.NewAggregate` | pkg/util/retryableerror/retryableerror.go:41-46 | keeps exactly the errors that are not nil, in order |
| `RetryableErrors.NewMaybeRetryableAggregate` | pkg/util/retryableerror/retryableerror.go:41-60 | nil, retryable with the least delay, or plain, as specified by `Combined` |
| `RetryableErrors.JoinAllMeaning` | pkg/util/retryableerror/retryableerror.go:35-60 | the verdict on a list: clean iff all nil, broken iff one is not retryable, otherwise the least delay |
| `RetryableErrors.CombinedVerdict` | pkg/util/retryableerror/retryableerror.go:41-60 | aggregation is a monoid homomorphism onto verdicts |
| `RetryableErrors.TreeVerdict` | pkg/util/retryableerror/retryableerror.go:41-60 | the verdict on a tree of aggregations is the verdict on its leaves |
| `RetryableErrors.NestedAggregation` | pkg/util/retryableerror/retryableerror.go:41-60 | for every tree: nil iff all leaves are, retryable iff some leaf is not nil and all those are retryable, and then with the least delay of any leaf |
| `RetryableErrors.AggregateKeepsErrors` | pkg/util/retryableerror/retryableerror.go:41-60 | every error is in the aggregate as often as it was given |
| `DnsStatus.FindOldConditions` | pkg/operator/controller/dns_status.go:60-73 | the last old condition of each kind |
| `DnsStatus.ComputeDnsStatusConditions` | pkg/operator/controller/dns_status.go:59-87 | the four conditions, the request to run again and the retryable error of one pass |
| `DnsStatus.DnsObject.SyncDnsStatus` | pkg/operator/controller/dns_status.go:29-51 | the persisted status, the write, the requeue and the error of one pass, whichever way the write ends |
| `DnsStatus.NeverDegradedWhileProgressing` | pkg/operator/controller/dns_status.go:153-177 | Degraded=True is computed only with Progressing=False |
| `DnsStatus.NoSilentOutage` | pkg/operator/controller/dns_status.go:128-177 | Available=False comes with Progressing=True or Degraded=True, or within the tolerance of Degraded=False |
| `DnsStatus.DegradedThreshold` | pkg/operator/controller/dns_status.go:128-151 | no degraded reason iff want > 0, have > 0 and have >= floor(9 * want / 10) |
| `DnsStatus.DegradedIsNotWritten` | pkg/operator/controller/dns_status.go:35-40 | a degraded operand leaves the persisted status alone and asks for a retry after the tolerance |
| `DnsStatus.RecentIff` | pkg/operator/controller/dns_status.go:340-352 | a transition is recent from when it happened until the tolerance has passed |
| `DnsStatus.AvailableSays` | pkg/operator/controller/dns_status.go:259-287 | Available=False iff there is no service address, no daemonset or no available pod, with exactly those reasons; True otherwise |
| `DnsStatus.UpgradeableSays` | pkg/operator/controller/dns_status.go:289-305 | Upgradeable=False iff the operator is unmanaged |
| `DnsStatus.ProgressingSays` | pkg/operator/controller/dns_status.go:196-255 | Progressing=False iff the operand is rolled out, by counts, selector, tolerations and service, or False is held; a requeue iff held while not rolled out |
| `DnsStatus.MissingIsNamed` | pkg/operator/controller/dns_status.go:200-236 | the message names exactly what is missing |
| `DnsStatus.LackIsNamed` | pkg/operator/controller/dns_status.go:207-235 | and exactly the daemonsets whose pods are not up to date, with the numbers |
| `DnsStatus.DegradedSays` | pkg/operator/controller/dns_status.go:119-178 | Degraded=True iff there is no address, no daemonset or too few pods, False is not held, and the operand is rolled out or Progressing=False is held |
| `DnsStatus.DegradedMessage` | pkg/operator/controller/dns_status.go:128-150 | the message says exactly what is wrong, with the numbers |
| `DnsStatus.SyncShows` | pkg/operator/controller/dns_status.go:29-51 | a pass that is not degraded and whose write takes effect leaves the address, the domain and the conditions it computed |
| `DnsStatus.StampedConditions` | pkg/operator/controller/dns_status.go:309-317 | each transition time is kept while its status is, and otherwise lies within the pass |
| `DnsStatus.ProgressingWaits` | pkg/operator/controller/dns_status.go:237-254 | Progressing turns from False to True only after strictly more than the tolerance |
| `DnsStatus.SyncAdvances` | pkg/operator/controller/dns_status.go:29-51 | what one pass may do to the persisted conditions, whichever way its write ends |
| `DnsStatus.RunIsHistory` | pkg/operator/controller/dns_status.go:29-51 | every run keeps all transition times in the past and moves by such steps |
| `DnsStatus.HoldOnEveryRun` | pkg/operator/controller/dns_status.go:237-254 | in every run: no flip to Progressing=True before more than the tolerance, no transition time moved without its status |
| `DnsStatus.FlappingIsRateLimited` | pkg/operator/controller/dns_status.go:237-254 | in every run, k flips to Progressing=True take at least k - 1 tolerances |
| `DnsStatus.SuppressedPassKeepsProgressing` | pkg/operator/controller/dns_status.go:237-247 | a suppressed pass keeps the persisted Progressing and asks to run again |
| `DnsStatus.BoundedHold` | pkg/operator/controller/dns_status.go:237-247 | of passes spaced by the requeue they ask for, at most two in a row are suppressed; the third computes Progressing=True |
| `DnsStatus.NoThirdSuppression` | pkg/operator/controller/dns_status.go:237-247 | in every run of passes spaced by the requeue delay, no three passes in a row are suppressed |
| `DnsStatus.DegradedNeverPersisted` | pkg/operator/controller/dns_status.go:35-40 | in every run that does not start degraded, the persisted status never is |
| `DnsStatus.NotesAgain` | pkg/operator/controller/dns_status.go:200-236 | the messages about an unchanged operand differ iff a printed pointer moved |
| `DnsStatus.Quiescence` | pkg/operator/controller/dns_status.go:29-51 | after a pass with no hold in force, an identical later pass writes iff a printed pointer moved |
| `DnsStatus.MovedPointersAreWritten` | pkg/operator/controller/dns_status.go:220-224 | kept tolerations with seconds: the second of two equal passes writes because a pointer moved |
| `Reconciliation.SyncErrorKinds` | pkg/operator/controller/dns_status.go:35-49 | the status error is retryable iff the operand was found degraded, and then asks for the tolerance |
| `Reconciliation.CollectedVerdict` | pkg/operator/controller/controller.go:613-622 | collected errors stay retryable iff the status error is and there is no other |
| `Reconciliation.FoundDegradedIff` | pkg/operator/controller/dns_status.go:128-177 | found degraded iff there is a reason, Degraded=False is not held, and the operand is ready or Progressing=False is held |
| `Reconciliation.RetriedWhen` | pkg/operator/controller/controller.go:290-301 | the retry exit is taken iff the status error is retryable and nothing else failed |
| `Reconciliation.RetryExit` | pkg/operator/controller/controller.go:290-301 | the retry exit is taken iff the operand was found degraded and nothing else failed; then no status write, no error and a requeue after the tolerance |
| `Reconciliation.UnavailableIsDegraded` | pkg/operator/controller/dns_status.go:140-144 | an operand rolled out as wanted without an available pod is found degraded |
| `Reconciliation.ScaffoldingErrorIsDropped` | pkg/operator/controller/controller.go:264-296 | in that case any failure to set up the namespace is lost in the retry exit |
| `Reconciliation.UnmanagedDegradedFails` | pkg/operator/controller/controller.go:237-261 | while unmanaged the same finding is an error of the pass and nothing is written |
| `Reconciliation.ManagedPassFailsIff` | pkg/operator/controller/controller.go:264-310 | a managed pass that is not retried fails iff the namespace, any step, the status or the service failed |
| `Reconciliation.FailureIsReported` | pkg/operator/controller/controller.go:264-310 | and its error holds what failed |
| `Reconciliation.UnmanagedPassFailsIff` | pkg/operator/controller/controller.go:237-262 | an unmanaged pass fails iff something could not be read or the status could not be synced |
| `Reconciliation.RequeueSays` | pkg/operator/controller/dns_status.go:237-247 | a requeue after the tolerance iff the pass was suppressed |
| `Conditions.LastOfEqual` | pkg/util/conditions/conditions.go:25-32 | lists that compare equal have the same last condition of each kind |
| `OperandVersions.ComputeOldVersions` | pkg/operator/controller/status/controller.go:540-547 | the list as a map, later entries winning |
| `OperandVersions.ComputeOperatorStatusVersions` | pkg/operator/controller/status/controller.go:368-376 | lists each entry of the map once, in an order that is left open |
| `OperandVersions.VersionsRoundTrip` | pkg/operator/controller/status/controller.go:540-547 | map to list to map is the identity, whatever the order |
| `OperandVersions.UpdateAvailableFromPod` | pkg/operator/controller/status/controller.go:577-587 | adds, for each operand, the number of the pod's containers at the new version |
| `OperandVersions.CountPods` | pkg/operator/controller/status/controller.go:588-600 | adds these over the available pods only |
| `OperandVersions.ComputeCurrentVersions` | pkg/operator/controller/status/controller.go:561-626 | which versions are taken from the new release, by the counts |
| `OperandVersions.PodsCounted` | pkg/operator/controller/status/controller.go:569-600 | the loops count the containers named for an operand that run the new image in available pods |
| `OperandVersions.CurrentVersionsSay` | pkg/operator/controller/status/controller.go:561-626 | for every roll-out, which of the four versions are new and which are kept, by the numbers of containers called `dns`, `kube-rbac-proxy` and `dns-node-resolver` |
| `OperandVersions.RolloutCompletes` | pkg/operator/controller/status/controller.go:603-618 | once as many pods as wanted run the new images, all four versions are at their targets |
| `OperandVersions.RolloutWaits` | pkg/operator/controller/status/controller.go:603-609 | with too few containers of either name, both DNS versions and the operator's stay |
| `OperandVersions.DnsVersionsMoveTogether` | pkg/operator/controller/status/controller.go:603-609 | in every run, coredns and kube-rbac-proxy are both taken from the new release or both kept |
| `OperandVersions.TargetIsNeverLeft` | pkg/operator/controller/status/controller.go:561-626 | in every run with fixed targets, a version that has reached its target stays there |
| `OperandVersions.OperatorVersionIsHonest` | pkg/operator/controller/status/controller.go:615-618 | in every run that starts so, the operator at its target means all operands at theirs |
| `OperandVersions.MissingDaemonSetsAreLevel` | pkg/operator/controller/status/controller.go:603-618 | without daemonsets every version jumps to its target |
| `OperandVersions.ListingsCompareEqual` | pkg/operator/controller/status/controller.go:684-710 | two listings of one map compare equal whatever their orders |
| `OperandVersions.SameVersionsSameMap` | pkg/operator/controller/status/controller.go:684-710 | lists that compare equal mean the same map |
| `OperandVersions.CurrentVersionsSettle` | pkg/operator/controller/status/controller.go:561-626 | a second look at the same pods changes no version |
| `MergeConditions.MergeInto` | pkg/operator/controller/status/controller.go:659-674 | edits in place the first condition of the kind and no other |
| `MergeConditions.Merge` | pkg/operator/controller/status/controller.go:655-679 | the edited array and the returned one, as specified by `Merged` |
| `MergeConditions.MergeKeepsTheRest` | pkg/operator/controller/status/controller.go:655-679 | order and unrelated conditions are kept; a transition time moves iff its status does |
| `MergeConditions.MergeKeepsKindsDistinct` | pkg/operator/controller/status/controller.go:655-679 | distinct kinds stay distinct |
| `MergeConditions.MergeReflects` | pkg/operator/controller/status/controller.go:655-679 | afterwards the list says what every update says |
| `MergeConditions.MergeOfReflected` | pkg/operator/controller/status/controller.go:655-679 | merging what is already said changes nothing |
| `MergeConditions.MergeKeepsReflected` | pkg/operator/controller/status/controller.go:655-679 | a later merge of other kinds does not disturb it |
| `ClusterOperatorStatus.IsUpgrading` | pkg/operator/controller/status/controller.go:522-536 | upgrading iff some current version differs from its target; the messages of some order of the names, reached before pending for each |
| `ClusterOperatorStatus.ProducedAreDue` | pkg/operator/controller/status/controller.go:526-535 | whatever the order, the messages are exactly the due ones |
| `ClusterOperatorStatus.ComputeOperatorDegradedCondition` | pkg/operator/controller/status/controller.go:425-460 | the Degraded condition by existence, upgrade and reported conditions |
| `ClusterOperatorStatus.ComputeOperatorProgressingCondition` | pkg/operator/controller/status/controller.go:464-518 | the Progressing condition, its reasons and its messages |
| `ClusterOperatorStatus.DegradedRollsUpAlone` | pkg/operator/controller/status/controller.go:425-536 | from any computed DNS conditions, Degraded=True is reported only with Progressing=False and no version under way |
| `ClusterOperatorStatus.DegradedNeverRollsUp` | pkg/operator/controller/status/controller.go:425-460 | in every run of the DNS controller that does not start degraded, Degraded=True is never reported while the DNS exists |
| `ClusterOperatorStatus.MergeSummary` | pkg/operator/controller/status/controller.go:195-208 | the in-place merges never reach the deep-copied old status |
| `ClusterOperatorStatus.ClusterOperator.Reconcile` | pkg/operator/controller/status/controller.go:186-214 | the new status, a write iff it differs from the old one, and afterwards a status that compares equal to what was computed unless a write failed |
| `ClusterOperatorStatus.SummaryIsReflected` | pkg/operator/controller/status/controller.go:202-208 | after both merges the list says what each of the four computed conditions says |
| `ClusterOperatorStatus.SaysAvailable` | pkg/operator/controller/status/controller.go:629-650 | after a pass, Available=True iff the DNS exists and reports it; with the reason |
| `ClusterOperatorStatus.SaysDegraded` | pkg/operator/controller/status/controller.go:425-460 | Degraded=True iff there is no DNS, or it reports it while no version is under way |
| `ClusterOperatorStatus.SaysProgressing` | pkg/operator/controller/status/controller.go:464-518 | when Progressing is True, False and Unknown, by existence, the first report and the versions |
| `ClusterOperatorStatus.ProgressingReasons` | pkg/operator/controller/status/controller.go:464-518 | each reason stands there iff it holds |
| `ClusterOperatorStatus.SaysUpgradeable` | pkg/operator/controller/status/controller.go:389-421 | Upgradeable=False iff the last report of the DNS is not True |
| `ClusterOperatorStatus.EndToEnd` | pkg/operator/controller/status/controller.go:186-214 | from an observation of the operand to the ClusterOperator: available iff there is an address and an available pod, upgradeable iff managed, progressing iff a version is under way or the DNS progresses |
| `ClusterOperatorStatus.VersionsSettle` | pkg/operator/controller/status/controller.go:186-214 | a second pass finds the same current versions and an equal listing |
| `ClusterOperatorStatus.ConditionsSettle` | pkg/operator/controller/status/controller.go:186-214 | merging the same summary again changes nothing |
| `ClusterOperatorStatus.CoQuiescence` | pkg/operator/controller/status/controller.go:186-214 | after a pass that is not upgrading, an identical later pass writes nothing |
| `ClusterOperatorStatus.UpgradingWritesIff` | pkg/operator/controller/status/controller.go:522-536 | while upgrading, an identical later pass writes iff its messages differ from the persisted ones |
| `ClusterOperatorStatus.NeverBoth` | pkg/operator/controller/status/controller.go:561-626 | no name is reported both as reached and as pending |
| `ClusterOperatorStatus.NoNewsTwice` | pkg/operator/controller/status/controller.go:526-530 | a second look starts from the versions it finds, so nothing is news any more |
| `ClusterOperatorStatus.OtherMessages` | pkg/operator/controller/status/controller.go:526-535 | unless a single version is pending and none just reached, a later look can produce other messages |
| `ClusterOperatorStatus.UpgradeSettlesIff` | pkg/operator/controller/status/controller.go:186-214 | during an upgrade, no identical later pass writes iff a single version is pending and none has just been reached |
| `ClusterOperatorStatus.SingleNewsIffOneMessage` | pkg/operator/controller/status/controller.go:522-536 | that is, iff the first pass reported one message |
| `ClusterOperatorStatus.FirstRolloutIsRewritten` | pkg/operator/controller/status/controller.go:526-535 | a first roll-out whose second pass writes again |
| `DaemonSets.Lookup` | pkg/operator/controller/controller_dns_daemonset.go:423-441 | the first container of a name: index, image and probe, with the defaults for a missing one |
| `DaemonSets.AnyCommandLineDiffers` | pkg/operator/controller/controller_dns_daemonset.go:493-516 | true iff the lists differ in length or in some command, arguments or mounts |
| `DaemonSets.MergeNamedContainer` | pkg/operator/controller/controller_dns_daemonset.go:418-457 | image and probe of one container, including the index out of range |
| `DaemonSets.MergeNamedContainers` | pkg/operator/controller/controller_dns_daemonset.go:418-458 | both named containers in turn |
| `DaemonSets.MergeManagedAnnotations` | pkg/operator/controller/controller_dns_daemonset.go:461-474 | the two managed annotations are set or removed as expected, and reported iff they differed |
| `DaemonSets.MergeManagedFields` | pkg/operator/controller/controller_dns_daemonset.go:404-522 | all managed fields but the containers, and whether one differed |
| `DaemonSets.DaemonsetConfigChanged` | pkg/operator/controller/controller_dns_daemonset.go:404-522 | the whole diff, as specified by `ConfigDiff` |
| `DaemonSets.UnchangedMeansAgreement` | pkg/operator/controller/controller_dns_daemonset.go:404-522 | unchanged iff all managed fields agree and no managed image is empty |
| `DaemonSets.UnchangedSays` | pkg/operator/controller/controller_dns_daemonset.go:404-522 | unchanged iff each managed field is as expected, field by field and default by default |
| `DaemonSets.UpdatedSays` | pkg/operator/controller/controller_dns_daemonset.go:404-522 | after a change, each managed field but the containers is as expected |
| `DaemonSets.VolumesAlikeIff` | pkg/operator/controller/controller_dns_daemonset.go:526-576 | volumes compare equal iff they agree up to a default mode of 420 |
| `DaemonSets.UnmanagedIsUntouched` | pkg/operator/controller/controller_dns_daemonset.go:404-522 | metadata, selector, unmanaged annotations and other fields are never changed |
| `DaemonSets.PanicsIff` | pkg/operator/controller/controller_dns_daemonset.go:442-457 | the diff panics iff a probe differs and its container stands beyond the expected list, and the loop gets that far |
| `DaemonSets.MergeBothEffect` | pkg/operator/controller/controller_dns_daemonset.go:418-458 | names and command lines stay, images become as expected, and a probe does iff it lands |
| `DaemonSets.FixedPointIffConverges` | pkg/operator/controller/controller_dns_daemonset.go:404-522 | a reported change is a fixed point iff expected images are set and no probe is copied from the wrong index |
| `DaemonSets.OneStepIffConverges` | pkg/operator/controller/controller_dns_daemonset.go:404-522 | for every two daemonsets: no panic and nothing left to do after one application iff images are set, no index is out of range and no probe is misplaced |
| `DaemonSets.AlignedConverges` | pkg/operator/controller/controller_dns_daemonset.go:418-458 | aligned containers with images never panic and always converge |
| `DaemonSets.MisalignedIsRewrittenForEver` | pkg/operator/controller/controller_dns_daemonset.go:448-457 | where it does not converge, every further application of the diff reports a change and yields the same daemonset |
| `DaemonSets.AssetIsShaped` | pkg/manifests/assets/dns/daemonset.yaml:14-77 | the operator's two containers: names in this order, different command lines and probes |
| `DaemonSets.AssetConvergesIff` | pkg/operator/controller/controller_dns_daemonset.go:418-458 | for the operator's containers: the diff panics iff a managed container stands behind two others with another probe; one application falls short iff it panics or the names are exchanged over equal command lines and a probe differs |
| `DaemonSets.SidecarInFrontPanics` | pkg/operator/controller/controller_dns_daemonset.go:454-454 | over the operator's own list, any container in front and any other probe for which the diff panics |
| `DaemonSets.ReorderedConverges` | pkg/operator/controller/controller_dns_daemonset.go:493-516 | containers in the other order, each with its command line, are replaced as a whole and settle in one pass |
| `DaemonSets.ExchangedNamesDoNotSettle` | pkg/operator/controller/controller_dns_daemonset.go:454-454 | over the operator's own list, exchanged names for which the diff does not settle |
| `DaemonSets.TolerationsTolerateTaints` | pkg/operator/controller/controller_dns_daemonset.go:386-400 | true iff each taint is tolerated by some toleration |
| `Kube.BlanketToleration` | pkg/operator/controller/controller_dns_daemonset.go:386-400 | Exists without key and effect tolerates everything |
| `Kube.KeyToleration` | pkg/operator/controller/controller_dns_daemonset.go:386-400 | Exists with a key tolerates that key, whatever its value |
| `Kube.ValueToleration` | pkg/operator/controller/controller_dns_daemonset.go:386-400 | Equal asks for key, value and effect |
| `Kube.UnknownOperator` | pkg/operator/controller/controller_dns_daemonset.go:386-400 | other operators tolerate nothing |
| `DaemonSets.DaemonsetUpdateIsSafe` | pkg/operator/controller/controller_dns_daemonset.go:329-383 | safe, unsafe or undecided, by pods, selectors and schedulable nodes |
| `DaemonSets.UpdateDnsDaemonSet` | pkg/operator/controller/controller_dns_daemonset.go:297-324 | what is written, skipped or failed, as specified by `Update` |
| `DaemonSets.PlacementSafety` | pkg/operator/controller/controller_dns_daemonset.go:297-383 | every write keeps the placement, or fits a schedulable node, or replaces a daemonset without pods or valid selector |
| `DaemonSets.GuardSays` | pkg/operator/controller/controller_dns_daemonset.go:329-383 | safe iff the pod selector is invalid, there are no pods, or a listed node is schedulable, has every label and has its taints tolerated; undecided iff a needed list could not be read |
| `DaemonSets.PlacementIsRolledOutIff` | pkg/operator/controller/controller_dns_daemonset.go:297-324 | the wanted placement is written exactly in those cases, and otherwise the current one is kept |
| `DaemonSets.UnsafeSkipsIff` | pkg/operator/controller/controller_dns_daemonset.go:305-315 | with an unsafe placement, nothing is written iff every other managed field is already as desired |
| `DaemonSets.UnsafePathConverges` | pkg/operator/controller/controller_dns_daemonset.go:303-321 | whatever is written, all managed fields but the placement are as desired |
| `DaemonSets.WrittenIsStable` | pkg/operator/controller/controller_dns_daemonset.go:297-324 | over the same nodes and pods, what was written is not written again |
| `DaemonSets.CrashIff` | pkg/operator/controller/controller_dns_daemonset.go:297-324 | a pass panics iff the index is out of range, whatever the nodes and pods |
| `DaemonSets.SecondPassWritesIff` | pkg/operator/controller/controller_dns_daemonset.go:297-324 | the pass after a writing one writes iff it has not converged and the placement is safe or an expected image is missing |
| `DaemonSets.PassesWriteIff` | pkg/operator/controller/controller_dns_daemonset.go:297-324 | of any number of passes over the same nodes and pods, a later one writes iff the first did and that condition holds |
| `DaemonSets.RepeatedPassesWriteNothing` | pkg/operator/controller/controller_dns_daemonset.go:297-324 | in all other cases at most the first pass writes and the daemonset stays what it left |
| `Upstreams.ContainsUpstream` | pkg/operator/controller/controller_dns_configmap.go:417-424 | true iff some upstream in the list counts as the same |
| `Upstreams.EquivSays` | pkg/operator/controller/controller_dns_configmap.go:417-450 | two upstreams count as the same iff they agree up to letter case, the default type and port 53 |
| `Upstreams.DesiredUpstreams` | pkg/operator/controller/controller_dns_configmap.go:172-199 | the rendered list, the default for an empty one, or the error for a network upstream without an address |
| `Upstreams.ResolversSay` | pkg/operator/controller/controller_dns_configmap.go:172-199 | the system resolver for an empty list; an error iff a network upstream has no address |
| `Upstreams.DedupCovers` | pkg/operator/controller/controller_dns_configmap.go:187-198 | everything kept was given, and everything given has an equivalent that was kept |
| `Upstreams.DedupKeepsFirstOccurrences` | pkg/operator/controller/controller_dns_configmap.go:187-198 | kept are exactly the first occurrences, in order |
| `Upstreams.DedupIsPairwiseDifferent` | pkg/operator/controller/controller_dns_configmap.go:187-198 | no two kept upstreams count as the same |
| `Upstreams.DecimalRoundTrip` | pkg/operator/controller/controller_dns_configmap.go:357-357 | printed ports read back |
| `Upstreams.TokenRoundTrip` | pkg/operator/controller/controller_dns_configmap.go:350-363 | every network token reads back as its folded address and its port, bracketed or not |
| `Upstreams.NetworkTokenIsNotAFile` | pkg/operator/controller/controller_dns_configmap.go:350-363 | a network token is never the path of the system resolver's file |
| `Upstreams.SameTokenSameUpstream` | pkg/operator/controller/controller_dns_configmap.go:350-363 | two network upstreams print alike iff folded addresses and literal ports agree |
| `Upstreams.NetworkTokensAreDistinct` | pkg/operator/controller/controller_dns_configmap.go:183-199 | network tokens of the rendered list are pairwise distinct |
| `Upstreams.CleartextKeepsEndpoints` | pkg/operator/controller/controller_dns_configmap.go:183-199 | over cleartext, the tokens read back as exactly the spec's endpoints |
| `Upstreams.TokensDistinctIffSystemUpstreamsAgree` | pkg/operator/controller/controller_dns_configmap.go:183-199 | all tokens are distinct iff no two system upstreams differ in ignored fields |
| `Upstreams.SystemResolverListedTwice` | pkg/operator/controller/controller_dns_configmap.go:362-362 | a spec whose rendered list repeats the file |
| `Upstreams.TlsKeepsEndpoint` | pkg/operator/controller/controller_dns_configmap.go:436-446 | over TLS, when one upstream's endpoint is still rendered |
| `Upstreams.TlsKeepsEndpointsIff` | pkg/operator/controller/controller_dns_configmap.go:436-446 | over TLS, exactly when all endpoints are |
| `Upstreams.TlsEndpointLost` | pkg/operator/controller/controller_dns_configmap.go:436-446 | a pair of upstreams, at any address, of which one endpoint is lost |
| `TlsSettings.AllIPs` | pkg/operator/controller/controller_dns_configmap.go:271-279 | true iff all upstreams are IP addresses |
| `TlsSettings.HasSystemResolver` | pkg/operator/controller/controller_dns_configmap.go:305-309 | true iff some upstream is spelled out as the system resolver |
| `TlsSettings.CheckServer` | pkg/operator/controller/controller_dns_configmap.go:263-280 | the fault of one server, if any |
| `TlsSettings.CheckResolving` | pkg/operator/controller/controller_dns_configmap.go:292-310 | the fault of the default resolvers, if any |
| `TlsSettings.SanitizeServers` | pkg/operator/controller/controller_dns_configmap.go:262-291 | every server before the first refused one is cleaned up, and its fault is reported |
| `TlsSettings.SanitizeTlsSettings` | pkg/operator/controller/controller_dns_configmap.go:260-324 | the first fault in order, or the cleaned-up copy; on a fault, how far the copy got |
| `TlsSettings.AcceptedMeans` | pkg/operator/controller/controller_dns_configmap.go:260-324 | accepted iff wherever TLS is on there is a server name and no forbidden upstream |
| `TlsSettings.FaultSays` | pkg/operator/controller/controller_dns_configmap.go:262-280 | which fault of which server is reported |
| `TlsSettings.ResolvingFaultSays` | pkg/operator/controller/controller_dns_configmap.go:292-310 | which fault of the default resolvers is reported |
| `TlsSettings.SanitizingKeepsTheRest` | pkg/operator/controller/controller_dns_configmap.go:281-323 | of servers and default resolvers alike, other fields, bundles and everything under TLS stay; what changes is cleartext without a server name |
| `TlsSettings.SanitizingIsIdempotent` | pkg/operator/controller/controller_dns_configmap.go:260-324 | sanitising again succeeds and changes nothing |
| `Corefile.DesiredDnsConfigMap` | pkg/operator/controller/controller_dns_configmap.go:162-238 | the forward blocks of a DNS, or the reason why there are none |
| `Corefile.GenerateFailsIff` | pkg/operator/controller/controller_dns_configmap.go:162-199 | there is no Corefile iff a transport is refused or a network upstream has no address |
| `Corefile.ServersSay` | pkg/operator/controller/controller_dns_configmap.go:45-62 | each server block is rendered from that server's own upstreams, transport, policy and protocol |
| `Corefile.RenderSays` | pkg/operator/controller/controller_dns_configmap.go:45-62 | targets, policy and protocol lines |
| `Corefile.TlsLinesSay` | pkg/operator/controller/controller_dns_configmap.go:51-56 | the server name and CA path lines, and when they are there |
| `Corefile.DefaultConfiguration` | pkg/operator/controller/controller_dns_configmap.go:172-203 | without upstreams and policy, queries go in sequence to the system resolver |
| `Corefile.RenderedIsCoherentIff` | pkg/operator/controller/controller_dns_configmap.go:50-56 | for one block, when prefix and server name go together |
| `Corefile.PrefixIffServerName` | pkg/operator/controller/controller_dns_configmap.go:45-106 | in every generated Corefile each block has `tls://` prefixes iff it has `tls_servername`, except exactly under an unknown transport with a server name |
| `Corefile.UnknownTransport` | pkg/operator/controller/controller_dns_configmap.go:286-290 | a server of that kind |
| `Corefile.TlsReachesSystemResolverIff` | pkg/operator/controller/controller_dns_configmap.go:299-309 | an accepted TLS configuration forwards to the system resolver's file iff some upstream has a type that is neither spelled out |
| `Corefile.UntypedUpstreamUnderTls` | pkg/operator/controller/controller_dns_configmap.go:305-309 | one upstream without a type, under TLS with any server name, is accepted and rendered as the file |
| `CaBundles.CaBundleRevisionMap` | pkg/operator/controller/controller.go:631-664 | the revisions of the bundles that could be read |
| `CaBundles.RevisionsMeaning` | pkg/operator/controller/controller.go:631-664 | the keys are exactly the bundles TLS refers to and that could be read; the last reading wins |
| `CaBundles.RevisionsSay` | pkg/operator/controller/controller.go:631-664 | a bundle has a revision iff some TLS transport names it and it could be read |
| `CaBundles.MountSays` | pkg/operator/controller/controller_dns_daemonset.go:223-252 | names, projection and path of volume and mount |
| `CaBundles.CaPathIsRendered` | pkg/operator/controller/controller_dns_configmap.go:51-56 | a TLS server whose bundle could be read gets its path |
| `CaBundles.CaBundleVolAndMount` | pkg/operator/controller/controller_dns_daemonset.go:223-252 | volume and mount of one bundle, if it has a revision |
| `CaBundles.AddCaVolumes` | pkg/operator/controller/controller_dns_daemonset.go:134-151 | what is appended to the asset's volumes and mounts |
| `CaBundles.CaPathIsMounted` | pkg/operator/controller/controller_dns_daemonset.go:132-151 | every CA path in the Corefile lies in a mount backed by a volume of the matching configmap that projects the bundle file |
| `CaBundles.VolumesUniqueIff` | pkg/operator/controller/controller_dns_daemonset.go:139-147 | volume names are unique iff no bundle is shared |
| `CaBundles.AllVolumesUniqueIff` | pkg/operator/controller/controller_dns_daemonset.go:132-151 | the same of the asset's volumes together with those of the bundles |
| `CaBundles.AssetVolumes` | pkg/manifests/assets/dns/daemonset.yaml:80-90 | the asset's volumes have unique names, none of which is that of a copy |
| `CaBundles.SharedBundle` | pkg/operator/controller/controller_dns_daemonset.go:136-147 | any two transports with one bundle, TLS or not, repeat the volume |
| `CaBundles.PathIsUnambiguous` | pkg/operator/controller/controller.go:625-630 | equal mount paths come from equal server name and bundle |
| `CaBundles.PathsUniqueIff` | pkg/operator/controller/controller.go:625-630 | mount paths are unique iff no two transports share server name and bundle |
| `CaSync.ReferencedBundles` | pkg/operator/controller/controller_cabundle_configmap.go:47-57 | the bundles referred to under TLS, in order |
| `CaSync.NamesSay` | pkg/operator/controller/controller_cabundle_configmap.go:47-57 | the bundles looked after are those named under TLS |
| `CaSync.ReferredInDns` | pkg/operator/controller/controller_cabundle_configmap.go:126-133 | true iff the configmap is the copy of a referred bundle |
| `CaSync.Reconciler.SyncBundle` | pkg/operator/controller/controller_cabundle_configmap.go:60-112 | one bundle: copies, write calls and errors, however each call ends |
| `CaSync.Reconciler.EnsureCaBundleConfigMaps` | pkg/operator/controller/controller_cabundle_configmap.go:46-146 | a whole pass, as specified by `Pass` |
| `CaSync.CleanAllFrame` | pkg/operator/controller/controller_cabundle_configmap.go:125-143 | however stale the listing, cleaning up never touches a referred copy; without errors it removes every other listed one |
| `CaSync.PassSettles` | pkg/operator/controller/controller_cabundle_configmap.go:46-146 | after an error-free pass over a fresh cache, labelled copies are all referred to and every copy with a source has its data |
| `CaSync.SettledIsQuiet` | pkg/operator/controller/controller_cabundle_configmap.go:190-207 | from there a pass makes no write call, whichever reads fail |
| `CaSync.SecondPassWritesNothing` | pkg/operator/controller/controller_cabundle_configmap.go:46-146 | the second of two passes makes no write call |
| `CaSync.QuietIffSettled` | pkg/operator/controller/controller_cabundle_configmap.go:46-146 | an error-free pass over a fresh cache makes no write call iff the copies were settled |
| `CaSync.PassFrame` | pkg/operator/controller/controller_cabundle_configmap.go:46-146 | no pass deletes or relabels a referred copy, or touches a configmap that is neither referred to nor listed |
| `CaSync.CopyStaysWhileReferred` | pkg/operator/controller/controller_cabundle_configmap.go:125-143 | over every run, a copy stays while its bundle is referred to |
| `CaSync.PassLabels` | pkg/operator/controller/controller_cabundle_configmap.go:158-165 | every copy a pass creates is labelled, whatever fails |
| `CaSync.NothingIsLeftBehind` | pkg/operator/controller/controller_cabundle_configmap.go:114-143 | after any run and one clean pass over a fresh cache, only copies that are referred to are left |
| `CaSync.NoFailureNoError` | pkg/operator/controller/controller_cabundle_configmap.go:46-146 | a pass without failing calls reports no error |
| `CaSync.ListFailureRemovesNothing` | pkg/operator/controller/controller_cabundle_configmap.go:122-124 | without a listing nothing is cleaned up, and that is an error |
| `CaSync.FailedReadTouchesNothing` | pkg/operator/controller/controller_cabundle_configmap.go:65-80 | a copy that could not be read is left alone, and that is an error |
| `CaSync.CaPathShowsTheSource` | pkg/operator/controller/controller_cabundle_configmap.go:41-46 | once settled, the configmap behind every CA path in the Corefile has the data of the user's bundle |
| `TopologyHints.NodeIsReady` | pkg/operator/controller/controller_dns_service.go:141-148 | the first Ready condition decides |
| `TopologyHints.ScanNodes` | pkg/operator/controller/controller_dns_service.go:98-109 | all machines that count are valid and they span at least two zones |
| `TopologyHints.ShouldEnableTopologyAwareHints` | pkg/operator/controller/controller_dns_service.go:93-110 | the same of the listed nodes; a failed listing is an error and enables nothing |
| `TopologyHints.OrderDoesNotMatter` | pkg/operator/controller/controller_dns_service.go:93-110 | the decision does not depend on the order of the nodes |
| `TopologyHints.HintsSay` | pkg/operator/controller/controller_dns_service.go:93-148 | hints are on iff every ready node outside the control plane has CPU and a zone, and two of them are in different zones |
| `TopologyHints.PassesSays` | pkg/operator/controller/controller.go:131-151 | which node events lead to a pass |
| `TopologyHints.DroppedEventsDoNotMatter` | pkg/operator/controller/controller.go:131-151 | a dropped creation, removal or update within the zone leaves the decision as it was |
| `TopologyHints.DecisionStaysRight` | pkg/operator/controller/controller.go:126-151 | so does every run of them |
| `TopologyHints.DroppedUpdateMattersIff` | pkg/operator/controller/controller.go:138-147 | exactly when a dropped update makes the decision stale |
| `TopologyHints.MissedMove` | pkg/operator/controller/controller.go:138-147 | a dropped update that does, between any two zones |
| `NodeResolver.Updater.Lookup` | pkg/manifests/assets/node-resolver/update-node-resolver.sh:25-36 | the first attempt that succeeds and prints something |
| `NodeResolver.AnswerSays` | pkg/manifests/assets/node-resolver/update-node-resolver.sh:25-36 | the answer is that of the first of four attempts that succeeds and prints something |
| `NodeResolver.Updater.CollectAddresses` | pkg/manifests/assets/node-resolver/update-node-resolver.sh:19-37 | answers override what was kept, service by service |
| `NodeResolver.Updater.AppendEntries` | pkg/manifests/assets/node-resolver/update-node-resolver.sh:51-56 | the temporary file and the sticky failure after all appends |
| `NodeResolver.Updater.RunOnce` | pkg/manifests/assets/node-resolver/update-node-resolver.sh:18-70 | one iteration, whichever of its commands fail |
| `NodeResolver.EntryIsMarked` | pkg/manifests/assets/node-resolver/update-node-resolver.sh:54-54 | every appended line carries the marker |
| `NodeResolver.EntryReads` | pkg/manifests/assets/node-resolver/update-node-resolver.sh:54-54 | a line reads as address, service, service in the cluster domain, and the marker comment |
| `NodeResolver.IterateHosts` | pkg/manifests/assets/node-resolver/update-node-resolver.sh:39-66 | the hosts file is left alone or replaced by the unmarked lines and the entries |
| `NodeResolver.ReplacingIteration` | pkg/manifests/assets/node-resolver/update-node-resolver.sh:43-66 | a replacing iteration leaves the other lines first and then, as the only marked lines, the entries in the order gone through |
| `NodeResolver.NothingFailsReplaces` | pkg/manifests/assets/node-resolver/update-node-resolver.sh:39-66 | when no command fails and some service is answered, the file is brought up to date |
| `NodeResolver.RepeatingChangesNothing` | pkg/manifests/assets/node-resolver/update-node-resolver.sh:43-66 | repeating it with the same addresses and order leaves the file identical |
| `NodeResolver.UserLinesNeverChange` | pkg/manifests/assets/node-resolver/update-node-resolver.sh:18-70 | in every run, whatever fails, the lines without the marker never change |
| `NodeResolver.WrittenIsRecent` | pkg/manifests/assets/node-resolver/update-node-resolver.sh:39-69 | addresses written were told in this iteration or in those directly before it that gave up |
| `NodeResolver.CollectedKeys` | pkg/manifests/assets/node-resolver/update-node-resolver.sh:19-37 | collected are exactly the services kept from before and those that are answered |
| `NodeResolver.StaleIff` | pkg/manifests/assets/node-resolver/update-node-resolver.sh:31-35 | an address in hand was not told in this iteration iff its service is not answered, and is then the one kept |
| `NodeResolver.HoldsStaleIff` | pkg/manifests/assets/node-resolver/update-node-resolver.sh:31-35 | an iteration holds an address nobody told it iff a service it started with is not answered |
| `NodeResolver.CarriedOverIff` | pkg/manifests/assets/node-resolver/update-node-resolver.sh:44-60 | in every run, kept are exactly the services answered in the last iterations that gave up one after another |
| `NodeResolver.CarriesIffStalled` | pkg/manifests/assets/node-resolver/update-node-resolver.sh:44-69 | in every run, something is kept iff the last iteration gave up |
| `NodeResolver.StaleInRunIff` | pkg/manifests/assets/node-resolver/update-node-resolver.sh:18-70 | in every run, the next iteration holds an address nobody told it iff a service answered in those iterations is not answered now |
| `NodeResolver.StaleAddressIsWritten` | pkg/manifests/assets/node-resolver/update-node-resolver.sh:44-69 | a run, for any service, address and hosts file, whose replacing iteration writes an address nobody told it |
| `NodeResolver.EntryInjective` | pkg/manifests/assets/node-resolver/update-node-resolver.sh:54-54 | lines of different entries differ |
| `NodeResolver.OneLinePerEntry` | pkg/manifests/assets/node-resolver/update-node-resolver.sh:51-56 | in the appended lines, an address has as many lines as its service was told it |
| `NodeResolver.OneMarkedLinePerEntry` | pkg/manifests/assets/node-resolver/update-node-resolver.sh:51-66 | a replacing iteration that goes through the keys leaves in the hosts file exactly one marked line per entry |
| `NodeResolver.MarkedLinesAreEntries` | pkg/manifests/assets/node-resolver/update-node-resolver.sh:43-66 | every marked line it leaves is such an entry |

## Left out

- Wiring, flags, informers, clients and the embedding of manifests; the daemonset asset is a given value.
- Library code: `net.ParseIP`, label validation and the availability of a pod are parameters; go-cmp equality, taint matching and percentage scaling are modelled by their documented meaning.
- Case folding of addresses is that of ASCII.
- Toleration lists are compared as sequences, since `cmpTolerations` is an equality used where an order is expected and the sort it is passed to leaves the result open.
- The text of messages is a list of notes, by what each sentence depends on; reasons are words. Log levels and logging are not modelled.
- `RelatedObjects` and the generation fields of the `ClusterOperator`, and the creation of that object.
- The diffs of the cluster role, network policies, service, service monitor, namespace and node-resolver daemonset, which have the shape of the DNS daemonset's but are easier.
- `tls.go` and the proxy arguments, which are table look-ups, and `coreDNSCache`, a rounding function.
- The parts of the Corefile outside the forward and TLS lines; forward blocks are records, not text.
- Sub-second and serialised timestamps, and the scheduling of the work queue; spacing of passes is an assumption where it matters.
- Writes by other clients between the calls of one CA bundle pass, and the difference between nil and empty data in a configmap.
- The API server's immutability rules for daemonset selectors and its admission plugins.
- Files are sequences of lines that end in a newline; the last copy to the hosts file is atomic and nobody else writes that file.
- Numbers are unbounded; pod counts are not negative in practice, so the 32-bit types of the original do not wrap.

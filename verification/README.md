# Verification of kube-drift

kube-drift is a Kubernetes operator. It compares manifests from a ConfigMap, a Git repository, a Helm
chart or a Kustomize overlay with the cluster, writes the drift it finds to the status of a
`DriftCheck`, sets four gauges, and tells webhooks when the drift changes. This project is a model of
the operator in Dafny 4.11 with proofs about it:

- **The reconcile and notify protocol** (`protocol*.dfy`, `convergence.dfy`, `anomalies.dfy`,
  `reconciler.dfy`). One check's API server object with every version it ever had, the gauges, the
  controller's place in `Reconcile`, and the log of send rounds form a step machine. Cached reads may be
  arbitrarily stale; writes may conflict, fail, or be stored with the reply lost; other parties edit,
  touch, delete and re-create the object; the process restarts; the reconcile panics. The theorems hold of every run.
  `Reconciler.DriftCheckReconciler` is the controller's code as methods over mutable state, and its life
  is proved to be a run of the machine.
- **Helm values** (`values*.dfy`). The deep merge as a function on trees, its exact laws and the
  precedence of layers; the in-place, aliasing merge on heap maps, proved to compute it; the fold over
  values files and inline values.
- **Canonical encodings** (`ordering.dfy`, `drift.dfy`, `fingerprint.dfy`, `manifests.dfy`). The bytes
  of the notification fingerprint, and the manifest stream of a ConfigMap. SHA-256 is an arbitrary
  function to strings of 64 characters.
- **The checkout and the background build** (`checkout.dfy`, `checkout_call.dfy`). Worker, build
  goroutine, channel, cancellation and deferred cleanup in every interleaving.
- **Around them**: gauges (`metrics.dfy`), target filter (`target.dfy`), repository registration
  (`dependencies.dfy`), Git credentials (`gitauth.dfy`), string functions of Go (`text.dfy`).

`dafny verify dfyconfig.toml` checks everything.

Code that updates state is modelled by methods and classes; each is proved against a function on values,
and the theorems are about that function. What the outside decides (reads, acknowledgements, failures,
interleavings) is a parameter that the theorems quantify over.

## Where code and documentation differ, or a law fails

The model follows the code. Each of these has a theorem.

- `api/v1alpha1/types.go` and the comment in `internal/source/target.go` say that a manifest without a
  namespace never matches a namespace list. It does when `""` is listed (`Target.NamespaceLess`).
- `docs/USAGE.md` promises a message whenever the drift state changes. A webhook can be left with
  "resolved" while drift is stored and counted as announced. For instance, drift is announced, clears
  with only some webhooks hearing of it, and returns before the retry (`Anomalies.StaleLastWord`); or a
  webhook hears "resolved", is taken off the list while the same drift returns, and is put back, with no
  failure at all (`Anomalies.DroppedEndpoint`). `Anomalies.LeftResolvedExactly` says of each endpoint
  exactly when this is so, `Anomalies.CycleLeavesResolvedExactly` which reconcile leaves it so, and
  `ProtocolSafety.LastWordIsStored` exactly when its last word is the stored fingerprint.
- The gauges need not show the stored summary. They stay behind when a status write is stored while its
  reply is lost or its reconcile panics (`Anomalies.LostReplyLags`), and when a check is deleted and
  re-created before its absence is seen (`Anomalies.RecreationLags`). `ProtocolGauges.GaugesAgree` says
  exactly when they agree, `ProtocolGauges.PutAgreesExactly` which write keeps them so.
- `withCheckout` reports a checkout it could not remove. A build that was abandoned on cancellation can
  bring the directory back unreported (`Checkout.LeakAfterCancel`);
  `Checkout.ReappearsExactlyWhileBuilding` says exactly when.
- `configMapManifests` says that empty content is an error. Two or more blank entries are not
  (`Manifests.TwoBlankEntriesLoad`); `Manifests.NothingToLoadExactly` says what is.
- Layers of values need not regroup (`Values.Blockade`); `Values.AssociativeExactly` says exactly when
  they do.

## Model

| member | source | states |
|---|---|---|
| ProtocolInvariant.SetConditionEffect | internal/controller/driftcheck_controller.go:140-147 | setting a condition leaves one entry of its type, with the new content, and every other type's entries as they were |
| ProtocolInvariant.NextKeepsCore | internal/controller/driftcheck_controller.go:89-166 | every step, taken in any order, keeps the invariant that ties versions, statuses, send rounds and the controller's in-memory object together |
| ProtocolInvariant.RunKeepsCore | internal/controller/driftcheck_controller.go:89-166 | so the invariant holds in every reachable state |
| ProtocolInvariant.AcceptedIsRead | internal/controller/driftcheck_controller.go:149-151 | a status write that passes optimistic concurrency was prepared from the live version, so the fingerprint compared later is the stored one |
| Protocol.ResolvesUrlExactly | internal/controller/notify.go:76-98 | a Secret reference decides the endpoint alone, and fails exactly for a missing Secret, a missing key or a blank entry; otherwise the inline URL counts unless empty |
| Protocol.AttemptMeans | internal/controller/notify.go:49-65 | a webhook's turn is acknowledged exactly when its endpoint resolves and the send succeeds |
| Protocol.EnvironmentMeans | internal/controller/driftcheck_controller.go:89-101 | edits, other updates, deletion and re-creation as the API server performs them |
| ProtocolSafety.DeliverySound | internal/controller/notify.go:20-74 | a non-empty stored fingerprint is that of a round in which every webhook of a spec version acknowledged an event that names this check, gives its summary, and tells exactly that drift set, field by field; through failures, conflicts, edits and restarts |
| ProtocolSafety.Deduplicated | internal/controller/notify.go:31-34 | after a recorded round its fingerprint is sent again only if another fingerprint was recorded in between, stale reads notwithstanding |
| ProtocolSafety.RepeatNeedsLoss | internal/controller/notify.go:67-73 | two successive rounds with one fingerprint need an unacknowledged webhook, a lost fingerprint write, a restart or a panic in the first |
| ProtocolSafety.ResolvedHasCause | internal/controller/notify.go:35-40 | every "resolved" event follows a recorded, fully acknowledged round that carried drift |
| ProtocolSafety.ResolvedAlternates | internal/controller/notify.go:31-40 | two recorded "resolved" rounds have a recorded drift round between them |
| ProtocolSafety.NeverDriftedNeverSends | internal/controller/notify.go:36-40 | a check that never drifted is never announced |
| ProtocolSafety.StatusCoherent | internal/controller/driftcheck_controller.go:136-151 | status.observedGeneration <= Ready's <= metadata.generation, all non-decreasing over versions; one Ready condition; Ready true makes the first two equal; the drift list is as long as the drift counters say, also after failure writes |
| ProtocolStatus.VerdictIsStored | internal/controller/driftcheck_controller.go:130-151 | from any reachable state at rest, whatever others do meanwhile: a verdict on version v is stored exactly when the write is not refused and v is still live; an evaluation then leaves one Ready condition, true, DriftEvaluated, for this generation, with the listed drift and the tally of the results; a failure one Ready condition, false, with its reason, and all else as it was |
| ProtocolStatus.StampIsStored | internal/controller/notify.go:72-73 | a stored fingerprint write puts the round's fingerprint into the status and changes nothing else |
| ProtocolStatus.ReadySet | internal/controller/driftcheck_controller.go:140-147 | setting the Ready condition leaves exactly one of its type, as given, and every other condition |
| ProtocolSafety.LastWordIsStored | internal/controller/notify.go:31-74 | for every set of endpoints, in particular each single one: what it acknowledged last is the stored fingerprint exactly when no unrecorded round since the last recorded one reached it, and it took part in that one or had been told the same before |
| ProtocolSafety.LastWordToAnyone | internal/controller/notify.go:31-74 | for all endpoints together, exactly when no unrecorded round since the last recorded one reached anybody |
| ProtocolSafety.ToldResolvedExactly | internal/controller/notify.go:31-74 | while drift and its fingerprint are stored, the last an endpoint heard is "resolved" exactly when the newest unrecorded round that reached it since the last recorded one was clean, or none did, it is absent from that recorded round, and the rounds before had left it with "resolved" |
| ProtocolGauges.GaugesAgree | internal/controller/driftcheck_controller.go:149-155 | between recordings a check has no series, or exactly the four, each label showing its own counter of one stored version's summary; they show the live summary exactly when there are any and the newest version since then that came from an unacknowledged or aborted evaluation or a re-creation, if any, has the shown summary |
| ProtocolGauges.PutAgreesExactly | internal/controller/driftcheck_controller.go:149-155 | from gauges that show the live summary, an evaluated status write leaves them showing it exactly when it is not stored, is acknowledged and recorded, or carries the same summary |
| ProtocolGauges.ClearedUntilRecorded | internal/controller/driftcheck_controller.go:424-430 | after a permanent failure or an observed deletion the check has no series until a later recording, in every continuation; other checks keep theirs |
| ProtocolGauges.GaugesKept | internal/controller/driftcheck_controller.go:130-134 | runs of transient failures, status writes and notifications leave the gauges as they are |
| ProtocolGauges.OtherChecksUntouched | internal/controller/driftcheck_controller.go:94-98 | no run of one check's reconciles changes another check's series |
| Convergence.SendsEffect | internal/controller/notify.go:48-65 | the send loop tries each webhook once, in order, whatever became of the others; it has failed exactly when one did |
| Convergence.CycleEffect | internal/controller/notify.go:25-74 | the state an undisturbed reconcile leaves, for every drift set and every pattern of acknowledgements |
| Convergence.UnrecordedRoundIsResent | internal/controller/notify.go:20-24 | while an object's newest round is not recorded, the next undisturbed reconcile with the same drift opens another one and tries every configured webhook, those that acknowledged before included |
| Convergence.Converges | internal/controller/notify.go:25-74 | from any state at rest that meets the invariant, one reconcile on a current read whose sends and writes succeed records its drift set's fingerprint, or leaves the never-notified sentinel when clean |
| Convergence.Quiescent | internal/controller/notify.go:31-40 | from then on, no run that finds the same drift sends anything, whatever else happens |
| Convergence.ConvergesThenQuiet | internal/controller/notify.go:25-74 | both together, from any state that meets the invariant, for drift sets equal up to engine order |
| Convergence.OneCycleThenSilence | internal/controller/notify.go:25-74 | the same for runs from the start: after any history, one undisturbed reconcile is the last to send while the drift set stays |
| Anomalies.LeftResolvedExactly | internal/controller/notify.go:31-74 | in every reachable state and for each endpoint: it is left with "resolved" while drift is stored and counted as announced exactly when, at rest, one of the two cases of ToldResolvedExactly holds |
| Anomalies.CycleLeavesResolvedExactly | internal/controller/notify.go:31-74 | from any state at rest that meets the invariant, an undisturbed reconcile that finds drift leaves an endpoint with "resolved" exactly when it was told so before and the drift is the one already announced, or is announced in full to others only |
| Anomalies.StaleLastWord | internal/controller/notify.go:31-34 | a run with a partly acknowledged round that leaves a webhook with "resolved" while drift is stored and counted as announced |
| Anomalies.DroppedEndpoint | internal/controller/notify.go:48-74 | a run in which every round is recorded does the same, through two edits of the webhook list |
| Anomalies.LostReplyLags | internal/controller/driftcheck_controller.go:149-155 | runs that leave the gauges behind the stored summary: through a lost reply, and through a panic after the write |
| Anomalies.RecreationLags | internal/controller/driftcheck_controller.go:92-101 | a run with every write acknowledged and no panic does the same, through deletion and re-creation |
| Reconciler.DriftCheckReconciler.constructor | internal/controller/driftcheck_controller.go:89-91 | a new controller stands at the start of a run |
| Reconciler.DriftCheckReconciler.Reconcile | internal/controller/driftcheck_controller.go:89-166 | from any reachable state, one reconcile takes an initial part of the planned steps, interleaved with other parties' actions, and ends at rest; it forgets, requeues after the interval (5 minutes if none is set) or backs off exactly as read, outcome and writes require; the version it stores says what the outcome calls for; the gauges show the results, are gone or are as before, and other checks' series stay |
| Reconciler.OutcomesMean | internal/controller/driftcheck_controller.go:108-134 | each outcome's reason, and whether it is permanent |
| Reconciler.DriftCheckReconciler.UpdateStatus | internal/controller/driftcheck_controller.go:417-417 | a status write is stored exactly when it comes from the live version and is not refused; only an acknowledged one refreshes the object |
| Reconciler.DriftCheckReconciler.MarkNotReady | internal/controller/driftcheck_controller.go:409-418 | takes the machine's failure step and status write; what is stored is not Ready with the outcome's reason, and otherwise as it was; reports success exactly for a stored and acknowledged write |
| Reconciler.DriftCheckReconciler.PermanentFail | internal/controller/driftcheck_controller.go:424-430 | removes the check's series and no others, stores the failure, waits for the interval if the write succeeded and backs off if not |
| Reconciler.DriftCheckReconciler.Notify | internal/controller/notify.go:25-74 | is the machine's decision, send loop and fingerprint write; fails exactly when the fingerprint write does |
| Reconciler.DriftCheckReconciler.SendAll | internal/controller/notify.go:48-65 | the send loop with its failed flag is the machine's sends, one per webhook, with edits in between |
| Reconciler.DriftCheckReconciler.Stamp | internal/controller/notify.go:72-73 | the fingerprint write closes the round as recorded or lost |
| Reconciler.DriftCheckReconciler.StoreEvaluation | internal/controller/driftcheck_controller.go:136-151 | what is stored is Ready for this generation, with the listed drift and the tally of the results and the old fingerprint; the reconcile goes on exactly after a stored and acknowledged write |
| Reconciler.DriftCheckReconciler.WriteVerdict | internal/controller/driftcheck_controller.go:149-151 | the status write of a verdict is stored as the next version exactly when it is not refused and what was read is still live |
| Reconciler.DriftCheckReconciler.SetGauges | internal/controller/driftcheck_controller.go:153-155 | recording the gauges is the machine's four gauge steps, after which each label shows its own counter |
| Reconciler.DriftCheckReconciler.Interfere | internal/controller/driftcheck_controller.go:89-166 | other parties' actions extend the run and take none of the controller's steps |
| Reconciler.LifeIsRun | internal/controller/driftcheck_controller.go:89-166 | the controller's state is the one its run of the machine leads to, hence reachable and within the invariant, so every theorem about runs is about it |
| Drift.Summarize | internal/controller/driftcheck_controller.go:377-404 | the list copies, field by field and in engine order, exactly the results that are changed, new or deleted; each counter is the number of results of its class, every other status counting as unchanged |
| Drift.SummaryConserves | internal/controller/driftcheck_controller.go:380-404 | the four counters sum to the number of results, and the drift list is as long as the first three |
| Drift.DriftListInOrder | internal/controller/driftcheck_controller.go:383-402 | entry i of the drift list has the apiVersion, kind, name, namespace and status of the i-th result that is changed, new or deleted |
| Drift.OnlyDrift | internal/controller/driftcheck_controller.go:383-395 | a result is listed exactly when it is changed, new or deleted; the unchanged counter counts the unchanged ones and every status that is none of the four |
| Drift.BuildEvent | internal/controller/notify.go:107-134 | the event carries the given name, namespace, summary and flag, and, unless resolved, each drifted resource in turn, field by field, with its status spelled out |
| Drift.StatusTexts | internal/controller/driftcheck_controller.go:383-401 | the status strings are changed, new, deleted and unchanged |
| Drift.EventCarriesDrift | internal/controller/notify.go:107-134 | an event that is not "resolved" determines the drift list and the summary it was built from |
| Metrics.Registry.RecordDrift | internal/metrics/metrics.go:37-45 | the series labelled changed, new, deleted and unchanged get the four arguments in that order, and no other series moves; a nil recorder does nothing |
| Metrics.Registry.Delete | internal/metrics/metrics.go:49-54 | removes the series of one check and no other; a nil recorder does nothing |
| Metrics.RecordedShows | internal/metrics/metrics.go:37-54 | after recording, each of the four series shows its own counter of the summary; deleting then leaves what deleting before would have left |
| Metrics.RecordedFrame | internal/metrics/metrics.go:37-45 | recording moves no other check's series |
| Fingerprint.ComputeDriftHash | internal/controller/notify.go:145-158 | formatting into a slice, sorting it in place and streaming it into the hash computes the specified fingerprint |
| Fingerprint.HashOfFormatted | internal/controller/notify.go:146-157 | the hash is taken of the keys apiVersion, kind, namespace, name and status, joined by vertical bars, in ascending order, each followed by a zero byte |
| Fingerprint.KeyInjective | internal/controller/notify.go:147-149 | the five-field key determines the resource when only the name may contain the separator |
| Fingerprint.StreamInjective | internal/controller/notify.go:153-156 | a NUL-terminated stream of keys decodes uniquely |
| Fingerprint.PreimageExactly | internal/controller/notify.go:145-158 | without NUL in the keys, two drift lists hash the same bytes exactly when their keys are the same multiset |
| Fingerprint.PreimageCanonical | internal/controller/notify.go:145-158 | two drift lists hash the same bytes exactly when they are equal as multisets |
| Fingerprint.OrderIrrelevant | internal/controller/notify.go:141-150 | engine order never changes the fingerprint, whatever the fields contain |
| Fingerprint.SeparatorCollides | internal/controller/notify.go:148-148 | a separator inside a kind makes two different resources hash alike, so the condition is needed |
| Fingerprint.TerminatorCollides | internal/controller/notify.go:153-156 | any two resources, in key order, hash like a single one whose name contains the terminator |
| Fingerprint.NeverSentinel | internal/controller/notify.go:143-144 | no drift set, the empty one included, hashes to the never-notified sentinel |
| Ordering.SortStrings | internal/controller/notify.go:150-150 | sorting in place yields the one ascending arrangement |
| Ordering.SortCanonical | internal/controller/notify.go:150-150 | two slices sort alike exactly when they have the same elements, with multiplicity |
| Ordering.LeqIsLexicographic | internal/controller/notify.go:150-150 | the order is: a beginning comes first, else the smaller character where two strings first differ |
| Values.EmptyIdentity | internal/source/helm.go:273-287 | the empty map is a left and right identity of the merge |
| Values.Idempotent | internal/source/helm.go:273-287 | merging a map into itself changes nothing |
| Values.AbsorbsExactly | internal/source/helm.go:273-287 | merging c into a yields c exactly when c overrides everything in a |
| Values.AssociativeExactly | internal/source/helm.go:273-287 | regrouping three layers gives the same values exactly under a condition on the paths they share |
| Values.NoBlockadeAssociates | internal/source/helm.go:273-287 | layers regroup whenever no path has a map in the first, a non-map in the second and a map in the third |
| Values.Blockade | internal/source/helm.go:273-287 | a map, a scalar and a map at one key do not regroup |
| Values.MergeAt | internal/source/helm.go:271-287 | per path, the later layer decides if it says anything there, else the earlier one's leaf or map stays |
| Values.LayerPrecedence | internal/source/helm.go:202-224 | for any number of layers and any path, the merged values have a leaf or a map there exactly when the last layer not silent about the path has it |
| ValuesHeap.MergeValues | internal/source/helm.go:271-287 | on disjoint trees of heap maps the in-place merge terminates for any key order, returns the destination itself, writes no node of the source and stays within both footprints; at every level it refers to the source's own entries, and to the destination's map only where a map met a map; its values are the pure merge |
| ValuesHeap.ValuesOfMerge | internal/source/helm.go:273-287 | merging references, level by level, merges the values they stand for |
| ValuesHeap.MergeMaps | internal/source/helm.go:277-286 | the loop over the source's keys, in any order, merges them all |
| ValuesHeap.MergeKey | internal/source/helm.go:277-285 | one turn of the loop merges one key and leaves what remains to be merged disjoint from the destination |
| ValuesLayers.ReadValues | internal/source/helm.go:212-212 | a parsed document is a tree of maps that nothing else refers to |
| ValuesLayers.SharedLayerIsOverwritten | internal/source/helm.go:271-272 | a layer that is not freshly parsed would be written by the next merge: its nested map ends up holding the later layer's value |
| ValuesLayers.MergeLayers | internal/source/helm.go:202-224 | merges values files in order and inline values on top; fails exactly for the first document that cannot be resolved, read or parsed |
| Checkout.NextKeepsInv | internal/source/helm.go:77-123 | every step keeps what is known of channel, build, context, directory and error |
| Checkout.RunKeepsInv | internal/source/helm.go:77-123 | so it holds in every interleaving |
| Checkout.NeverBlocks | internal/source/helm.go:106-116 | the send after the build and the send of the deferred recover are enabled when the goroutine comes to them, also after the caller left, and no run makes more than one send, whether the build returns or panics |
| Checkout.VerdictReachesCaller | internal/source/helm.go:117-122 | a build error returned is the one the goroutine sent; manifests are rendered only after a build that succeeded and can write no more; "canceled" is returned only if the context was |
| Checkout.WaitsOnlyForTheBuild | internal/source/helm.go:96-123 | the worker is stuck exactly while it waits, under a live context, for a goroutine that has not sent; once the build itself is over the goroutine can go on until it has |
| Checkout.WorkerReturnsInTime | internal/source/git.go:106-132 | the worker takes at most eight turns in any run |
| Checkout.FirstFailureWins | internal/source/git.go:114-131 | the error returned is the first failure; a cleanup failure shows only when nothing else failed, and only then come resources with an error |
| Checkout.NilMeansDoneAndRemoved | internal/source/helm.go:77-94 | a nil error means that the build finished without error and the checkout is removed, and stays removed in every continuation |
| Checkout.ReappearsExactlyWhileBuilding | internal/source/helm.go:96-101 | after any return the directory exists at some later time exactly when it still does or the build still runs |
| Checkout.LeftoverHasCause | internal/source/git.go:102-118 | a directory left on return means a failed removal or a cancelled build, and a failed removal always leaves it |
| Checkout.LeakAfterCancel | internal/source/helm.go:96-120 | a run that leaves a directory behind although cleanup reported no failure |
| CheckoutCall.TempSpace.WithCheckout | internal/source/git.go:106-132 | the straight-line code with its deferred cleanup, with or without a dependency build, ends like the machine's run: same error, same resources, and on return the directories of the process are as before unless the removal failed |
| CheckoutCall.PlanOutcome | internal/source/git.go:110-131 | where that run leads for every pattern of failures and every way the build can end: the first call that fails decides the error |
| CheckoutCall.WorkErrorIs | internal/source/git.go:123-131 | which error that is, call by call |
| Target.Load | internal/source/target.go:33-55 | the loop keeps exactly the manifests that pass the namespace map and the selector, or passes on the load error |
| Target.NewTargetFilter | internal/source/target.go:13-25 | the filter loads what the namespace list and selector keep; without either it is the source itself |
| Target.ApplyTarget | internal/controller/driftcheck_controller.go:169-179 | an invalid selector is an error, otherwise the source is narrowed to the target |
| Target.KeptInOrder | internal/source/target.go:38-54 | the kept manifests are an order-preserving subsequence, at exactly the positions whose namespace is listed, if any are, and whose labels, those of the object or none, the selector matches, if there is one |
| Target.RunPointwise | internal/controller/driftcheck_controller.go:124-136 | the engine as modelled: one result per manifest, in order, or none if a comparison fails |
| Target.NoConstraintKeepsAll | internal/source/target.go:14-16 | no constraint keeps everything |
| Target.NamespaceLess | internal/source/target.go:40-42 | a manifest without a namespace passes a namespace list exactly when "" is listed and the selector agrees |
| Target.FilterCommutes | internal/controller/driftcheck_controller.go:120-136 | evaluating the kept manifests gives the results that evaluating all of them gives for those |
| Target.FailsOnlyOnKept | internal/controller/driftcheck_controller.go:120-134 | evaluation of a narrowed source fails exactly when the comparison of a kept manifest does |
| Target.DisjointTargetsAddUp | internal/controller/driftcheck_controller.go:120-136 | summaries for disjoint namespace lists add up to the summary for both, and fail together |
| Target.EmptyListDoesNotAddUp | internal/source/target.go:18-23 | with an empty list they do not, since it means no constraint |
| Manifests.ConfigMapManifests | internal/controller/driftcheck_controller.go:333-375 | with a key: the entry of data, else of binaryData, else not found, and a blank one is an error; without: those entries for all keys in ascending order, joined, or an error exactly when there is nothing to load |
| Manifests.JoinsWithMarker | internal/controller/driftcheck_controller.go:364-370 | entries are joined by a line of three dashes |
| Manifests.AnyOrder | internal/controller/driftcheck_controller.go:355-362 | the order in which the maps are walked does not matter |
| Manifests.NothingToLoadExactly | internal/controller/driftcheck_controller.go:370-373 | without a key there is an error exactly for no entries, or a single blank one |
| Manifests.TwoBlankEntriesLoad | internal/controller/driftcheck_controller.go:364-374 | two blank entries are no error |
| Manifests.KeysAscending | internal/controller/driftcheck_controller.go:355-362 | keys come in ascending order, with disjoint key sets each exactly once |
| Manifests.SharedKeyTwice | internal/controller/driftcheck_controller.go:334-369 | a key in both maps is listed twice, both times with the data entry |
| Manifests.StreamHomomorphism | internal/controller/driftcheck_controller.go:364-370 | splitting the joined stream at marker lines is the concatenation of each entry's own split, whatever the entries contain |
| Manifests.StreamOfConfigMap | internal/controller/driftcheck_controller.go:355-374 | for a ConfigMap with at least one entry and any order of walking its keys, the documents of the stream are those of its entries in ascending key order, each entry once if the key sets are disjoint |
| Manifests.SingleDocumentsRoundTrip | internal/controller/driftcheck_controller.go:364-370 | entries that are single documents come back unchanged and in order |
| Dependencies.DependencyRepoFile | internal/source/helm.go:173-188 | the loop registers the first uses of HTTP(S) URLs under consecutive names |
| Dependencies.RegisteredOnce | internal/source/helm.go:173-188 | each distinct URL that begins with http:// or https:// is registered once and nothing else is; entry i is dep-i; names are distinct |
| Dependencies.FirstUsesExactly | internal/source/helm.go:179-186 | the entries stand for exactly the first occurrences, in order |
| GitAuthentication.ResolvesExactly | internal/controller/driftcheck_controller.go:266-328 | a declared auth resolves exactly when its Secret exists and fills every key the scheme requires; otherwise the first missing key is named |
| GitAuthentication.ValueReads | internal/controller/driftcheck_controller.go:276-293 | a Secret's entry is read as it is, an absent one as empty |
| GitAuthentication.NeverAnonymous | internal/source/git.go:201-228 | what resolves has exactly one scheme populated, the declared one; a clone is anonymous exactly when no auth was declared |
| GitAuthentication.AuthMethodExactly | internal/source/git.go:201-228 | the method for every GitAuth: none is anonymous, the first scheme populated counts, SSH fails without a key and a known_hosts that parse, and logs in as git by default |
| GitAuthentication.SshFailsClosed | internal/source/git.go:210-224 | an SSH clone runs exactly when key and known_hosts parse, with the key, the known_hosts (neither of them blank) and the passphrase of the Secret, as user git; otherwise it fails |
| GitAuthentication.BasicKept | internal/controller/driftcheck_controller.go:276-303 | the user name is the Secret's entry without a blank beginning and a blank end, the password the entry without CR and LF at its end |
| GitAuthentication.BearerKept | internal/controller/driftcheck_controller.go:285-309 | tokens lose CR and LF at the end and nothing else |
| Text.TrimSpaceTrims | internal/controller/driftcheck_controller.go:276-282 | trimming takes away a blank beginning and a blank end, leaves nothing exactly for a blank string, and else no space at either end |
| Text.SpaceCharacters | internal/controller/driftcheck_controller.go:276-291 | which characters count as space, and which as line ends |
| Text.ItoaInjective | internal/source/helm.go:185-185 | decimal numerals are distinct |
| Text.ItoaReadsBack | internal/source/helm.go:185-185 | a numeral stands for the number it was written for, in decimal digits without a leading zero |

## Left out

- ProtocolInvariant.RunKeepsCore: the machine does not model several manager replicas reconciling one check at once (leader election excludes them), a nil metrics recorder, `LastCheckedAt`, condition transition times and messages, or the API server's habit of keeping the resourceVersion of a write that changes nothing (the model gives it a new version, which only adds conflicts).
- Reconciler.DriftCheckReconciler.Reconcile: the evaluation's own reads (ConfigMaps, Secrets, the cluster) are folded into its outcome; a panic in the middle is the machine's abort step.
- ProtocolGauges.GaugesAgree: speaks of moments at which no recording is in progress; the four labels are set one after the other, by calls that do not fail, so no panic falls between them.
- Target.FilterCommutes: takes the kube-diff engine as a pointwise comparison, one result per manifest or a failure; its own ordering and defaulting are not part of this model.
- Manifests.ConfigMapManifests: works on characters, so entries of binaryData that are not valid UTF-8 are not modelled.
- Checkout.RunKeepsInv: the build goroutine writes to the checkout or does not, returns or panics; the Helm SDK's own temporary directory, its network access and the time it takes are not modelled, nor a build that ends the goroutine with runtime.Goexit.
- ValuesHeap.MergeValues: lists and scalars are opaque strings; only maps are nodes of the heap.
- Text.TrimSpaceTrims: Go strings are sequences of code points here, whose order is the byte order of their UTF-8 forms; invalid UTF-8 is not modelled.
- The kube-diff engine, parser and cluster fetcher, and the Helm, Kustomize, go-git, securejoin and SSH libraries: external.
- HTTP delivery and payload text (`internal/notify/notify.go`): a send is an acknowledgement or none.
- SHA-256 itself: the theorems are about the bytes it is given, and hold for every digest function.
- `buildSource`, `resolveSubPath`, `knownHostsCallback`, `resolveRevision`, `renderKustomize`, `buildDependencies`, and the rendering after the values are merged: calls into libraries and the file system whose behaviour is not modelled.
- Label selector parsing and matching: an arbitrary predicate on labels.
- Kubernetes events, logging, wiring, generated code, charts and RBAC.

# Verified model of the ifaas operator

ifaas is a Kubernetes operator that adopts Deployments into Knative Services (KSvc) and can
hand them back. This project models its four stateful components in Dafny and proves what they
keep over every schedule, every run and every input.

**Namespace flusher.** `LaneMachine` and `ManagerMachine` are a step machine whose steps are the
critical sections of the coalescing queue: enqueue, timer fire, timer callback, spawn, acquire,
give up, begin patch, end patch, sink, release, exit, and the pieces of Stop. Timer callbacks may
run late and drain a newer window. `LaneInvariants` is the inductive invariant; `FlusherTheorems`,
`Debounce` and `FlusherStop` are the results over all schedules. `FlusherRefinement` adds the live KSvcs and
the read and the write of every Patch call as steps of their own. `NsLanes` and `FlusherManagers`
are the lane and manager objects with their mutable fields; each method is proved to make exactly
one machine step. `MinScale` is the Patcher behind the queue, over `Json` documents and the merge
patch of section 2 of RFC 7396.

**Adopt / release protocol.** `Protocol` describes one reconcile pass as a function of the cluster
and of what the world contributes (which API calls fail, readiness, how far the cascade got), and
interleaves passes with the Deployment watcher, Knative and users. `ProtocolInvariants` is the
invariant relative to the workload as it was before adoption; `ProtocolTheorems` are the results
over all runs, with any number of adoptions and releases; `ProtocolProgress` says when a pass of
adoption completes, `ProtocolRelease` that and when release ends, `ProtocolReadoption` what a second
adoption does. `Fleet` puts several workloads over one set of traffic objects; `FleetFrames`,
`FleetTheorems` and `FleetSharing` say what they guarantee each other and which objects they can share.
`Reconciler` holds the reconciler and the watcher as objects that edit API objects call by call,
proved to perform exactly the protocol's steps.

**Traffic.** `Traffic` defines the rewrite of VirtualServices and DestinationRules,
`TrafficTheorems` proves idempotence and frames, `TrafficAdapter` performs the edits in place, and
`Hosts` is host matching.

**Scale-down guard.** `Guard` is a probe round with its vote, status merge and Degraded escalation,
over `Conditions`; `Translator` is the translation into a Knative Service and the min-scale it
carries.

## Assumptions

- The adoption's name equals its source's name, as the watcher produces it.
- A reconcile pass with its final status write is one step, and that write lands. A watcher pass is one
  atomic step, or none when one of its calls fails.
- Nobody but the operator, Knative and the API server edits the adopted objects. Users may create, edit
  and delete adoptions and change the trigger label at any time, and anybody may delete the KSvc.
- The spec of a traffic object is an object, null or absent before anything is adopted, as the schemas of
  these kinds have it. The stored snapshot has that type too
  (`config/crd/bases/ifaas.ifbiu.com_knativeadoptions.yaml:714-717` and `:731-734`), so that a status write
  with it is accepted.
- `ProtocolTheorems` is about one workload with the traffic objects it refers to. For several workloads in
  one namespace its results carry over to each member when two adoptions refer to the same object only where
  no rewrite that either can ask for changes it (`FleetTheorems.RunsAlone`).
- Conditions, URL and the other parts of the status besides the snapshot are an arbitrary input of each
  pass in the protocol, so its results hold whatever they are.

## What does not hold as documented

- `internal/flusher/manager.go:36-38` promises no Patcher call after Stop has returned. There are schedules
  against it for every configuration, both for the Stop that waits (`FlusherStop.PatchCanFollowStop`) and for
  a further one, which returns at once (`FlusherStop.PatchCanFollowSecondStop`).
  `FlusherStop.StoppedPatchIff` proves that from a stopped state no call follows exactly when no admitted
  Enqueue, undispatched decision or timer over a non-empty queue is outstanding and no worker stands before
  its call; when the Stop that waits returns there is no such worker (`FlusherStop.NoPatchAfterStop`).
- `internal/flusher/manager.go:103-107` promises that slow decisions of one debounce window collapse into one
  PATCH. A callback that lost the race with a fast decision closes the next window early:
  `Debounce.WindowCutShort` is that schedule for every configuration, and `Debounce.FullWindowIff` proves that
  no callback can cut an open window short exactly when no callback of an earlier window is outstanding or the
  window is over anyway.
- `internal/controller/ifaas/restore.go:386-399` promises that release consumes the trigger label. It
  returns early when no replicas were recorded; `ProtocolTheorems.ReleaseConsumesTriggerIff` proves that
  the watcher stays away exactly when they were, and `ProtocolTheorems.UnquiescedReleaseIsReadopted` is a
  run in which it does not.
- `internal/controller/ifaas/restore.go:43-55` promises a release after which the workload can be adopted
  again, and `restore.go:352-356` exactly the Service there was before. The rebuilt Service carries the
  managed-by annotation, which `service_swapper.go:67-69` takes for an adopted one, so a second adoption
  never swaps it. `ProtocolReadoption.RebuiltServiceIsKept` is that run from every workload with an ordinary
  Service; `ProtocolReadoption.TakesOverIff` proves that a later adoption takes the Service over exactly
  when no release has rebuilt it.
- `internal/scaledown/vote.go:52-54` says that a blocked workload stays pinned until the next round flips it
  back. A round that cannot list pods votes on nothing and unpins it: `Translator.ListFailureUnpins` is that
  pair of rounds, and `Guard.BlockingExactly` proves over all rounds that the workload is pinned exactly when
  the last round with a prober was a vote to block.
- `internal/controller/ifaas/restore.go:22-31` promises the recorded traffic specs back on release. Two
  adoptions that share a VirtualService or a DestinationRule can break this: the second one records the first
  one's rewrite, and `FleetSharing.SharedIsNotRestored` is the run. `FleetSharing.SharingIsHarmlessIff` proves
  that two or more workloads, each adoptable and with an ordinary Service or none, always give a shared object
  back exactly when no rewrite that one of them can ask for changes it.
- `internal/controller/ifaas/restore.go:56-58` says that a pass advances the teardown by at most one finalizer;
  by `ProtocolRelease.CleanPassFinishesIff` a pass without failing calls that finds the children gone drops
  both.

## Model

| member | source | states |
|---|---|---|
| `LaneInvariants.StepInv` | internal/flusher/manager.go:163-292 | every critical section of a lane, in any order, keeps the lane invariant; the number of live workers changes only by spawn and exit |
| `ManagerMachine.RunInv` | internal/flusher/manager.go:83-139 | every state of every schedule of the manager satisfies the invariant of all its lanes and of its books |
| `FlusherTheorems.BoundedConcurrency` | internal/flusher/manager.go:231-262 | in every reachable state inflight counts the workers inside the Patch bracket, is at most the slots held, these are at most MaxInFlight, and the wait group counts the live workers of all lanes |
| `FlusherTheorems.LatestWins` | internal/flusher/manager.go:163-205 | per key, drains follow enqueue order; the last accepted decision of a key is pending or is its last drained one; only slow decisions of the lane's namespace stay pending |
| `FlusherTheorems.DebounceBound` | internal/flusher/manager.go:178-215 | before Stop, whatever is pending has a recorded timer whose callback is outstanding or whose deadline is at most one window after the write, stale callbacks included |
| `Debounce.DebounceExactly` | internal/flusher/manager.go:178-184 | in every reachable state the recorded timer is due exactly one window after the slow decision that opened the window, the first after the last drain, and a callback is outstanding only when the window of the decision that armed it is over |
| `Debounce.DrainedByWhom` | internal/flusher/manager.go:163-215 | decisions leave a queue only with a fast decision of the namespace or by a callback that a slow decision set off at least one window earlier; a slow decision takes nothing out and stays in |
| `Debounce.FullWindowIff` | internal/flusher/manager.go:191-215 | in every reachable state an open window is closed by no callback before its time if and only if no callback of an earlier window is outstanding or the recorded timer is due |
| `Debounce.WindowCutShort` | internal/flusher/manager.go:103-215 | for every configuration there is a schedule in which a late callback is able to empty a window that has just been opened |
| `FlusherTheorems.FailureEscalation` | internal/flusher/manager.go:259-291 | the failure counter of a key is the length of its trailing run of failed completions, and the sink is called, once each, for exactly the failures whose run reached MaxFailures, with that length |
| `FlusherTheorems.OnePatchOneResult` | internal/flusher/manager.go:231-292 | a decision is drained at most once, patched at most once, resolved at most once; at rest each drained one was resolved, or abandoned without a Patch call under a cancelled context |
| `FlusherTheorems.Conservation` | internal/flusher/manager.go:163-292 | in every reachable state the multiset of accepted decisions is superseded ones, each with a later one of its key, plus those in the pending map, in the dispatch loops, with waiting workers, in the call log and abandoned, of which there are none before cancel; the call log is the calls in flight, as many as inflight says, plus the completion log |
| `FlusherTheorems.LaneConservation` | internal/flusher/manager.go:163-292 | the same from the lane invariant |
| `FlusherStop.StoppedPatchIff` | internal/flusher/manager.go:83-103 | in every reachable state in which Stop has been called, no continuation ever calls Patch if and only if nothing is outstanding and no worker stands before its call |
| `FlusherStop.NoPatchAfterStop` | internal/flusher/manager.go:90-103 | when the Stop that waits returns, no continuation ever calls Patch if and only if nothing is outstanding |
| `FlusherStop.PatchCanFollowStop` | internal/flusher/manager.go:109-124 | for every configuration there is a schedule in which a Patch call follows Stop |
| `FlusherStop.PatchCanFollowSecondStop` | internal/flusher/manager.go:83-88 | for every configuration there is a schedule in which a further Stop returns with nothing outstanding and a Patch call follows |
| `FlusherRefinement.CallsAreLinear` | internal/controller/ifaas/flusher_adapter.go:68-92 | in every state of every schedule, with overlapping and failing calls, the live KSvcs are the original ones with the calls' decisions written one by one in the order in which the calls took effect |
| `FlusherRefinement.OnlyMinScaleChanges` | internal/controller/ifaas/flusher_adapter.go:96-109 | in every state of every schedule each KSvc reads as before on every path but the min-scale annotation |
| `FlusherRefinement.SameLast` | internal/flusher/manager.go:163-205 | at rest after serial successes, the last decision of a key to take effect is the last accepted one |
| `FlusherRefinement.CoalescingRefinesWriteThrough` | internal/flusher/manager.go:163-292 | when same-key Patch calls run one at a time, in drain order, and succeed, the live KSvcs of a lane at rest equal those obtained by writing every accepted decision one by one |
| `FlusherRefinement.LiveSaysLastAccepted` | internal/controller/ifaas/flusher_adapter.go:68-109 | in such a schedule the annotation of a KSvc, read as a decimal, is what the last decision accepted for its namespace and name asked for |
| `Decisions.WithDefaults` | internal/flusher/decision.go:156-179 | every configuration gets a non-zero in-flight cap, a positive window and a positive failure threshold, and each setting that was valid is kept whatever the others are |
| `NsLanes.NsLane.constructor` | internal/flusher/manager.go:126-139 | a new lane is the machine's empty lane |
| `NsLanes.NsLane.DrainLocked` | internal/flusher/manager.go:191-205 | the batch lists every pending decision once, and queue and timer are cleared |
| `NsLanes.NsLane.Enqueue` | internal/flusher/manager.go:163-187 | the critical section is the machine's enqueue step and hands over exactly the machine's new batch; a slow decision hands over nothing and, if no timer is recorded, arms one for the full window |
| `NsLanes.NsLane.FlushSlow` | internal/flusher/manager.go:209-215 | a timer callback, stale or not, is the machine's flush step |
| `NsLanes.NsLane.StopTimer` | internal/flusher/manager.go:220-227 | stops the recorded timer and drops nothing from the queue |
| `NsLanes.NsLane.Dispatch` | internal/flusher/manager.go:231-237 | one worker and one wait-group entry per decision of the batch |
| `NsLanes.NsLane.Submit` | internal/flusher/manager.go:163-187 | enqueue with its dispatch: the decision is accepted, a fast one leaves the queue empty, and the wait group moves with the live workers |
| `NsLanes.NsLane.Acquire` | internal/flusher/manager.go:242-249 | takes a slot, gives up on a done context or blocks, each exactly when the machine allows it |
| `NsLanes.NsLane.BeginPatch` | internal/flusher/manager.go:251-255 | the Patch bracket opens with the inflight count it reports |
| `NsLanes.NsLane.EndPatch` | internal/flusher/manager.go:259-291 | books the result, resets or raises the failure counter, and reports the sink call exactly when it is due |
| `NsLanes.NsLane.ReleaseSlot` | internal/flusher/manager.go:248-248 | gives the slot back |
| `FlusherManagers.FlusherManager.constructor` | internal/flusher/manager.go:66-77 | an inert manager with defaults applied |
| `FlusherManagers.FlusherManager.LaneFor` | internal/flusher/manager.go:109-121 | refuses once stopped, and otherwise finds or creates the only lane of the namespace |
| `FlusherManagers.FlusherManager.Enqueue` | internal/flusher/manager.go:109-124 | accepted exactly when not stopped; only the lane of the decision's namespace changes |
| `FlusherManagers.FlusherManager.Stop` | internal/flusher/manager.go:83-103 | stops every recorded timer, cancels, keeps every queue as it is, and is idempotent |
| `Json.MergeNest` | internal/controller/ifaas/flusher_adapter.go:96-109 | merging the one-path patch document is writing that path, for every document |
| `MinScale.KSvcMinScalePatcher.Check` | internal/controller/ifaas/flusher_adapter.go:68-83 | the read skips exactly when writing through would change nothing |
| `MinScale.KSvcMinScalePatcher.Merge` | internal/controller/ifaas/flusher_adapter.go:84-109 | the merge patch is the write-through write |
| `MinScale.KSvcMinScalePatcher.Patch` | internal/controller/ifaas/flusher_adapter.go:68-92 | a Patch without error leaves the write-through result, so that the annotation of the KSvc with the decision's namespace and name says the value, and reports a skip exactly when nothing changed; an error changes nothing |
| `MinScale.LastDecides` | internal/controller/ifaas/flusher_adapter.go:68-109 | after any sequence of decisions each KSvc is its original document with the last decision's value written |
| `MinScale.FormatIntWrites` | internal/controller/ifaas/flusher_adapter.go:77-77 | a string is the written form of a number if and only if it is its decimal: a sign exactly when negative, digits, no leading zero, and the digits read back as the number |
| `MinScale.LastIsSaid` | internal/controller/ifaas/flusher_adapter.go:68-109 | after any sequence of decisions the annotation, read as a decimal, is the value of the last decision with that namespace and name |
| `MinScale.OtherFieldsUntouched` | internal/controller/ifaas/flusher_adapter.go:96-109 | every path besides the min-scale annotation reads as before |
| `ProtocolInvariants.StepInv` | internal/controller/ifaas/knativeadoption_controller.go:123-181 | every step of reconciler, watcher, Knative and users, with any failing calls, keeps everything of the original workload either in place or in the snapshot |
| `ProtocolInvariants.RunInv` | internal/controller/ifaas/restore.go:91-194 | the same over every run |
| `ProtocolInvariants.AdoptPassInv` | internal/controller/ifaas/knativeadoption_controller.go:183-308 | an adoption pass, stopped anywhere, keeps the invariant and only extends the snapshot |
| `ProtocolInvariants.ReleasePassInv` | internal/controller/ifaas/restore.go:119-194 | a release pass, stopped anywhere, keeps the invariant, the snapshot and the deletion mark |
| `ProtocolInvariants.UndoneIsOrigin` | internal/controller/ifaas/restore.go:245-339 | undoing every snapshot gives every traffic object back as a whole |
| `ProtocolInvariants.SuppressionIsLossless` | internal/controller/ifaas/knativeadoption_controller.go:397-478 | of two snapshots of which one extends the other, the comparison that looks at the Service by presence only still decides equality |
| `ProtocolTheorems.RoundTrip` | internal/controller/ifaas/restore.go:119-194 | after any run that leaves no adoption, the replicas asked for (none means one), the kind, ports and further settings of the Service, and every VirtualService and DestinationRule are what they were |
| `ProtocolTheorems.SnapshotsAreWrittenOnce` | internal/controller/ifaas/traffic_adapter.go:231-286 | along any run whatever part of an adoption's snapshot is set never changes, traffic names stay unique, and a deletion mark stays |
| `ProtocolTheorems.SuppressedWriteLosesNothing` | internal/controller/ifaas/knativeadoption_controller.go:390-395 | a pass whose status write is suppressed has the stored snapshot, whole |
| `ProtocolTheorems.SingleWriter` | internal/controller/ifaas/knativeadoption_controller.go:264-297 | over whole runs, replicas are written to 0 only with translation, swap and traffic done, the KSvc read back ready and carrying what the adoption's spec asks for, field by field, and the replicas recorded, and written back only with KSvc and derived Service gone, traffic restored and the Service present |
| `ProtocolTheorems.TranslatedCarries` | internal/translator/translator.go:53-199 | the KSvc made for a cluster and a spec has the workload's name and namespace, the owner label, the designated container, min-scale by the spec and the last probe result, and max-scale and target exactly when declared, each with its own value |
| `ProtocolTheorems.TrafficConverges` | internal/controller/ifaas/traffic_adapter.go:57-128 | a traffic stage that reports success leaves every referenced object a fixed point of its rewrite |
| `ProtocolTheorems.RoutesReachService` | internal/controller/ifaas/traffic_adapter.go:211-229 | where traffic has converged, each route of the adopted Service on the declared or the live port has no subset and leads to the live Service's first port, or stays on the declared one when there is none |
| `ProtocolTheorems.RulesHaveNoSubsets` | internal/controller/ifaas/traffic_adapter.go:359-374 | where traffic has converged, no referenced DestinationRule of the adopted Service has subsets |
| `ProtocolTheorems.WatcherRespectsUsers` | internal/controller/ifaas/deployment_controller.go:82-118 | a watcher pass changes nothing about an adoption that it does not own |
| `ProtocolTheorems.WatcherFollowsLabel` | internal/controller/ifaas/deployment_controller.go:58-140 | a watcher pass over no adoption or its own leaves one with the projected spec if the label is on, and none or a deleting one otherwise |
| `ProtocolTheorems.NoReadoption` | internal/controller/ifaas/deployment_controller.go:58-140 | without the trigger label, no interleaving creates an adoption until a user labels the Deployment or creates one |
| `ProtocolTheorems.ReleasedStaysReleased` | internal/controller/ifaas/restore.go:386-433 | after a completed release with recorded replicas the workload stays unadopted through every such run |
| `ProtocolTheorems.ReleaseConsumesTriggerIff` | internal/controller/ifaas/restore.go:406-433 | after a completed release of a labelled Deployment the watcher creates no adoption if and only if replicas had been recorded |
| `ProtocolTheorems.UnquiescedReleaseIsReadopted` | internal/controller/ifaas/restore.go:407-409 | from every labelled start there is a run that releases without recorded replicas and is re-adopted by the next watcher pass |
| `ProtocolTheorems.UntouchableServiceStays` | internal/controller/ifaas/service_swapper.go:63-84 | a Service that release has rebuilt, that somebody else controls or that is not internal is never changed by any run |
| `ProtocolTheorems.RefusedNeverAdopted` | internal/controller/ifaas/knativeadoption_controller.go:225-241 | while a refused Service holds the name, no run ever creates the KSvc |
| `ProtocolProgress.CleanAdoptionIff` | internal/controller/ifaas/knativeadoption_controller.go:183-308 | a pass without failing calls completes adoption if and only if the workload translates, no Service is in the way, every traffic reference is readable and the KSvc is ready; then replicas are 0 and the KSvc is ready |
| `ProtocolProgress.AdoptsIff` | internal/controller/ifaas/knativeadoption_controller.go:183-308 | the same with the condition in terms of the pod template, the designated container, the Service's mark and owner, the mode and the documents alone, and with the KSvc that then runs field by field |
| `ProtocolProgress.CleanTakeover` | internal/controller/ifaas/service_swapper.go:122-159 | taking over an ordinary Service records its kind, ports and further settings without addresses and removes only it |
| `ProtocolProgress.TwoPassesAdopt` | internal/controller/ifaas/knativeadoption_controller.go:183-308 | at most two passes without failing calls adopt every adoptable workload, and the KSvc carries what its adoption asks for |
| `ProtocolProgress.PassReports` | internal/controller/ifaas/knativeadoption_controller.go:390-478 | after every pass the stored URL, probe, routes and conditions are those the pass arrived at, whether its write was suppressed or not |
| `ProtocolProgress.AdoptReports` | internal/controller/ifaas/knativeadoption_controller.go:390-478 | after an adoption pass the stored snapshot is the one the pass arrived at |
| `ProtocolRelease.CleanPassFinishesIff` | internal/controller/ifaas/restore.go:119-194 | a release pass without failing calls finishes if and only if the Service phase was over before or the children are gone |
| `ProtocolRelease.RecordedIsRestorable` | internal/controller/ifaas/restore.go:341-350 | in every reachable state every recorded traffic spec decodes |
| `ProtocolRelease.CompletedPhasesRerun` | internal/controller/ifaas/restore.go:199-433 | each phase of release, once completed, changes nothing when it runs again, whatever fails then |
| `ProtocolRelease.ReleaseTerminates` | internal/controller/ifaas/restore.go:119-243 | whatever is interleaved, after a pass whose delete goes through, the removal of the terminating KSvc and that of its derived Service, the first pass without failing calls ends the release, and that adoption never comes back |
| `ProtocolRelease.MeasureNeverGrows` | internal/controller/ifaas/restore.go:119-243 | while an adoption is being released no step of anybody adds to its finalizers or to the children still to go |
| `ProtocolRelease.ReleaseProgress` | internal/controller/ifaas/restore.go:119-243 | in every state of a release the next step exists, and with it the pair of finalizers and children left strictly falls |
| `ProtocolReadoption.ManagedIffRebuilt` | internal/controller/ifaas/restore.go:362-384 | starting from an ordinary Service, over any run the Service in place is marked managed exactly when some release rebuilt it |
| `ProtocolReadoption.TakesOverIff` | internal/controller/ifaas/service_swapper.go:63-84 | a clean pass of a later adoption takes the Service over if and only if no release on the way has rebuilt it |
| `ProtocolReadoption.RebuiltServiceIsKept` | internal/controller/ifaas/service_swapper.go:67-69 | from every workload with an ordinary Service, adopt, release and adopt again leaves the rebuilt Service in place |
| `FleetTheorems.RunsAlone` | internal/controller/ifaas/traffic_adapter.go:75-121 | when two adoptions share only objects that no rewrite they can ask for changes, every member runs as if it were alone with its objects, however the others are interleaved |
| `FleetTheorems.FleetRoundTrip` | internal/controller/ifaas/restore.go:119-194 | the round trip of each member among the others, which may go on, with the objects it shares |
| `FleetTheorems.FleetReleased` | internal/controller/ifaas/restore.go:245-339 | when every adoption is gone, all traffic objects of the namespace are what they were |
| `FleetTheorems.UnclaimedUntouched` | internal/controller/ifaas/traffic_adapter.go:57-128 | an object that no adoption refers to is never touched |
| `FleetFrames.StepSound` | internal/controller/ifaas/traffic_adapter.go:231-357 | a step of a member keeps every shared object that its rewrites leave alone, and what it has recorded of it stays true |
| `FleetSharing.SharedIsNotRestored` | internal/controller/ifaas/traffic_adapter.go:231-267 | two adoptions that share a VirtualService or DestinationRule which some rewrite of the first one changes can both be released and leave it changed |
| `FleetSharing.SharingIsHarmlessIff` | internal/controller/ifaas/restore.go:245-339 | every run of two or more adoptable workloads that refer to one object gives all objects back if and only if no rewrite that any of them can ask for changes it |
| `Reconciler.KnativeAdoptionReconciler.Reconcile` | internal/controller/ifaas/knativeadoption_controller.go:123-181 | one pass is exactly one protocol step and keeps the invariant |
| `Reconciler.KnativeAdoptionReconciler.ReconcileAdoption` | internal/controller/ifaas/knativeadoption_controller.go:183-308 | the pipeline, stopped at whichever call fails, has the protocol's effect on every object, snapshot and write log |
| `Reconciler.KnativeAdoptionReconciler.EnsureFinalizers` | internal/controller/ifaas/restore.go:96-107 | both finalizers are on, by one patch that is skipped when they already were |
| `Reconciler.KnativeAdoptionReconciler.RemoveFinalizer` | internal/controller/ifaas/restore.go:441-449 | drops one finalizer, and with the last one the adoption goes |
| `Reconciler.KnativeAdoptionReconciler.SnapshotAndDeleteService` | internal/controller/ifaas/service_swapper.go:142-159 | the spec is recorded once, without addresses, before the delete |
| `Reconciler.KnativeAdoptionReconciler.SwapService` | internal/controller/ifaas/service_swapper.go:95-136 | the pipeline continues only for an absent, managed or Knative-derived Service |
| `Reconciler.HasTrafficObjectSnapshot` | internal/controller/ifaas/traffic_adapter.go:279-286 | true exactly when some entry has the name |
| `Reconciler.SnapshotIfNew` | internal/controller/ifaas/traffic_adapter.go:231-267 | appends the object's spec exactly when its name is new |
| `Reconciler.KnativeAdoptionReconciler.ReconcileVirtualService` | internal/controller/ifaas/traffic_adapter.go:303-332 | snapshot before rewrite, and a write only for a changed document |
| `Reconciler.KnativeAdoptionReconciler.ReconcileDestinationRule` | internal/controller/ifaas/traffic_adapter.go:334-357 | likewise for a DestinationRule |
| `Reconciler.KnativeAdoptionReconciler.ReconcileVirtualServices` | internal/controller/ifaas/traffic_adapter.go:75-97 | all references in order; a failure is remembered and the loop goes on |
| `Reconciler.KnativeAdoptionReconciler.ReconcileDestinationRules` | internal/controller/ifaas/traffic_adapter.go:99-121 | likewise for DestinationRules |
| `Reconciler.KnativeAdoptionReconciler.ReconcileTraffic` | internal/controller/ifaas/traffic_adapter.go:57-128 | mode, target port and both loops together are the protocol's traffic stage |
| `Reconciler.KnativeAdoptionReconciler.ApplyKnativeService` | internal/controller/ifaas/knativeadoption_controller.go:264-288 | the KSvc carries what was applied, and the pipeline continues only when it was read back ready |
| `Reconciler.KnativeAdoptionReconciler.QuiesceSource` | internal/controller/ifaas/knativeadoption_controller.go:345-388 | a success leaves 0 replicas; unless they were 0 the replicas are recorded, once and even when the write fails; a failure leaves the Deployment alone |
| `Reconciler.KnativeAdoptionReconciler.PatchStatus` | internal/controller/ifaas/knativeadoption_controller.go:390-395 | the status is written exactly when the comparison sees a difference |
| `Reconciler.KnativeAdoptionReconciler.AwaitCascade` | internal/controller/ifaas/restore.go:127-150 | release goes on only with the KSvc and its derived Service gone |
| `Reconciler.RestoreTrafficObjectSnapshot` | internal/controller/ifaas/restore.go:274-339 | a success leaves the named object there with exactly its recorded spec, or without one if none was recorded, and everything else of it and every other object as it was; a failure changes nothing |
| `Reconciler.RestoreTrafficSnapshotList` | internal/controller/ifaas/restore.go:259-272 | the list is restored in order up to the first failure |
| `Reconciler.KnativeAdoptionReconciler.RestoreTrafficSnapshots` | internal/controller/ifaas/restore.go:245-257 | VirtualServices first; if one cannot be restored no DestinationRule is touched |
| `Reconciler.KnativeAdoptionReconciler.RebuildSnapshotService` | internal/controller/ifaas/restore.go:362-384 | the recorded Service exists again; an existing one counts as success |
| `Reconciler.KnativeAdoptionReconciler.RestoreDeploymentSpec` | internal/controller/ifaas/restore.go:406-433 | replicas and label travel in one patch, and nothing happens without recorded replicas |
| `Reconciler.KnativeAdoptionReconciler.HandleDeletion` | internal/controller/ifaas/restore.go:119-194 | the two phases in order, each gated by its finalizer, are the protocol's release flow |
| `Reconciler.DeploymentWatcher.DeleteIfWatcherOwned` | internal/controller/ifaas/deployment_controller.go:82-98 | only a watcher-owned adoption is deleted; a failing call changes nothing |
| `Reconciler.DeploymentWatcher.ApplyAdoption` | internal/controller/ifaas/deployment_controller.go:100-140 | creates a missing adoption, updates a watcher-owned one, leaves a user's alone; a failing call changes nothing |
| `Reconciler.DeploymentWatcher.Reconcile` | internal/controller/ifaas/deployment_controller.go:58-76 | one watcher pass is exactly one protocol step, or nothing when a call fails, and keeps the invariant |
| `TrafficTheorems.VirtualServiceTwice` | internal/controller/ifaas/traffic_adapter.go:376-451 | rewriting a rewritten VirtualService changes nothing, for every document |
| `TrafficTheorems.VirtualServiceFrame` | internal/controller/ifaas/traffic_adapter.go:376-451 | routes keep their number and order; a destination of the Service changes exactly when its number stands for the declared or the target port, or when neither is positive, and then loses its subset, gets the target and keeps the rest |
| `TrafficTheorems.SelectedIff` | internal/controller/ifaas/traffic_adapter.go:453-509 | which destinations are managed, from the two ports and the destination's own host and number in 32 bits |
| `TrafficTheorems.DestinationRuleTwice` | internal/controller/ifaas/traffic_adapter.go:359-374 | rewriting a rewritten DestinationRule changes nothing |
| `TrafficTheorems.DestinationRuleFrame` | internal/controller/ifaas/traffic_adapter.go:359-374 | every path outside spec.subsets reads as before, and the rule changes exactly when its host names the Service and it has subsets |
| `TrafficTheorems.RewriteIsSpecOnly` | internal/controller/ifaas/traffic_adapter.go:376-451 | the rewrite touches nothing outside spec, so restoring spec restores the object |
| `TrafficTheorems.DestinationRuleIsSpecOnly` | internal/controller/ifaas/traffic_adapter.go:359-374 | likewise for a DestinationRule |
| `TrafficAdapter.EnsureDestinationPort` | internal/controller/ifaas/traffic_adapter.go:483-496 | reports a change exactly when the destination differs |
| `TrafficAdapter.AdaptRoutes` | internal/controller/ifaas/traffic_adapter.go:376-451 | every route is rewritten in place, and a change is reported exactly when one differs |
| `TrafficAdapter.StripSubsetFromTargetDestinations` | internal/controller/ifaas/traffic_adapter.go:376-451 | the in-place edit is the rewrite; it fails, untouched, exactly when spec.http cannot be read |
| `TrafficAdapter.StripTargetServiceSubsets` | internal/controller/ifaas/traffic_adapter.go:359-374 | the in-place edit is the rewrite, and a change is reported exactly when the document differs |
| `Hosts.BareHost` | internal/controller/ifaas/traffic_adapter.go:511-528 | a bare name matches exactly the Service of that name |
| `Hosts.ShortHost` | internal/controller/ifaas/traffic_adapter.go:511-528 | svc2.ns2 and svc2.ns2.svc, absolute or not, match exactly when both names agree |
| `Hosts.LongHost` | internal/controller/ifaas/traffic_adapter.go:511-528 | svc2.ns2.svc.domain matches exactly when both names agree, for every domain |
| `Hosts.CaseIrrelevant` | internal/controller/ifaas/traffic_adapter.go:524-528 | upper and lower case ASCII letters do not matter |
| `Hosts.BlanksIrrelevant` | internal/controller/ifaas/traffic_adapter.go:524-528 | blanks around a host do not matter |
| `Guard.Vote` | internal/scaledown/vote.go:68-78 | Block exactly when some pod failed to answer or answered no, NoPods exactly when there are none, AllowZero exactly when there are pods and all of them agreed without error |
| `Guard.VerdictExactly` | internal/scaledown/vote.go:62-78 | the same of the verdict, with AllowZero exactly when the agreeing pods are as many as all |
| `Guard.Tally` | internal/scaledown/vote.go:83-95 | three counts that partition the results: as many as there are pods that agreed, that refused and that failed |
| `Guard.OrderIrrelevant` | internal/scaledown/vote.go:62-95 | verdict and counts depend on the multiset of results only |
| `Guard.ErroredCount` | internal/scaledown/vote.go:97-107 | a positive error count means some probe failed, and conversely |
| `Guard.GuardedAdoption.RunScaleDownGuard` | internal/controller/ifaas/scaledown_guard.go:94-169 | one round leaves the specified status and conditions and enqueues exactly one decision when it reaches the vote, none otherwise |
| `Guard.GuardedAdoption.MaybeMarkDegraded` | internal/controller/ifaas/scaledown_guard.go:285-296 | Degraded is raised exactly at the threshold |
| `Conditions.FindSet` | internal/controller/ifaas/knativeadoption_controller.go:517-525 | setting a condition makes exactly that one readable and no other kind changes |
| `Conditions.SetPlace` | internal/controller/ifaas/knativeadoption_controller.go:517-525 | an entry is overwritten where it stands, a new one goes to the end, and all others keep their place |
| `Conditions.FindRemove` | internal/controller/ifaas/knativeadoption_controller.go:527-546 | removing a condition hides exactly that kind |
| `Guard.RoundDegraded` | internal/controller/ifaas/scaledown_guard.go:118-169 | a clear round leaves Degraded cleared, an error round at the threshold raises it, and no other round changes it |
| `Guard.AllowedCondition` | internal/controller/ifaas/scaledown_guard.go:94-169 | after any round ScaleDownAllowed is True when every probed pod allowed it without error, False when one did not, Unknown when none could be asked, each with its reason |
| `Guard.ForeignDegradedStays` | internal/controller/ifaas/knativeadoption_controller.go:535-546 | a round below the threshold leaves a Degraded condition with another reason as it is |
| `Guard.RecordedResult` | internal/controller/ifaas/scaledown_guard.go:240-283 | the recorded result is true when all of at least one pod agreed, false when one objected, and unknown when there was no pod or no list |
| `Guard.DegradedExactly` | internal/controller/ifaas/scaledown_guard.go:244-296 | over any rounds the counter is the trailing run of error rounds in 32 bits, and Degraded holds exactly when some round reached the threshold and none has cleared it since |
| `Guard.RoundBlocks` | internal/controller/ifaas/scaledown_guard.go:94-169 | a pinned workload stays pinned through a round exactly when the round has no prober or votes to block, and such a vote pins it |
| `Guard.BlockingExactly` | internal/translator/translator.go:182-199 | after any rounds a guarded workload has effective min-scale 1 if and only if the last round with a prober voted to block, and 0 otherwise |
| `Translator.SanitizeEnv` | internal/translator/translator.go:242-258 | exactly the variables without a downward-API reference, in their order |
| `Translator.SanitizeVolumes` | internal/translator/translator.go:279-298 | exactly the volumes with one of the five accepted sources, in their order |
| `Translator.GuardPodSpec` | internal/translator/translator.go:107-125 | refuses with the first host setting or host port there is |
| `Translator.PickPrimaryContainer` | internal/translator/translator.go:127-144 | the first container of the requested name, or the only one, or the refusal that applies |
| `Translator.Translate` | internal/translator/translator.go:53-105 | the first refusal in order, or the translated Service |
| `Translator.TranslatesIff` | internal/translator/translator.go:53-155 | a workload is accepted if and only if it uses no host namespace or host port and its designated container offers a TCP port first |
| `Translator.RefusedBecause` | internal/translator/translator.go:107-155 | every refusal names the first thing that is wrong, in the order of the checks |
| `Translator.TranslateTwice` | internal/translator/translator.go:53-155 | a Deployment made of the translated pod spec is accepted and translates to the same Service |
| `Translator.TranslateShape` | internal/translator/translator.go:201-298 | the designated container alone, with its port number and protocol on one port without name and host fields, none of the gated settings, and exactly the allowed variables and volumes in their order |
| `Translator.TranslationRealizes` | internal/translator/translator.go:53-199 | the translated Service has the workload's name and namespace, the owner label, exactly the declared annotations in decimal, and that pod |
| `Translator.PathsAgree` | internal/translator/translator.go:157-199 | the min-scale enqueued by a voting round equals the one the next apply carries, is 0 exactly when every probed pod allowed it without error, and a pinned workload keeps its user's value |
| `Translator.ListFailureUnpins` | internal/controller/ifaas/scaledown_guard.go:108-116 | a blocking round and then one that cannot list pods leave the last decision handed to the flusher at 1 and the next applied min-scale at 0 |

## Left out

- A crash between an external write and the status write of the same pass, and status writes that fail: the snapshot of such a pass would be lost.
- Traffic objects whose spec is neither an object nor null: the status write that would record one is rejected, which is such a failing write.
- Service labels and annotations, a headless ClusterIP, metadata of traffic objects that someone else deleted, and dangling volume mounts after volume filtering: the operator does not restore or repair them.
- Global order of Patch calls of one key, serial sink calls, retry and backoff: workers are unordered, and the backoff settings are never read.
- Server-side apply, merge-patch transport, field ownership, owner-reference garbage collection and the JSON codec (integers that leave int64 or pass through float64): objects are abstract values, garbage collection is a step of the environment.
- Which conditions and observed routes a pass writes, except those of the scale-down guard, and the recomputation of Ready: short folds over the stage results.
- The failure sink's condition write: it uses the probe-error reason although its comment names another one.
- Projection of annotations, admission webhooks, HTTP probing and probe ports, metrics, events and logging: input, plumbing or short branches.
- `ToLower` in `Hosts` covers ASCII only.
- FlusherManagers.FlusherManager.Stop: does not wait for the workers, because waiting is a step of the schedule in ManagerMachine; concurrency is modelled there and not in the object.
- MinScale.KSvcMinScalePatcher.Patch: read and write follow each other in the object, because interleaving them with other calls is what FlusherRefinement does.
- Protocol flows carry no error messages: which call failed is an input, and the text of an error reaches only the conditions.

# KubeAdmiral: verified models of the controllers' shared protocols

KubeAdmiral's controllers cooperate through one federated object per source object. This project models the parts where
that cooperation is delicate and proves what the controllers rely on. Each component below is a Dafny module (`Wrappers`
and `Filters` hold what they share); loops and objects that change in place are methods and classes proved against
functions or state-machine steps, and the theorems are about those functions, steps and all their runs.

**Protocols and whole runs**

- `PendingControllers`: the pending-controllers annotation as a state machine over resets, guarded passes and conflicts.
  The shape every reachable list has, a measure each head step lowers by one, and the obligation a modification puts on
  every downstream group.
- `BidirectionalCache`, `FollowerProtocol`, `LeaderNaming`, `FollowerConvergence`, `FollowerController`: leaders and
  followers over an API server, an informer view that lags, two caches and a work queue. An inductive invariant,
  agreement at quiescence, a measure that every effective step lowers and so no endless run, exactly when the controller
  can come to rest, and the class whose methods take exactly those steps.
- `SyncController`: one pass of the sync controller with the dispatcher as an operation log: what every dispatched
  operation implies, and exactly when the finalizer is given up. `PropagationOrder` runs it together with the pending
  controllers: the template and the placement that are sent have been through all of them, the overrides exactly when the
  pass was not made to hold a refreshed object on which somebody was pending again.
- `Ordering`, `ObservedKeys`, `MergePatch`, `Submap`, `Federate`, `FederateTemplate`, `FederateKeys`: what the federate
  controller writes and how staleness is checked. The update is a fixed point of itself and satisfies the check, and the
  check tells exactly which changes of the source it sees.
- `Bijection`, `InformerLifecycle`, `InformerManager`: the informer manager over every sequence of FTC events.

**Fast forms, round trips, traces**

- `EnvOverrider`, `OverrideBatch`, `OverridePath`, `OverrideReplay`, `OverrideOrder`: the override compiler.
- `SchedulingTriggers`: the scheduling baseline and deferred reschedules.
- `ControllerEntries`, `SchedulingResult`: storing a scheduling result and reading it back.
- `ClusterStatus`: the hysteresis of reported cluster conditions.
- `Base64Url`, `JsonText`, `GlobalResourceVersion`: resource-version tokens and the JSON text inside them.
- `AutoMigration`: unschedulable counts, reported capacity and the requeue time.
- `PolicyCounter`: reference counts of policies.

## Where the code does not do what one would expect

Each of these is proved, with the exact condition under which the expectation holds.

- A source object labelled with its own apiVersion is never seen as up to date, unless the label's value is its kind
  (`Federate.UpToDateIff`, `Federate.ClashingLabelNeverUpToDate`).
- The first status a source is given makes its federated object look stale, although templates leave the status out
  (`FederateTemplate.UpToDateExactly`, `FederateTemplate.FirstStatusLooksStale`).
- Updating a federated object whose annotation map is nil, from a source without federated annotations, writes into a nil
  map (`Federate.FederatedObject.Update`).
- Leaders that name each other as followers in a circle, a leader that names itself included, keep the follower
  controller busy for ever. It can come to rest exactly when there is no such circle, every stored leader's followers can
  be inferred, and neither a follower, stored or queued, nor a leader that wants a follower is of a kind without a
  FederatedTypeConfig (`FollowerConvergence.RestsIffAcyclic`).
- When the write of the propagation status meets a conflict, the pass goes on with the refreshed object and sends its
  overrides without asking again who is pending on it. So overrides can be sent before the controllers downstream of the
  one that changed them have had their turn (`SyncController.HeldIsSettledIff`,
  `SyncController.ConflictSendsPendingOverrides`, `PropagationOrder.OverridesSeenThroughIff`,
  `PropagationOrder.ConflictOutrunsDownstream`).
- A reschedule that fires while the no-scheduling annotation is present moves the baseline without scheduling, so the
  change is not scheduled once the annotation is gone (`SchedulingTriggers.NoSchedulingConsumesTheTrigger`,
  `SchedulingTriggers.BaselineIsLastScheduled`).
- Removing a controller's placement or overrides removes its first entry only
  (`ControllerEntries.WithoutOwnsNone`, `SchedulingResult.ResultRoundTrip`); the API types do not force entries to be unique.
- Resource-version tokens are printed without escapes: a document reads back exactly when no name or version needs one
  (`GlobalResourceVersion.DocumentReadsBack`, `GlobalResourceVersion.QuotedNameReadsBackAsTwo`).
- An unsupported environment operator is accepted when there is nothing to apply it to
  (`EnvOverrider.UnsupportedNeedsAnEntry`).

## Assumptions

- Controller names in a FederatedTypeConfig are distinct and the configurations are fixed during a run.
- Lister reads are copies. `reconcileFollower` edits the lister's object in place
  (`pkg/controllers/follower/controller.go:397-406`); the model takes a pass to succeed or to leave the view alone.
- Every write to a federated object is delivered to the controllers' informers, possibly late and coalesced; a pass is
  one atomic step and a refused write leaves the state unchanged.
- Label and annotation keys are not empty and hold no `,` or `|`, and where the check is asked about a newer source, sources
  have a metadata object whose labels and annotations map strings to strings, as API validation ensures.
- The text of the merge patch for the source at hand decodes to that patch (`Federate.PatchReadsBack`); JSON numbers are
  given by the canonical numeral of their value.

## Model

| member | source | states |
|---|---|---|
| `PendingControllers.NormalizeControllers` | pkg/util/pendingcontrollers/pendingcontrollers.go:50-63 | The loop keeps exactly the groups that are not empty, in their order. |
| `PendingControllers.GetDownstreamControllers` | pkg/util/pendingcontrollers/pendingcontrollers.go:81-90 | The search returns the groups after the first one that names the controller, none if no group does. |
| `PendingControllers.FederatedObject.GetPendingControllers` | pkg/util/pendingcontrollers/pendingcontrollers.go:34-46 | A missing or malformed annotation is an error; any other decodes to its groups that are not empty, in their order. |
| `PendingControllers.FederatedObject.SetPendingControllers` | pkg/util/pendingcontrollers/pendingcontrollers.go:65-79 | The annotation becomes the canonical text of the normalised groups, and the flag says exactly whether it changed. |
| `PendingControllers.FederatedObject.UpdatePendingControllers` | pkg/util/pendingcontrollers/pendingcontrollers.go:92-125 | The new annotation is the abstract update of the old one; errors change nothing; the flag is exact. |
| `PendingControllers.FederatedObject.ControllerDependenciesFulfilled` | pkg/util/pendingcontrollers/pendingcontrollers.go:127-146 | A controller may go exactly when the list is empty or its first group names it. |
| `PendingControllers.NormalizeIdempotent` | pkg/util/pendingcontrollers/pendingcontrollers.go:50-63 | A normalised list has no empty group, normalising again changes nothing, and no controller is lost. |
| `PendingControllers.HeadStep` | pkg/util/pendingcontrollers/pendingcontrollers.go:92-125 | On a well-shaped list a head member's step takes out that member and nothing else, modified or not. |
| `PendingControllers.RearmIsNoOp` | pkg/util/pendingcontrollers/pendingcontrollers.go:92-125 | Setting downstream changes nothing while the list is not empty. |
| `PendingControllers.EmptyStep` | pkg/util/pendingcontrollers/pendingcontrollers.go:92-125 | From the empty list a modification arms exactly the normalised groups after the controller's own. |
| `PendingControllers.TurnStep` | pkg/util/pendingcontrollers/pendingcontrollers.go:92-146 | On a list that is not empty the committed attempt of a controller of the first group takes out that controller and nobody else, modified or not; every other attempt, and every refused write, leaves the list alone. |
| `PendingControllers.TurnOnEmpty` | pkg/util/pendingcontrollers/pendingcontrollers.go:92-146 | On the empty list everybody may go: an unmodified object keeps it, and a modification by a controller of one group leaves exactly the groups behind that one. |
| `PendingControllers.NextShape` | pkg/util/pendingcontrollers/pendingcontrollers.go:50-125 | Every step keeps the shape: empty, or a non-empty sub-list of one group followed by all later groups. |
| `PendingControllers.ReachableShape` | pkg/util/pendingcontrollers/pendingcontrollers.go:50-125 | Every list of every run has that shape. |
| `PendingControllers.HeadStepShrinks` | pkg/util/pendingcontrollers/pendingcontrollers.go:92-125 | A head step lowers the number of pending controllers by exactly one, modified or not. |
| `PendingControllers.DrainLength` | pkg/util/pendingcontrollers/pendingcontrollers.go:92-125 | A run of head steps empties the list exactly when it is as long as the list has controllers. |
| `PendingControllers.ResetDrains` | pkg/util/pendingcontrollers/pendingcontrollers.go:92-125 | After a reset no run of head steps is longer than the number of controllers, and one of that length ends empty. |
| `PendingControllers.InTurnDrains` | pkg/util/pendingcontrollers/pendingcontrollers.go:92-146 | Nobody is stuck: when the pending controllers try in the order of the list, modifying or not, the list ends empty. |
| `PendingControllers.ResetIsWorkedThrough` | pkg/util/pendingcontrollers/pendingcontrollers.go:92-146 | After a reset all controllers of the FTC get their turn in its order, and the list ends empty. |
| `PendingControllers.ModificationObligesDownstream` | pkg/util/pendingcontrollers/pendingcontrollers.go:81-146 | After a modification the list is empty again only once, for every choice of controllers from later and later groups, those have stepped in that order. |
| `PendingControllers.ResetObligesEveryController` | pkg/util/pendingcontrollers/pendingcontrollers.go:81-146 | The same for every controller after a reset. |
| `PendingControllers.EmptyMeansSeenThrough` | pkg/util/pendingcontrollers/pendingcontrollers.go:81-146 | When the list is empty, what every modification and reset of the run has obliged others to has been done. |
| `PendingControllers.EmptyIffSeenThrough` | pkg/util/pendingcontrollers/pendingcontrollers.go:81-146 | From the empty list on, the list is empty exactly when all of that has been done: it holds no controller without a reason. |
| `BidirectionalCache.MirroredAfterUpdate` | pkg/controllers/follower/bidirectional_cache.go:51-86 | Taking a key from what it lost and adding it to what it gained keeps the two maps inverse. |
| `BidirectionalCache.Cache.Lookup` | pkg/controllers/follower/bidirectional_cache.go:39-43 | Exactly the values paired with the key, which are those whose reverse set holds the key. |
| `BidirectionalCache.Cache.ReverseLookup` | pkg/controllers/follower/bidirectional_cache.go:45-49 | Returns exactly the keys whose values hold the given one. |
| `BidirectionalCache.Cache.Update` | pkg/controllers/follower/bidirectional_cache.go:51-86 | The key's values are replaced, other keys keep theirs, and the reverse map stays the inverse with no empty sets in it. |
| `FollowerProtocol.InitialInv` | pkg/controllers/follower/controller.go:119-182 | The invariant holds before anything is delivered. |
| `FollowerProtocol.InferredFrom` | pkg/controllers/follower/controller.go:363-387 | Of an object that schedules its followers, is not kept from it and is no unpropagated dry run, the followers are those of its annotation and those of its pod spec, and inference fails exactly when either cannot be read; any other object has none. |
| `FollowerProtocol.NextInv` | pkg/controllers/follower/controller.go:252-517 | Every write, deletion, delivery and pass keeps the invariant that ties caches, stored objects and queue together. |
| `FollowerProtocol.ProcessLeaderInv` | pkg/controllers/follower/controller.go:252-339 | Dequeuing a leader is safe: every settled follower it affects is queued in the same step. |
| `FollowerProtocol.ProcessFollowerInv` | pkg/controllers/follower/controller.go:423-517 | Dequeuing a follower leaves it right and touches nothing else. |
| `FollowerProtocol.ReachableInv` | pkg/controllers/follower/controller.go:252-517 | The invariant holds in every state of every run. |
| `FollowerProtocol.QuiescentAgrees` | pkg/controllers/follower/controller.go:332-336 | With nothing queued and all delivered, a follower follows exactly the stored leaders whose annotation or pod spec names it and which schedule their followers, none if it opted out, and is placed exactly where any controller placed those. |
| `FollowerProtocol.QuiescentRunAgrees` | pkg/controllers/follower/controller.go:475-493 | That agreement holds at the end of every run from any starting objects that has come to rest. |
| `FollowerConvergence.EffectiveShrinks` | pkg/controllers/follower/controller.go:252-517 | Every step that does something, in any order, lowers one lexicographic measure as long as the leaders in the view do not name each other in a circle. |
| `FollowerConvergence.RanksStay` | pkg/controllers/follower/controller.go:252-517 | One delivery or pass keeps the ranks that measure rests on good for the stored and the seen leaders. |
| `FollowerConvergence.NoEndlessRun` | pkg/controllers/follower/controller.go:252-517 | There is no endless run of such steps, in whatever order and with whatever failures, when neither the stored nor the seen leaders name each other in a circle. |
| `FollowerConvergence.EndlessRunStarvesInformer` | pkg/controllers/follower/controller.go:205-228 | When only the stored leaders are free of circles, an endless run leaves some leader undelivered in every one of its states. |
| `FollowerConvergence.EffectiveExists` | pkg/controllers/follower/controller.go:252-517 | In every state that is not at rest some such step is possible, when the stored leaders do not name each other in a circle and nothing is there that would be retried for ever. |
| `FollowerConvergence.Converges` | pkg/controllers/follower/controller.go:252-517 | From every such state the controller's own steps reach rest, with every follower in agreement. |
| `FollowerConvergence.MaximalRunRests` | pkg/controllers/follower/controller.go:252-517 | From every such state each run of such steps that cannot be extended has reached rest, with every follower in agreement. |
| `FollowerConvergence.RestMeansServiceable` | pkg/controllers/follower/controller.go:341-361 | If the controller's own steps can reach rest, nothing that would be retried for ever was there: no leader whose followers cannot be inferred, no follower of a kind without a FederatedTypeConfig, no follower wanted by a leader of such a kind. |
| `FollowerConvergence.LoopNeverRests` | pkg/controllers/follower/controller.go:332-336 | While leaders name each other in a circle, no run of deliveries and passes, with whatever failures, reaches rest. |
| `FollowerConvergence.SelfFollowerNeverRests` | pkg/controllers/follower/controller.go:332-336 | A leader that names itself is still to be processed after every such run. |
| `FollowerConvergence.ReachableLoopsAwake` | pkg/controllers/follower/controller.go:252-517 | In every reachable state each circle of stored leaders has a member that is queued or not yet delivered. |
| `FollowerConvergence.RestsIffAcyclic` | pkg/controllers/follower/controller.go:252-517 | From every reachable state the controller's own steps can reach rest exactly when no stored leaders name each other in a circle and nothing is there that would be retried for ever. |
| `LeaderNaming.LoopHoldsCycle` | pkg/controllers/follower/controller.go:332-361 | A set of leaders each naming a member of the set holds a circle of leaders. |
| `LeaderNaming.AcyclicHasRanks` | pkg/controllers/follower/controller.go:332-361 | Without such circles the leaders can be ranked above all leaders they name. |
| `LeaderNaming.WeightDrops` | pkg/controllers/follower/controller.go:332-361 | Replacing a queued leader by the leaders it names makes the queue lighter. |
| `FollowerController.LeaderPlacementUnion` | pkg/controllers/follower/controller.go:519-569 | Exactly the clusters some leader in the view is placed in, by whatever controller; an error exactly when there is a leader of an unsupported or unknown kind or one that cannot be read. |
| `FollowerController.Controller.ObjectDelivered` | pkg/controllers/follower/controller.go:205-228 | The view has the object as stored, and its key is queued exactly when its kind can lead or follow. |
| `FollowerController.Controller.EnqueueFollowers` | pkg/controllers/follower/controller.go:341-361 | Exactly the followers of known kinds are queued. |
| `FollowerController.Controller.ReconcileLeader` | pkg/controllers/follower/controller.go:252-339 | Takes exactly the protocol's leader step; it fails, changing nothing, exactly when the leader cannot be read or its followers cannot be inferred. |
| `FollowerController.Controller.UpdateFollower` | pkg/controllers/follower/controller.go:389-418 | Writes the follower exactly when its leaders or its placement differ, with the placement the leaders have now. |
| `FollowerController.Controller.ReconcileFollower` | pkg/controllers/follower/controller.go:423-517 | Takes exactly the protocol's follower step; the key leaves the queue exactly on success. |
| `FollowerController.Controller.Reconcile` | pkg/controllers/follower/controller.go:230-246 | Dispatches to exactly the protocol's step for the key. |
| `SyncController.Decide` | pkg/controllers/sync/controller.go:567-669 | The per-cluster table: each operation and each recorded status happens under exactly the stated condition. |
| `SyncController.OpsForMember` | pkg/controllers/sync/controller.go:547-710 | An operation is logged for a cluster exactly when the table picks it for that cluster. |
| `SyncController.DueOps` | pkg/controllers/sync/controller.go:547-710 | The choices of the per-cluster table for the recorded clusters are exactly those operations. |
| `SyncController.ScanRecorded` | pkg/controllers/sync/controller.go:486-493 | Splits the selected clusters into those recorded already and those to be recorded. |
| `SyncController.AddPendingCreate` | pkg/controllers/sync/controller.go:498-506 | Appends a PendingCreate record for exactly the joined, non-terminating new clusters, in whatever order. |
| `SyncController.SyncPass.EnsureFinalizer` | pkg/controllers/sync/controller.go:1007-1029 | The finalizer is present afterwards or the pass stops. |
| `SyncController.SyncPass.PassGate` | pkg/controllers/sync/controller.go:408-437 | A pass waits for its turn without an error, and goes on only with the finalizer on the object. |
| `SyncController.SyncPass.PrepareToSync` | pkg/controllers/sync/controller.go:454-543 | Every cluster handed on is in the stored record before anything is sent to it; it fails exactly when that record cannot be written. |
| `SyncController.SyncPass.SyncToClusters` | pkg/controllers/sync/controller.go:547-710 | The log grows by exactly the table's choice for each cluster, in order; the pass is repeated after a failure and when a cluster lacked its finalizer. |
| `SyncController.SyncPass.SyncCluster` | pkg/controllers/sync/controller.go:567-669 | The body of the loop takes the table's choice, branch by branch. |
| `SyncController.SyncPass.BeforeSync` | pkg/controllers/sync/controller.go:408-444 | The pass reaches the clusters exactly when nobody is pending or an autoscaler distributes the object, the finalizer is on it, it is no dry run of something never propagated, and each cluster it is placed in is recorded or can be; else it stops with the status the stop deserves. |
| `SyncController.StopStatusIff` | pkg/controllers/sync/controller.go:408-444 | Waiting for a turn and a dry run of something never propagated are no failure, a conflict on the finalizer is reported as one, and anything else that stops a pass is an error. |
| `SyncController.SyncPass.ReconcileLive` | pkg/controllers/sync/controller.go:417-444 | Then a create or an update is sent to exactly the joined clusters the object is placed in that are ready, stay and have the finalizer, as the object is missing or there, and a delete to exactly the recorded ready clusters that stay and that the placement, or the autoscaler, leaves out; exactly the newly placed clusters are recorded; the pass is repeated exactly when only a finalizer is missing. Otherwise nothing is sent, and waiting for a turn is no failure. |
| `SyncController.HeldIsSettledIff` | pkg/controllers/sync/controller.go:511-541 | Nobody is pending on the object whose overrides are sent exactly when no record had to be written, or its write met no conflict, or nobody is pending on the refreshed object. |
| `SyncController.ConflictSendsPendingOverrides` | pkg/controllers/sync/controller.go:520-527 | An object and a conflict after which the overrides of an object with a pending controller are sent. |
| `SyncController.SyncPass.HandleDeletionInClusters` | pkg/controllers/sync/controller.go:911-981 | Sorts recorded, joined clusters into clear and remaining, and removes or releases exactly the remaining objects. |
| `SyncController.SyncPass.CheckObjectRemovedFromAllClusters` | pkg/controllers/sync/controller.go:868-907 | Probes exactly the ready clusters not seen to be clear and succeeds exactly when all are ready and all probes pass. |
| `SyncController.AllGoneIff` | pkg/controllers/sync/controller.go:868-981 | The condition read off clusters and lookups is the one the deletion pass evaluates. |
| `SyncController.SyncPass.EnsureRemovalFromClusters` | pkg/controllers/sync/controller.go:831-861 | Nothing is left exactly when every recorded, joined cluster is ready, was looked up and showed no object of ours, and the later listing and live check agree; the pass is to be repeated exactly when something is left and all of it is on its way out; anything else is an error. Exactly the objects found are deleted, or released if they are to be orphaned. |
| `SyncController.SyncPass.HandleTerminating` | pkg/controllers/sync/controller.go:764-806 | The finalizer is given up exactly when nothing is left and its write succeeds, so in every recorded, joined cluster, ready and with a successful lookup, no object of ours is found; a conflict is reported exactly when that write meets one, and the pass is repeated exactly when all that is left is on its way out. |
| `SyncController.SyncPass.RemoveFinalizer` | pkg/controllers/sync/controller.go:1031-1053 | The finalizer goes exactly when its write succeeds, no write is needed without it, and a conflict is told from another failure. |
| `SyncController.SyncPass.Reconcile` | pkg/controllers/sync/controller.go:376-445 | Both guarantees for any pass. |
| `PropagationOrder.TemplateSeenThrough` | pkg/controllers/sync/controller.go:408-417 | Over joint runs, a create or update sends a template and a placement from a version of the object in which everything that modifications and resets obliged controllers to has been done. |
| `PropagationOrder.OverridesSeenThroughIff` | pkg/controllers/sync/resource.go:276-323 | The same holds of the version the sent overrides are from exactly when no record had to be written, or its write met no conflict, or nobody was pending on the refreshed object. |
| `PropagationOrder.ConflictOutrunsDownstream` | pkg/controllers/sync/controller.go:511-541 | A joint run in which a cluster gets its object with overrides that a downstream controller has not had its turn on. |
| `PropagationOrder.PropagationFollowsDownstream` | pkg/controllers/sync/controller.go:408-417 | In the version of the template, and under that condition the version of the overrides, after every modification every choice of controllers from later and later groups has stepped in that order. |
| `PropagationOrder.PropagationFollowsReset` | pkg/controllers/sync/controller.go:408-417 | The same for all controllers after the federate controller has written the object. |
| `Ordering.SortCanonical` | pkg/controllers/federate/util.go:343-363 | Sorting a collection with distinct keys forgets the order it was collected in. |
| `Ordering.LessIff` | pkg/controllers/federate/util.go:343-363 | Texts are ordered as in a dictionary: a proper beginning first, else by the first character that differs. |
| `ObservedKeys.ParseOfPrint` | pkg/util/propagationstatus/propagationstatus.go:134-148 | Parsing a printed record gives back both sets of keys. |
| `ObservedKeys.PrintExample` | pkg/controllers/federate/util.go:343-363 | The text of the record: keys joined by commas, federated and other keys by a bar. |
| `ObservedKeys.GenerateObservedKeys` | pkg/controllers/federate/util.go:343-363 | The record is a function of the two maps, whatever order the source map is walked in. |
| `ObservedKeys.ParseOfRecord` | pkg/util/propagationstatus/propagationstatus.go:134-148 | The record of a source reads back as its federated and its other keys. |
| `ObservedKeys.SyncedAgainstRecord` | pkg/util/propagationstatus/propagationstatus.go:114-132 | Against a fresh record two maps are in sync exactly when they agree on the keys observed as federated. |
| `MergePatch.MergeOntoNothing` | pkg/util/propagationstatus/propagationstatus.go:150-172 | Merging onto a value that is no object reproduces the patch exactly when it holds no null (section 2 of RFC 7396). |
| `MergePatch.MergedMember` | pkg/util/propagationstatus/propagationstatus.go:150-172 | A patch takes out what it names with null, merges objects, replaces anything else and leaves the rest (section 2 of RFC 7396). |
| `MergePatch.DiffThenMerge` | pkg/controllers/federate/util.go:367-383 | The created patch turns the first object into the second exactly when a merge patch can. |
| `Submap.CopySubmap` | pkg/util/annotation/submap.go:22-54 | Matched keys come from the source and all others from the destination; the count is the number of keys that changed; a nil map stays nil exactly when nothing matches. |
| `Submap.NoChangesMeansSame` | pkg/util/annotation/submap.go:22-54 | The count is zero exactly when the map did not change, and a second copy changes nothing. |
| `Federate.ClassifyStringMap` | pkg/controllers/federate/util.go:287-305 | Splits a map into its federated and its template part. |
| `Federate.FederatedObject.Update` | pkg/controllers/federate/util.go:149-247 | Panics, fails or brings the object to the desired one in exactly the stated cases; it reports a change exactly when the object differs, resets the pending controllers exactly then, and leaves an object behind that is up to date exactly without a clashing label. What the template holds is in the rows of FederateTemplate. |
| `Federate.Derive` | pkg/controllers/federate/util.go:166-188 | What the update takes from the source alone. |
| `Federate.MergeAnnotations` | pkg/controllers/federate/util.go:203-237 | Federated annotations and bookkeeping replace theirs, everybody else's stay; the change flag is exact. |
| `Federate.TemplatePatchable` | pkg/controllers/federate/util.go:58-77 | Whatever nulls the source holds, the patch to its template can be expressed. |
| `Federate.TemplateRegenerated` | pkg/util/propagationstatus/propagationstatus.go:150-172 | The stored patch, applied to the source, gives the template. |
| `Federate.UpToDateIff` | pkg/util/propagationstatus/propagationstatus.go:72-112 | An object that carries what an update writes is up to date exactly when the source has no clashing label; only this source's patch has to read back from its text. |
| `Federate.UpdateMakesUpToDate` | pkg/controllers/federate/util.go:149-247 | Once an update has run the check succeeds, under exactly that condition. |
| `Federate.UpdateIsFixedPoint` | pkg/controllers/federate/util.go:149-247 | A second update changes nothing. |
| `Federate.CreationIsFixedPoint` | pkg/controllers/federate/util.go:79-147 | A created object is up to date and updating it changes nothing. |
| `Federate.NothingToUpdateMeansUpToDate` | pkg/util/propagationstatus/propagationstatus.go:72-112 | The check and the update agree on what is stale. |
| `Federate.ClashingLabelNeverUpToDate` | pkg/util/propagationstatus/propagationstatus.go:114-132 | A concrete source with a clashing label that is never up to date. |
| `FederateTemplate.TemplateMembers` | pkg/controllers/federate/util.go:58-77 | For every source the template has no status and keeps every other member but the metadata as it is. |
| `FederateTemplate.TemplateFields` | pkg/controllers/federate/util.go:58-77 | Its metadata lacks the eight fields of the host API server, has maps of strings for labels and annotations, and keeps every other field. |
| `FederateTemplate.TemplateLabels` | pkg/controllers/federate/util.go:58-77 | Its labels are exactly the source's that are not federated, its annotations exactly the source's that are neither federated nor ignored. |
| `FederateTemplate.FederatedFromSource` | pkg/controllers/federate/util.go:95-147 | The federated object is labelled with exactly the source's federated labels and its type, annotated with exactly its federated annotations, and owned by it. |
| `FederateTemplate.CheckOutcome` | pkg/util/propagationstatus/propagationstatus.go:72-172 | For any object: the check fails on an unreadable template, or on an unreadable patch once labels and annotations are in sync; an object without annotations is stale; it succeeds exactly when both are in sync and the patched source is the template. |
| `FederateTemplate.UpToDateMeansCurrent` | pkg/util/propagationstatus/propagationstatus.go:72-112 | The check never misses a change: an object written for an older source is up to date with a newer one only if its template, labels and federated annotations are those of the newer one. |
| `FederateTemplate.UpToDateExactly` | pkg/util/propagationstatus/propagationstatus.go:72-112 | It is up to date exactly when these and the keys outside them have stayed the same, no label clashes with the type, and the source has gained nothing that the template leaves out. |
| `FederateTemplate.FirstStatusLooksStale` | pkg/util/propagationstatus/propagationstatus.go:150-172 | A source that is given its first status is reported as changed, although its template is not. |
| `FederateKeys.KubeAdmiralIsProper` | pkg/controllers/federate/util.go:249-341 | The controller's real keys and classifiers meet what the theorems ask of them. |
| `Bijection.Bijection.LookupByT1` | pkg/util/bijection/bijection.go:39-49 | The one right element that maps back to the key; none exactly if no right element does. |
| `Bijection.Bijection.LookupByT2` | pkg/util/bijection/bijection.go:51-61 | Finds the one left element mapped to a right one, none exactly if there is none. |
| `Bijection.Bijection.Add` | pkg/util/bijection/bijection.go:63-79 | Fails, changing nothing, exactly when either side is mapped; both maps stay inverse. |
| `Bijection.Bijection.DeleteT1` | pkg/util/bijection/bijection.go:81-94 | Removes the pair of a left element from both maps. |
| `Bijection.Bijection.DeleteT2` | pkg/util/bijection/bijection.go:96-109 | Removes the pair of a right element from both maps. |
| `InformerLifecycle.NextInv` | pkg/util/informermanager/informermanager.go:169-304 | Every FTC event keeps the maps on one domain, the informers mapped or cancelled, the registrations live and the histories chained. |
| `InformerLifecycle.RunInv` | pkg/util/informermanager/informermanager.go:169-304 | So does every sequence of events. |
| `InformerLifecycle.OneInformerPerType` | pkg/util/informermanager/informermanager.go:185-220 | At most one informer runs per type and none runs unmapped. |
| `InformerLifecycle.OneHandlerPerGenerator` | pkg/util/informermanager/informermanager.go:235-265 | At most one live handler per informer and generator, none on a cancelled informer, although the cache of applied configurations is not cleared. |
| `InformerLifecycle.LifecycleSafe` | pkg/util/informermanager/informermanager.go:185-304 | All of it after any sequence of events from the empty manager, and every update handler sees a chained nil-to-object-to-nil history. |
| `InformerLifecycle.RegistersUnlessRefused` | pkg/util/informermanager/informermanager.go:235-265 | Registering fails only if the informer refuses a handler or its removal. |
| `InformerLifecycle.RegisterOneMeans` | pkg/util/informermanager/informermanager.go:235-265 | With the predicate not holding nothing is registered; with it holding an earlier handler is given up and a new one made exactly if the generator has one; it fails exactly when the informer refuses either, and other generators keep theirs. |
| `InformerLifecycle.RegisteredAsDue` | pkg/util/informermanager/informermanager.go:235-265 | After a successful pass each generator has a registration exactly as its predicate and handler say, and was last given this configuration. |
| `InformerLifecycle.AfterProcessing` | pkg/util/informermanager/informermanager.go:169-268 | A processed FTC is given up if its type changed, ignored if another FTC has the type, and otherwise mapped, running, observed and announced; other FTCs are left alone. |
| `InformerLifecycle.AfterDeletion` | pkg/util/informermanager/informermanager.go:270-304 | After a deletion nothing runs for the FTC and its handlers have been told if it was ever observed; other FTCs are left alone. |
| `InformerManager.Manager.StopInformer` | pkg/util/informermanager/informermanager.go:281-285 | Cancels the FTC's informer and with it its handlers. |
| `InformerManager.Manager.ProcessFTCDeletion` | pkg/util/informermanager/informermanager.go:281-304 | Takes exactly the lifecycle's deletion step. |
| `InformerManager.Manager.RegisterHandlers` | pkg/util/informermanager/informermanager.go:235-265 | Registers the generators in order and stops at the first error, as the lifecycle's step does, and reports it. |
| `InformerManager.Manager.ProcessFTC` | pkg/util/informermanager/informermanager.go:169-268 | Takes exactly the lifecycle's step; it fails for good exactly when another FTC has the type, and is repeated exactly when the type changed, the informer is not synced or a handler was refused. |
| `InformerManager.Manager.GetResourceLister` | pkg/util/informermanager/informermanager.go:334-351 | The informer found for a type runs and watches that type; none is found exactly when no FTC has it. |
| `InformerManager.Manager.GetResourceFTC` | pkg/util/informermanager/informermanager.go:353-368 | The configuration found for a type is the last observed one of that type. |
| `EnvOverrider.BuildIndex` | pkg/controllers/override/envspatch.go:89-96 | The index holds the ascending positions of every name. |
| `EnvOverrider.RemoveAt` | pkg/controllers/override/envspatch.go:115-128 | Copying the stretches between the indexed positions filters the name out. |
| `EnvOverrider.ApplyEntry` | pkg/controllers/override/envspatch.go:98-142 | One entry does what the list-only definition says, and the index stays exact. |
| `EnvOverrider.ApplyEnvOverrider` | pkg/controllers/override/envspatch.go:79-145 | The indexed form computes what the plain list form computes, errors included. |
| `EnvOverrider.DeleteFilters` | pkg/controllers/override/envspatch.go:79-145 | Delete keeps exactly the variables no entry names, in order. |
| `EnvOverrider.OverwriteMaps` | pkg/controllers/override/envspatch.go:79-145 | Overwrite never adds or moves a variable; a variable that entries name becomes the last of them, any other stays. |
| `EnvOverrider.AddAppends` | pkg/controllers/override/envspatch.go:79-145 | AddIfAbsent succeeds exactly for a non-empty list of distinct new names, and appends it. |
| `EnvOverrider.UnsupportedNeedsAnEntry` | pkg/controllers/override/envspatch.go:79-145 | An unsupported operator is an error exactly when there is an entry. |
| `OverrideBatch.LookForMatchedContainer` | pkg/controllers/override/commandargspatch.go:83-99 | Finds the first container of a name, init containers searched first, and nothing exactly when no container has the name. |
| `OverrideBatch.OneMoreOverrider` | pkg/controllers/override/envspatch.go:31-72 | An overrider without a container of its name does nothing; otherwise it fails exactly if its operation fails on the first such container, and else changes that value and nothing else. |
| `OverrideBatch.ParseOverriders` | pkg/controllers/override/envspatch.go:31-72 | The batched values, keyed by path, are those the overriders give one at a time; it fails exactly when there is an overrider and the kind has no pod spec, the pod spec cannot be read, or one of them fails. |
| `OverrideBatch.BatchEqualsSequence` | pkg/controllers/override/envspatch.go:48-76 | Replaying the batched patches in any order gives what applying the overriders one at a time gives. |
| `OverrideBatch.ConvertPatchMap` | pkg/controllers/override/envspatch.go:147-168 | The patches of the map, one per path, in ascending order of path whatever order the map is walked in. |
| `OverrideBatch.EmittedPatchesEqualSequence` | pkg/controllers/override/envspatch.go:48-76 | The emitted patches, applied to the containers their paths lead to, give what the overriders give one at a time. |
| `OverrideBatch.ParseEnvOverriders` | pkg/controllers/override/envspatch.go:31-76 | From the object to the sorted patch list, for environment overriders, errors included. |
| `OverrideBatch.ApplyEntrypointOverrider` | pkg/controllers/override/commandargspatch.go:109-131 | Append adds at the end and fails on no value, overwrite replaces, delete keeps exactly the values not listed, in order, and an unsupported operator fails. |
| `OverrideBatch.ParseEntrypointOverriders` | pkg/controllers/override/commandargspatch.go:33-80 | The same for command and args overriders. |
| `OverridePath.PathsIdentifyContainers` | pkg/controllers/override/util.go:369-376 | Two containers have the same patch path exactly when they are the same container, so patches keyed by path are keyed by place. |
| `OverridePath.PathExamples` | pkg/controllers/override/util.go:369-376 | The text of two paths. |
| `OverrideReplay.FilterFinalizerPatches` | pkg/controllers/override/util.go:347-356 | Drops exactly the patches of finalizers, in order. |
| `OverrideReplay.RulesForCluster` | pkg/controllers/override/util.go:137-201 | The loop over a policy's rules collects what walking the rules collects. |
| `OverrideReplay.ParseOverrides` | pkg/controllers/override/util.go:137-201 | One policy for all clusters, with the object each cluster has reached carried on. |
| `OverrideReplay.MergeOverrides` | pkg/controllers/override/util.go:203-213 | Each cluster's later patches follow its earlier ones. |
| `OverrideReplay.ComputeOverrides` | pkg/controllers/override/util.go:137-213 | Over all policies each cluster's list is what walking all rules in order collects. |
| `OverrideReplay.WalkReplays` | pkg/controllers/override/util.go:137-213 | The object carried along is always the template with the patches so far, finalizer patches left out, applied in sequence. |
| `OverrideReplay.RuleSeesReplay` | pkg/controllers/override/util.go:137-213 | Every rule is parsed against the template with all earlier rules' patches replayed (section 3 of RFC 6902). |
| `OverrideReplay.OneMoreRule` | pkg/controllers/override/util.go:137-201 | A rule that does not match adds nothing; one that matches adds its patches for the replayed template; the walk fails exactly when matching, parsing or applying fails. |
| `OverrideReplay.ApplyInOrder` | pkg/controllers/override/util.go:137-201 | A patch document is applied from its first to its last operation (section 3 of RFC 6902). |
| `OverrideOrder.ControllerOrder` | pkg/controllers/sync/resource.go:287-292 | Numbers the controllers of all groups in FTC order. |
| `OverrideOrder.ComparatorIsStrictWeakOrder` | pkg/controllers/sync/resource.go:294-309 | The comparator orders by position, unknown last, and is a strict weak order. |
| `OverrideOrder.StableSortUnique` | pkg/controllers/sync/resource.go:294-309 | The stable sort has one possible result. |
| `OverrideOrder.MergeInOrder` | pkg/controllers/sync/resource.go:311-320 | The map filled from the sorted entries holds each cluster's patches in their order. |
| `OverrideOrder.ClusterPatchesInFtcOrder` | pkg/controllers/sync/resource.go:276-323 | A cluster's patches are those of known controllers in FTC order, then those of unknown ones in their original order. |
| `OverrideOrder.PermutationIrrelevant` | pkg/controllers/sync/resource.go:276-323 | With one entry for each known controller, moving their entries about changes no cluster's patches. |
| `OverrideOrder.OverridesForCluster` | pkg/controllers/sync/resource.go:276-323 | The method returns exactly that list. |
| `SchedulingTriggers.IsClusterTriggerChanged` | pkg/controllers/scheduler/schedulingtriggers.go:119-131 | True exactly when a hash of the baseline is gone or different; a new cluster alone is no change. |
| `SchedulingTriggers.CompareStableTriggers` | pkg/controllers/scheduler/schedulingtriggers.go:133-144 | True exactly when one of the triggers no toggle masks differs. |
| `SchedulingTriggers.CompareTriggered` | pkg/controllers/scheduler/schedulingtriggers.go:186-222 | Fires exactly on a lost or changed taint hash or a permitted difference; otherwise the reasons are exactly the differences. |
| `SchedulingTriggers.ComputeSchedulingAnnotations` | pkg/controllers/scheduler/schedulingtriggers.go:146-223 | Fires exactly when the declarative condition holds, then stores the new triggers, and otherwise hands the old baseline back untouched. |
| `SchedulingTriggers.FiresIff` | pkg/controllers/scheduler/schedulingtriggers.go:146-223 | An object is rescheduled exactly when it has no readable baseline, or its triggers are not the baseline and no policy applies, an unmaskable trigger differs, or its policy has a trigger block and a taint hash is lost or a switched-on trigger differs. |
| `SchedulingTriggers.DeferredForIff` | pkg/controllers/scheduler/schedulingtriggers.go:186-222 | Each reason a deferred reschedule is recorded with stands for exactly its difference. |
| `SchedulingTriggers.QuietMeansSame` | pkg/controllers/scheduler/schedulingtriggers.go:186-222 | Under a trigger block, not firing and finding no difference means the triggers are the same up to the listing order of clusters. |
| `SchedulingTriggers.RemovalFires` | pkg/controllers/scheduler/schedulingtriggers.go:174-205 | When a cluster of the baseline is gone the object is rescheduled with every toggle off, unless rescheduling is disabled or has no trigger block. |
| `SchedulingTriggers.BaselineIsLastFired` | pkg/controllers/scheduler/schedulingtriggers.go:146-239 | After any run the baseline holds the triggers of the last pass that fired. |
| `SchedulingTriggers.DeferredIsReevaluated` | pkg/controllers/scheduler/schedulingtriggers.go:146-239 | However many passes defer, the next is judged against the same baseline. |
| `SchedulingTriggers.DeferredFiresOncePermitted` | pkg/controllers/scheduler/schedulingtriggers.go:146-239 | A deferred difference fires in the first pass whose toggles permit it. |
| `SchedulingTriggers.RunKeepsWellFormed` | pkg/controllers/scheduler/schedulingtriggers.go:241-295 | Every baseline a run stores has one hash of each kind per cluster. |
| `SchedulingTriggers.NoSchedulingConsumesTheTrigger` | pkg/controllers/scheduler/scheduler.go:494-509 | A pass that fires under the no-scheduling annotation moves the baseline; no later pass fires until the triggers change again. |
| `SchedulingTriggers.BaselineIsLastScheduled` | pkg/controllers/scheduler/scheduler.go:494-533 | Over every run the object is scheduled for the triggers its baseline holds exactly unless the last pass that fired did so under the no-scheduling annotation, for other triggers. |
| `SchedulingTriggers.NothingLostWithoutAnnotation` | pkg/controllers/scheduler/scheduler.go:494-533 | As long as no pass fires under that annotation no change is left unscheduled. |
| `SchedulingTriggers.HashClusters` | pkg/controllers/scheduler/schedulingtriggers.go:362-372 | Every cluster has its hash under its name. |
| `SchedulingTriggers.ComputeSchedulingTriggers` | pkg/controllers/scheduler/schedulingtriggers.go:241-295 | Fails exactly when replicas or resource request cannot be read; else the triggers list the clusters in order with one hash of each kind per cluster, and migration info counts only when the policy enables it. |
| `SchedulingTriggers.FederatedObject.UpdateSchedulingAnnotations` | pkg/controllers/scheduler/schedulingtriggers.go:225-239 | Both annotations are brought to the given values and the flag says exactly whether one changed. |
| `SchedulingTriggers.FederatedObject.PrepareToSchedule` | pkg/controllers/scheduler/scheduler.go:478-533 | Scheduling is skipped exactly when nothing fires or the object opts out; the object is written exactly when a skipped pass changed something; the stored reasons are exactly the deferred differences. |
| `ControllerEntries.WithoutOwnsNone` | pkg/apis/core/v1alpha1/extensions_federatedobject.go:125-142 | Deleting leaves no entry of a controller exactly when it had at most one. |
| `ControllerEntries.AtFirstEntry` | pkg/apis/core/v1alpha1/extensions_federatedobject.go:73-142 | Reading, deleting and setting act on the controller's first entry: its items, the list without it, the list with it replaced. |
| `ControllerEntries.AtNoEntry` | pkg/apis/core/v1alpha1/extensions_federatedobject.go:73-142 | Without an entry nothing is read or deleted, and setting adds one at the end. |
| `ControllerEntries.ItemsAfterWith` | pkg/apis/core/v1alpha1/extensions_federatedobject.go:84-123 | A controller reads back what it set, exactly unless it set nothing and had a further entry with items. |
| `ControllerEntries.OthersAfterWith` | pkg/apis/core/v1alpha1/extensions_federatedobject.go:84-123 | No other controller's entry is touched. |
| `ControllerEntries.WithKeepsOnePerController` | pkg/apis/core/v1alpha1/extensions_federatedobject.go:158-193 | Setting keeps at most one entry per controller. |
| `ControllerEntries.WithTwice` | pkg/apis/core/v1alpha1/extensions_federatedobject.go:158-193 | Setting the same again changes nothing, exactly unless it deletes a further entry. |
| `ControllerEntries.Spec.GetPlacementUnion` | pkg/apis/core/v1alpha1/extensions_federatedobject.go:62-71 | The union of all controllers' placements. |
| `ControllerEntries.Spec.GetControllerPlacement` | pkg/apis/core/v1alpha1/extensions_federatedobject.go:73-82 | The placement of the controller's first entry, none without one. |
| `ControllerEntries.Spec.SetControllerPlacement` | pkg/apis/core/v1alpha1/extensions_federatedobject.go:84-123 | The entry holds the sorted names, no names delete it, and the flag is exact. |
| `ControllerEntries.Spec.DeleteControllerPlacement` | pkg/apis/core/v1alpha1/extensions_federatedobject.go:125-142 | The first entry goes and the flag is exact. |
| `ControllerEntries.Spec.GetControllerOverrides` | pkg/apis/core/v1alpha1/extensions_federatedobject.go:146-153 | The overrides of the controller's first entry, none without one. |
| `ControllerEntries.Spec.SetControllerOverrides` | pkg/apis/core/v1alpha1/extensions_federatedobject.go:155-193 | The entry holds the overrides in ascending order of cluster, ties in any order; an empty list deletes it, and the flag is exact. |
| `ControllerEntries.Spec.DeleteControllerOverrides` | pkg/apis/core/v1alpha1/extensions_federatedobject.go:195-212 | The first entry goes and the flag is exact. |
| `SchedulingResult.UpdateReplicasOverride` | pkg/controllers/scheduler/util.go:56-86 | The stored list is a function of the map, whatever order it is walked in; the flag is exact. |
| `SchedulingResult.FirstReplicas` | pkg/controllers/scheduler/schedulingunit.go:190-223 | The count of the first patch that replaces the value at the path by an integer, none if there is no such patch. |
| `SchedulingResult.CurrentIsLast` | pkg/controllers/scheduler/schedulingunit.go:190-223 | Of several overrides of a cluster the last one with a count decides. |
| `SchedulingResult.GetCurrentReplicas` | pkg/controllers/scheduler/schedulingunit.go:190-223 | For every placed cluster, the first usable replacement of the last override that has one. |
| `SchedulingResult.ResultRoundTrip` | pkg/controllers/scheduler/scheduler.go:732-751 | For every object, a result that was applied reads back exactly, clusters and counts, exactly unless deleting an entry uncovers another of the scheduler's with clusters or replica counts in it. |
| `SchedulingResult.SecondApplyIsNoOp` | pkg/controllers/scheduler/scheduler.go:725-798 | Applying it again changes nothing, the scheduling annotation included, exactly unless it deletes a further entry. |
| `SchedulingResult.TidyObjects` | pkg/controllers/scheduler/scheduler.go:725-798 | With one entry per controller both hold without exception. |
| `SchedulingResult.AppliedKeepsTidy` | pkg/controllers/scheduler/scheduler.go:725-798 | Applying keeps at most one entry per controller. |
| `SchedulingResult.AppliedKeepsOthers` | pkg/controllers/scheduler/scheduler.go:725-798 | What other controllers stored is not touched. |
| `SchedulingResult.EmptyResultReadsBack` | pkg/controllers/scheduler/scheduler.go:732-737 | Descheduling reads back as nothing exactly when no further entry with clusters was there. |
| `SchedulingResult.DuplicateEntrySurvivesDescheduling` | pkg/apis/core/v1alpha1/extensions_federatedobject.go:127-142 | A concrete object on which it does not. |
| `SchedulingResult.DuplicateOverrideComesBack` | pkg/apis/core/v1alpha1/extensions_federatedobject.go:195-212 | A concrete object whose second override entry gives a count to a cluster that was given none. |
| `SchedulingResult.FederatedObject.ApplySchedulingResult` | pkg/controllers/scheduler/scheduler.go:725-798 | The object becomes the one described, the flag is exact, and it fails exactly when the result changed and the template does not parse. |
| `ClusterStatus.Store.ThresholdAdjustedStatusCondition` | pkg/controllers/federatedcluster/cluster_status_cache.go:44-102 | One probe adjusts the saved data of its cluster and no other's. |
| `ClusterStatus.StreakMeaning` | pkg/controllers/federatedcluster/cluster_status_cache.go:55-101 | What is saved describes the longest unbroken streak of equal observations that ends now: the probe before it saw something else or only filled the store. |
| `ClusterStatus.ReportChangesIff` | pkg/controllers/federatedcluster/cluster_status_cache.go:55-101 | A probe changes the report exactly when it observes another offline or ready status and has done so without a break for at least the threshold; what is reported is then the observation, else the earlier report. |
| `ClusterStatus.FirstProbeKeepsReport` | pkg/controllers/federatedcluster/cluster_status_cache.go:55-73 | The first probe after a restart never changes an existing report, and is the report if there is none. |
| `ClusterStatus.ChangeNeedsAgreement` | pkg/controllers/federatedcluster/cluster_status_cache.go:55-101 | Whenever the report changes, every probe of the last threshold saw the new pair. |
| `Base64Url.DecodeOfEncode` | pkg/util/aggregatedlister/global_resource_version.go:52-88 | Unpadded base64url decodes what it encoded, for every byte string (section 5 of RFC 4648). |
| `Base64Url.TestVectors` | pkg/util/aggregatedlister/global_resource_version.go:52-88 | The test vectors of section 10 of RFC 4648, and the two digits of the URL alphabet. |
| `Base64Url.NewlinesDropped` | pkg/util/aggregatedlister/global_resource_version.go:52-57 | Line breaks are left out before a token is decoded, and nothing else is. |
| `GlobalResourceVersion.MarshalRvs` | pkg/util/aggregatedlister/global_resource_version.go:102-139 | The document is a function of the map, whatever order it is walked in. |
| `JsonText.PlainReadsBack` | pkg/util/aggregatedlister/global_resource_version.go:56 | A string that needs no escape, closed by a quote, is read as itself, whatever follows. |
| `JsonText.EscapeTable` | pkg/util/aggregatedlister/global_resource_version.go:56 | The escapes of one letter are those of section 7 of RFC 8259, and no others. |
| `JsonText.ClefExample` | pkg/util/aggregatedlister/global_resource_version.go:56 | The example of the same section: two escapes that stand for one character of four bytes. |
| `JsonText.StringLoses` | pkg/util/aggregatedlister/global_resource_version.go:56 | No string, escapes of section 7 of RFC 8259 included, stands for more characters other than quotes than it takes up, and it stands for as many only if it needs no escape. |
| `JsonText.ObjectLoses` | pkg/util/aggregatedlister/global_resource_version.go:56 | The same for objects, with any white space and any values that are no strings among the members. |
| `GlobalResourceVersion.DocumentReadsBack` | pkg/util/aggregatedlister/global_resource_version.go:102-139 | A document reads back as its map exactly when no name or version needs an escape, read with all of RFC 8259: no escape, number, literal or nested value can make up for what is lost. |
| `GlobalResourceVersion.QuotedNameReadsBackAsTwo` | pkg/util/aggregatedlister/global_resource_version.go:125-130 | Names with quotes in them that print the document of another map. |
| `GlobalResourceVersion.TokenNotReserved` | pkg/util/aggregatedlister/global_resource_version.go:78-89 | No map of versions prints as the empty token or as "0". |
| `GlobalResourceVersion.TokenReadsBackIff` | pkg/util/aggregatedlister/global_resource_version.go:40-89 | A state that is not all zero comes back from its token exactly when no name or version needs an escape. |
| `GlobalResourceVersion.TokenRoundTrip` | pkg/util/aggregatedlister/global_resource_version.go:40-89 | For every cluster, Get on the decoded token answers what Get on the original answers. |
| `GlobalResourceVersion.TokenEquality` | pkg/util/aggregatedlister/global_resource_version.go:78-89 | Two tokens are equal exactly when both states are zero or the states are equal. |
| `GlobalResourceVersion.GlobalVersion.FromString` | pkg/util/aggregatedlister/global_resource_version.go:40-58 | The reserved tokens, an undecodable token and a decoded document each give the state described. |
| `GlobalResourceVersion.GlobalVersion.Set` | pkg/util/aggregatedlister/global_resource_version.go:60-67 | The cluster answers the new version; the others keep their answers unless this call ends the all-zero state. |
| `GlobalResourceVersion.GlobalVersion.Get` | pkg/util/aggregatedlister/global_resource_version.go:69-76 | "0" in the all-zero state, else the stored version or the empty string. |
| `GlobalResourceVersion.GlobalVersion.String` | pkg/util/aggregatedlister/global_resource_version.go:78-89 | Returns the token of the state. |
| `GlobalResourceVersion.GlobalVersion.Clone` | pkg/util/aggregatedlister/global_resource_version.go:91-100 | A new object with the same value. |
| `AutoMigration.GetPodScheduledCondition` | pkg/controllers/automigration/util.go:60-74 | The first PodScheduled condition, none exactly if there is none, and whether it is false for being unschedulable. |
| `AutoMigration.PodStates` | pkg/controllers/automigration/util.go:30-74 | By its first PodScheduled condition a live pod is scheduled when that is true, and stuck when it is false as unschedulable and has been for the threshold. |
| `AutoMigration.CountIsSize` | pkg/controllers/automigration/util.go:30-58 | The counts are numbers of pods. |
| `AutoMigration.CountScheduledAndUnschedulable` | pkg/controllers/automigration/util.go:30-58 | Counts the scheduled and the stuck pods and returns the smallest time to the next crossing. |
| `AutoMigration.NextCrossingIsExact` | pkg/controllers/automigration/util.go:30-58 | For fixed pods the stuck count stays what it is exactly until nextCrossIn has passed, for ever if there is none, and is higher from then on. |
| `AutoMigration.CapacityIsNotNegative` | pkg/controllers/automigration/controller.go:418-437 | No capacity is negative, so the clamp never takes effect. |
| `AutoMigration.ShortIff` | pkg/controllers/automigration/controller.go:418-432 | A capacity is reported exactly when pods are stuck and fewer than desired can run. |
| `AutoMigration.ClusterCapacity` | pkg/controllers/automigration/controller.go:418-437 | A reported capacity lies between zero and the desired count, that count excluded. |
| `AutoMigration.AnalyzeCluster` | pkg/controllers/automigration/controller.go:376-440 | What one cluster contributes, its skips and failures included. |
| `AutoMigration.EstimateCapacity` | pkg/controllers/automigration/controller.go:364-451 | Capacities for exactly the clusters with a short object and replicas for exactly those seen, the last object of a cluster deciding; the smallest next crossing, and a backoff exactly when a cluster asks for one. |
| `AutoMigration.CapacitiesInRange` | pkg/controllers/automigration/controller.go:429-439 | Every stored capacity lies between zero and the desired count of its cluster. |
| `AutoMigration.RequeueIsExact` | pkg/controllers/automigration/controller.go:404-450 | Until the requeue time has passed no cluster's stuck count changes, and then some cluster's has risen. |
| `PolicyCounter.TotalIsSum` | pkg/controllers/policyrc/counter.go:50-80 | The total is the sum of a policy's multiplicities over the objects, in whatever order they are listed. |
| `PolicyCounter.TotalAfterPut` | pkg/controllers/policyrc/counter.go:60-78 | An update takes out the object's previous references and puts in its new ones, nothing else. |
| `PolicyCounter.AfterHoldsLatest` | pkg/controllers/policyrc/counter.go:60-65 | After a run of updates each object's references are those of its latest update. |
| `PolicyCounter.Counter.Update` | pkg/controllers/policyrc/counter.go:50-80 | Every count stays exact, the panic is unreachable, and every policy whose count changed is flagged. |
| `PolicyCounter.Counter.GetPolicyCounts` | pkg/controllers/policyrc/counter.go:82-92 | Each answer is the number of references the known objects hold. |

## Left out

- Kubernetes clients, informers' own machinery, events, metrics, logging and leader election: they appear as a store, a
  queue, an operation log or a parameter.
- Workers running in parallel on different keys: each pass is one atomic step.
- The mcs controllers, which write an empty pending list onto objects of their own: not a step of the pending-controllers runs.
- Sync: the version manager, what is in the status written after dispatch (`setFederatedStatus`), adoption policies and the worker for
  cascading deletion; nothing is claimed about the member API server beyond what the pass looked up.
- SyncController.SyncPass.ReconcileLive: the repeated status write is one step with the object the last refetch gave; a write
  that fails every time ends the pass.
- FollowerController.Controller.ObjectDelivered: speaks of objects whose template parses; an object without a readable
  template has no key and is dropped by the handler.
- Follower references and placements are sets: the order of the stored lists, and the naming of federated objects, are not modelled.
- Federate: the merge-patch library is taken to follow section 2 of RFC 7396.
- Informer manager: starting, shutting down and the work queue with its retries; handlers are added before the start.
- Overrides: image and string-map overriders, the matching of clusters and the JSON Patch library are parameters or left
  out; the reuse of slices between steps is not captured, values are.
- GlobalResourceVersion.TokenReadsBackIff: the JSON decoder is asked to follow `JsonText` on the printed document of the versions
  at hand. Bytes that are not well-formed UTF-8, which Go replaces, and Go's limit on the depth of nested values are not
  modelled.
- Scheduling triggers: hashes are abstract values, so hash collisions and the order of equal taints are not modelled; hashing
  and marshalling of strings are taken to succeed.
- AutoMigration: overflow of durations is not modelled.
- ClusterStatus: the conditions are an (offline, ready) pair; their text and timestamps other than the transition time are not modelled.
- PolicyCounter: the counter keeps the caller's slice; a caller that changes it later is not modelled. The mutex is not modelled.
- The scheduling algorithm, its plugins and the replica planner; the HPA aggregator, webhooks and service export and import.
- Generated clients, API types, options, MultiMap and the small annotation, label and finalizer helpers: they would only add
  easy members.

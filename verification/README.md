# NGINX Gateway Fabric: verified model

NGINX Gateway Fabric turns Gateway API resources into NGINX configuration. This project models the parts of its
control plane where state, ordering and retries decide correctness, and proves what they keep over whole runs.
Where a promise does not hold for every run, a lemma shows a run that breaks it and another gives the exact
condition.

| file | component |
|---|---|
| EventLoop.dfy | the double-buffered event loop and the readiness signal, as a transition system and over arrays |
| ChangeProcessor.dfy | captured changes, the changed flag, the cached graph |
| Batching.dfy | whether the cuts between batches show in the graph |
| Unstored.dfy | events on kinds without a store and the configuration resolved from them |
| RebuildNow.dfy | whether the cached graph is what a rebuild now would give |
| Pipeline.dfy | the event loop and the change processor together |
| ConfigDelivery.dfy | pushes and subscriptions around the file lock and the broadcaster |
| DeliveryProgress.dfy | no push and no subscription gets stuck |
| ResponsePairing.dfy | one subscription: initial requests, broadcasts and the agent's answers |
| PlusActions.dfy | NGINX Plus API actions and the test that skips sending them |
| StatusQueue.dfy | the status queue with its one-slot wake-up channel |
| StatusSetters.dfy | status setters, their comparisons and the retry loop |
| LeaderBuffer.dfy | status groups before and after becoming leader |
| Annotations.dfy | the annotation merge with its serialized ownership record |
| Gateways.dfy, ServicePorts.dfy | change detection and the ports of the Service |
| Workloads.dfy | creating and deleting workload objects over runs |
| ResourceNames.dfy, SecretSlots.dfy | names within the label limit of RFC 1035 section 2.3.4, and Secrets classified by them |
| Finalizers.dfy | the finalizer cache under failures and interference |
| WafGate.dfy | the fail-closed gate for pending WAF bundles |
| Ordering.dfy, Decimal.dfy, Wrappers.dfy | sorting, permutations, decimal rendering and optional values used by the others |

Conventions. A concurrent protocol is a pure step function over explicit steps; a step that is not enabled
leaves the state as it is, and a run is any finite sequence of steps. Where the program updates fields in place,
a class repeats its methods and each is tied to the step function. API calls, the agent, the scheduler, map
iteration order and spare slice capacity are parameters, quantified over. The graph builder, the bundle source
and the relevance questions are function parameters, and so is the hash of a name. Names are sequences of characters, one per
byte, as Kubernetes names are ASCII.

Assumptions. The broadcaster is not shutting down. The agent answers each request once and in order. An API call
that reports a failure had no effect, except where lost answers are modelled (Finalizers.dfy). Other clients do not
touch the finalizer or the annotation record. Distinct Gateways have distinct resource names. Where a lemma speaks of
steady pollers, they have the same bundles at every Process call. The graph builder is a function of the store and the
bundles it is handed: fetching a source again gives the same result.

Code against documentation. The comment above the subscription code says that holding the lock over Subscribe
and the initial configuration rules out missed updates; the listener table is filled by another goroutine, so
that takes the listener to be entered in time (`ConfigDelivery.PushesAreSafeIffAllListed`). A comment in the
message loop says that answers to initial requests are ignored there; that holds as long as no broadcast is
pending (`ResponsePairing.PairedIffInitialWaitsWereAnswered`).

## Model

| member | source | states |
|---|---|---|
| `EventLoop.ExactlyOnceInOrder` | internal/framework/events/loop.go:31-148 | In every interleaving of arriving events and handler progress: the first batch is the prepared one; the later batches followed by the waiting buffer are the received events in order, each once; no later batch is empty; at most one handler is active; an idle loop has nothing waiting; the ready channel is closed at most once |
| `EventLoop.EverythingIsDelivered` | internal/framework/events/loop.go:111-141 | From every reachable state, letting the active handler and its successor finish leaves the loop idle with every received event in exactly one handled batch |
| `EventLoop.RunKeepsInvariant` | internal/framework/events/loop.go:61-142 | The invariant behind both, over whole runs |
| `EventLoop.HandlerMoveKeepsInvariant` | internal/controller/handler.go:206-211 | A handler that saw the readiness flag unset is the only one, so the flag is still unset when it closes the channel |
| `EventLoop.EventLoop.constructor` | internal/framework/events/loop.go:43-57 | Two empty buffers with distinct backing arrays, nothing received |
| `EventLoop.EventLoop.Append` | internal/framework/events/loop.go:119-121 | Appending in place or into a grown copy adds the event to the next batch and leaves the batch a handler is reading as it was |
| `EventLoop.EventLoop.SwapBatches` | internal/framework/events/loop.go:144-148 | With no handler active the buffers trade places, the next batch is cut to length zero and no backing array is shared |
| `EventLoop.EventLoop.HandleBatch` | internal/framework/events/loop.go:67-79 | A handler is started on the current batch |
| `EventLoop.EventLoop.ReceiveEvent` | internal/framework/events/loop.go:119-132 | Receiving an event on the heap is the receive step of the abstract loop |
| `EventLoop.EventLoop.FinishHandling` | internal/framework/events/loop.go:133-139 | The end of a handler on the heap is the done step of the abstract loop |
| `EventLoop.EventLoop.MoveHandler` | internal/controller/health.go:38-44 | The readiness step of a handler: flag set and channel closed together |
| `EventLoop.EventLoop.Start` | internal/framework/events/loop.go:61-142 | The double-buffered loop over arrays, for every schedule and every capacity the runtime may pick, is in the state of the abstract run; so what a handler reads is never overwritten |
| `ChangeProcessor.CacheAgreesIffFrame` | internal/controller/state/change_processor.go:360-390 | In every run of captures and Process calls, with any pollers, the cached graph equals a build of the current store with the bundles of the last build, if and only if no event that the predicates ignore changes the build |
| `ChangeProcessor.RunAgrees` | internal/controller/state/store.go:284-346 | Over every run the store stays well formed, and an unset flag means the cached graph is that of the current store and the bundles last used |
| `ChangeProcessor.UnflaggedEventKeepsBuild` | internal/controller/state/changed_predicate.go:20-60 | An event that none of the three predicates flags does not change the build, under the frame hypothesis |
| `ChangeProcessor.AgreementNeedsFrame` | internal/controller/state/store.go:284-346 | Conversely, every violation of the hypothesis shows up in some run |
| `Unstored.PushAgreesIffFrames` | internal/controller/state/change_processor.go:207-209 | In every run the cached graph agrees with the store and the pushed configuration with the objects of kinds without a store, such as EndpointSlices, if and only if neither an ignored event on a stored object changes the build nor an ignored one on an unstored object changes the configuration |
| `Unstored.RunPushAgrees` | internal/controller/state/store.go:284-346 | Over every run, under both hypotheses, a configuration that was not pushed again is still the right one |
| `Unstored.PushAgreementNeedsFrame` | internal/controller/state/store.go:295-300 | Conversely, every violation for an unstored object shows up in some run |
| `Unstored.ReferredEventCounts` | internal/controller/state/changed_predicate.go:24-36 | Whether its kind is stored or not, an event on an object the latest graph refers to makes its batch bring a new graph |
| `Unstored.UnreferredEventsDoNotCount` | internal/controller/state/changed_predicate.go:24-36 | A batch of events on unstored objects that the latest graph does not refer to brings none |
| `Unstored.NothingIsRelevantYet` | internal/controller/state/change_processor.go:146-159 | Before there is a graph, events that count by relevance never bring the first one |
| `Unstored.FirstGraphComes` | internal/controller/state/store.go:284-301 | Any other upsert brings a graph, unless it repeats a stored version of a kind that counts by version |
| `Batching.BatchingIrrelevantIff` | internal/controller/handler.go:202-206 | With pollers that may have anything at any batch, and differ between the two ways to cut: store and graph never depend on either, if and only if the frame hypothesis holds and the build ignores the bundles it is handed |
| `Batching.BatchingIsIrrelevantIfCovered` | internal/controller/state/change_processor.go:360-416 | Under the frame hypothesis, if the graphs along the way have no bundles beyond those of the pollers, in particular if there are none, any two ways to cut the events into batches, one event each included, end with the same store and graph: those of all events in one batch |
| `Batching.BatchingAgreesIffCutsAgree` | internal/controller/state/change_processor.go:360-416 | For any given events and steady pollers: no way to cut what has come so far matters, if and only if no single cut does, a finite test of the builder on the stores passed through |
| `Batching.BatchingNeverMattersIff` | internal/controller/state/change_processor.go:360-416 | With steady pollers, none for instance: batching never matters for any events, if and only if ignored events do not change the build and the bundles of one graph do not change the next |
| `Batching.HandleAllSettles` | internal/controller/handler.go:189-206 | In whatever batches the events came, store and graph are those of a single batch, given that no single cut matters |
| `Batching.StoreIsApplied` | internal/controller/state/store.go:284-346 | The store is that of all events in order, whatever the batches, the pollers and the builder |
| `Batching.UnflaggedStretchKeepsBuild` | internal/controller/state/changed_predicate.go:20-60 | A graph that nothing in a stretch of events counts for still fits after it |
| `Batching.BundlesMakeBatchingMatter` | internal/controller/state/change_processor.go:251-255 | A policy is replaced by one that cannot be fetched: in two batches the fallback keeps the bundle, in one batch there is none, although the frame hypothesis holds and no poller runs |
| `Batching.FallbackNeverMattersIff` | internal/controller/state/graph/policies.go:1136-1156 | For the stale-bundle fallback batching never matters, if and only if the pollers have the bundle |
| `RebuildNow.AgreesNowIffStable` | internal/controller/state/change_processor.go:360-416 | With steady pollers the cached graph is in every run what a rebuild with the bundles at hand now would give, if and only if every build a run can come to is stable under building once more, before and after an ignored event |
| `RebuildNow.ChainIsReachable` | internal/controller/state/change_processor.go:360-416 | Every chain of builds, each handed the bundles of the one before, is that of some run |
| `RebuildNow.FallbackAgreesNow` | internal/controller/state/graph/policies.go:1136-1156 | For the stale-bundle fallback the cached graph is always what a rebuild now would give |
| `Pipeline.HandledThenWaiting` | internal/framework/events/loop.go:111-141 | At any moment of any schedule the events handed to the processor followed by those waiting are the prepared ones followed by the received ones |
| `Pipeline.ProcessorFollowsTheLoop` | internal/controller/handler.go:189-206 | At any moment of any schedule, store and graph after the batches started so far are those of their events in one batch |
| `Pipeline.IdleMeansUpToDate` | internal/framework/events/loop.go:61-142 | After any schedule run to idle, the processor has the store and the graph of all prepared and received events, however the loop cut them |
| `ChangeProcessor.Processor.constructor` | internal/controller/state/change_processor.go:115-160 | Empty store, flag unset, no graph |
| `ChangeProcessor.Processor.CaptureUpsertChange` | internal/controller/state/store.go:284-309 | Capturing an upsert: the stored object, and the flag by the kind's predicate against the object replaced |
| `ChangeProcessor.Processor.CaptureDeleteChange` | internal/controller/state/store.go:311-338 | Capturing a delete: a persisted object that is not there changes nothing |
| `ChangeProcessor.Processor.ForceRebuildNow` | internal/controller/state/store.go:349-351 | The flag is set, the store stays |
| `ChangeProcessor.Processor.ProcessChanges` | internal/controller/state/change_processor.go:360-390 | No graph unless something was flagged since the last call; then the build of the store with the merged bundles, and the flag is reset |
| `ChangeProcessor.Processor.MergeWAFBundles` | internal/controller/state/change_processor.go:392-416 | Polled bundles over those of the latest graph |
| `ChangeProcessor.Processor.HandleBatch` | internal/controller/handler.go:189-206 | All events captured in order, then one Process |
| `ConfigDelivery.NoMissedConfiguration` | internal/controller/nginx/agent/command.go:156-187 | In every interleaving of pushes and subscriptions: whenever no push holds the file lock, every subscription that the broadcaster listed before it released the lock, or before a broadcast it would have missed, was last sent the files of the last push and, for each upstream, the Plus action of the last push, both read off the run |
| `ConfigDelivery.StoredIsPushed` | internal/controller/nginx/agent/agent.go:88-180 | In every run the stored files are those of the last push, and the stored actions, or those being sent, are those of the last push that had any |
| `ConfigDelivery.CoversMeansLatest` | internal/controller/nginx/agent/agent.go:160-179 | Covering a list means that for each upstream the last action sent is the last of the list |
| `ConfigDelivery.RunKeepsInvariant` | internal/controller/nginx/agent/command.go:323-401 | The invariant over whole runs: initial sends up to date while the read lock is held, broadcasts complete listener by listener while the write lock is held |
| `ConfigDelivery.NoMissedConfigurationIfPrompt` | internal/controller/nginx/agent/broadcast/broadcast.go:85-118 | If every subscription is listed by the time it releases the lock, no subscription in its message loop is ever behind the last push |
| `ConfigDelivery.PushesAreSafeIffAllListed` | internal/controller/nginx/agent/broadcast/broadcast.go:120-232 | From a reachable state with the lock free and everyone current, no sequence of pushes leaves a subscription behind if and only if every subscription in its loop is listed |
| `ConfigDelivery.UnlistedIsReachable` | internal/controller/nginx/agent/broadcast/broadcast.go:85-178 | Subscribe returns before the listener is entered, so an unlisted subscription in its loop is reachable and a push then leaves it behind |
| `ConfigDelivery.PushStepKeeps` | internal/controller/nginx/agent/agent.go:88-180 | Every step of a push keeps the invariant: files, broadcast, cache test, actions with retries, storing them |
| `ConfigDelivery.SubStepKeeps` | internal/controller/nginx/agent/command.go:171-187 | Every step of a subscription keeps the invariant |
| `ConfigDelivery.UnlistedIsLeftBehind` | internal/controller/nginx/agent/deployment.go:204-212 | A push of new files that starts while a subscription is unlisted ends with that subscription on the old version |
| `DeliveryProgress.PushCanFinish` | internal/controller/nginx/agent/agent.go:88-180 | From every reachable state the push under way can come to its end without any subscription step: its files stay and its actions become the stored ones |
| `DeliveryProgress.PushCanBeMade` | internal/controller/handler.go:318-320 | From every reachable state with the lock free for writing, any files and any actions can be pushed |
| `DeliveryProgress.SubscriptionCanFinish` | internal/controller/nginx/agent/command.go:171-187 | From every reachable state a subscription that holds the lock can come to its message loop, current |
| `DeliveryProgress.PodCanSubscribe` | internal/controller/nginx/agent/command.go:153-187 | From every reachable state without a push a new pod can subscribe and come to its message loop with the files and actions of the last push |
| `DeliveryProgress.SendsOnceToListeners` | internal/controller/nginx/agent/broadcast/broadcast.go:180-232 | A push sends only to listeners its broadcast has not reached yet, and to each once |
| `DeliveryProgress.RunIsUnblocked` | internal/controller/nginx/agent/broadcast/broadcast.go:142-178 | In every run a broadcast waits only for subscriptions in their message loops, so one that exits never blocks it |
| `ResponsePairing.SignalsMatchBroadcasts` | internal/controller/nginx/agent/command.go:191-284 | In every run the blocking completion signals, for answers and for failed sends, number the broadcasts read, less the pending one; before the subscription exits all are for answers |
| `ResponsePairing.PairedIffInitialWaitsWereAnswered` | internal/controller/nginx/agent/command.go:323-435 | At the moment a subscription enters its loop the answers still owed number the initial waits taken by a rollback message or given up; and every later broadcast is completed by its own answer if and only if there are none |
| `ResponsePairing.ActionsInOrder` | internal/controller/nginx/agent/command.go:357-396 | In every run the stored actions are sent in order: the one at hand is the first not answered with success nor given up after an error, and the loop is entered when all are done with |
| `ResponsePairing.DeadlineWithoutAnswerEnds` | internal/controller/nginx/agent/command.go:387-394 | An action that was not answered at all when its time is over ends the subscription |
| `ResponsePairing.ReadsOneAtATime` | internal/controller/nginx/agent/command.go:208-242 | A broadcast is read in the message loop only and not while another is pending |
| `ResponsePairing.OverMeansOver` | internal/controller/nginx/agent/command.go:232-238 | After a failed send or the end of the stream nothing is read or signalled any more |
| `ResponsePairing.NothingLeftMeansPaired` | internal/controller/nginx/agent/command.go:258-283 | With nothing left over, in every continuation the k-th signal is caused by the answer to the k-th broadcast |
| `ResponsePairing.LeftoverMispairs` | internal/controller/nginx/agent/command.go:273-275 | With an answer left over, some continuation completes the first broadcast with it |
| `ResponsePairing.RollbackCausesMispairing` | internal/controller/nginx/agent/command.go:423-429 | A run in which a rollback message is taken for the answer to a Plus action, after which pairing fails |
| `PlusActions.ActionsEqualExact` | internal/controller/nginx/agent/action.go:8-92 | The cache comparison is equality on lists of upstream updates with string fields, and false on every other list |
| `PlusActions.BuildUpstreamServers` | internal/controller/nginx/agent/agent.go:196-228 | The servers are a sorted permutation of the rendered endpoints, or the single placeholder if there are none |
| `PlusActions.BuildActions` | internal/controller/nginx/agent/agent.go:122-156 | One action per upstream without resolve servers, HTTP before stream, each with its sorted servers |
| `PlusActions.AddressCases` | internal/controller/nginx/agent/agent.go:269-282 | The rendered server in each case of IPv6 and port |
| `PlusActions.AddressDetermines` | internal/controller/nginx/agent/agent.go:269-282 | Different endpoints are rendered as different servers |
| `PlusActions.NoEndpoints` | internal/controller/nginx/agent/agent.go:196-203 | Without endpoints the one server that answers 503 |
| `PlusActions.SendableSplits` | internal/controller/nginx/agent/agent.go:122-150 | Exactly the upstreams with a server to be resolved are left out, the others in order |
| `PlusActions.BuiltActionsCompareExactly` | internal/controller/nginx/agent/action.go:8-92 | On built lists the cache test is plain equality |
| `PlusActions.ServerListIsCanonical` | internal/controller/nginx/agent/agent.go:196-228 | Permuted endpoints give the same server list, whichever sorted permutation is chosen |
| `PlusActions.ReorderedEndpointsHitTheCache` | internal/controller/nginx/agent/agent.go:109-158 | A reconciliation that only reorders endpoints builds the same actions, so nothing is sent |
| `StatusQueue.FifoConservation` | internal/controller/status/queue.go:57-90 | In every interleaving of any producers and readers, dequeued items followed by queued ones are the enqueued sequence, and wake-ups, spurious ones included, are at most the fills of the notify slot, which are at most the items enqueued |
| `StatusQueue.NoLostWakeupIffOneReader` | internal/controller/status/queue.go:71-90 | In every interleaving a blocked reader beside waiting items has a full notify slot, if and only if there is at most one reader |
| `StatusQueue.BlockedReaderProceeds` | internal/controller/status/queue.go:76-90 | A blocked single reader takes the front item as soon as it runs |
| `StatusQueue.CancelRuns` | internal/controller/status/queue.go:76-81 | A blocked reader whose context is done returns with nothing and leaves the queue as it was |
| `StatusQueue.TwoReadersLoseAWakeup` | internal/controller/status/queue.go:57-90 | With two readers, a run that leaves one blocked beside an item with the slot empty |
| `StatusQueue.RunIsSafe` | internal/controller/status/queue.go:57-90 | Mutual exclusion and conservation over every run |
| `StatusQueue.SingleReaderWakes` | internal/controller/status/queue.go:57-69 | For one reader: blocked with items present, the slot is full or the producer holding the lock is about to fill it |
| `StatusSetters.FirstCallIsExact` | internal/controller/status/status_setters.go:86-110 | One call keeps the other controllers' entries in order, makes ours exactly the requested ones, and reports no change exactly if ours matched them as sets |
| `StatusSetters.NothingSetIff` | internal/controller/status/status_setters.go:206-238 | No change is reported if and only if our entries match and every foreign entry the setter still carries is on the object |
| `StatusSetters.EntryEqualIff` | internal/controller/status/conditions.go:11-31 | Two entries are equal if and only if they are the same without transition times and fields that are not set, an unset optional being empty |
| `StatusSetters.WasSetIff` | internal/controller/status/status_setters.go:206-260 | A setter sets something if and only if, in what counts, our entries differ from the requested ones or a foreign entry it carries is not on the object |
| `StatusSetters.RoundIsDecidedByEssence` | internal/controller/status/updater.go:145-187 | The first round that reads the object is skipped if our entries are the requested ones in all that counts, and otherwise writes the requested entries with the foreign ones in order |
| `StatusSetters.RetryGoesOnIff` | internal/controller/status/updater.go:139-187 | Rounds go on exactly while the read fails or a change is refused |
| `StatusSetters.LastRoundDecides` | internal/controller/status/updater.go:139-187 | The round that ends them: gone if the object is missing, skipped if nothing has to change, written if the change is accepted |
| `StatusSetters.SecondCallSetsNothing` | internal/controller/status/status_setters.go:86-204 | Called on its own result a setter reports no change, in all three styles |
| `StatusSetters.EntryEqualIsEquivalence` | internal/controller/status/status_setters.go:240-260 | Equality of entries, blind to transition times and to nil against empty, is an equivalence |
| `StatusSetters.FreshWritesOnlyTheLatest` | internal/controller/status/status_setters.go:138-162 | However many rounds a retry took, the HTTPRoute, TLSRoute and GRPCRoute setters write the request and the foreign entries of the object read last |
| `StatusSetters.CapturingWritesAllItRead` | internal/controller/status/status_setters.go:164-204 | The setters that store back into the captured status write the foreign entries of every object read in the retry |
| `StatusSetters.WrittenIsOursAndKeepsTheirs` | internal/controller/status/updater.go:139-187 | Whatever the style and the failures, the written object has exactly the requested entries as ours and loses no foreign entry of the object read last |
| `StatusSetters.CapturingIsExactIff` | internal/controller/status/status_setters.go:316-346 | Such a setter writes just the request and the latest foreign entries if and only if no earlier read had a foreign entry |
| `StatusSetters.StaleForeignEntryReturns` | internal/controller/status/status_setters.go:285-314 | An entry another controller removed between a rejected write and the next read is written back |
| `StatusSetters.CapturedAfterRetries` | internal/controller/status/status_setters.go:407-435 | What a setter holds after any failed rounds |
| `StatusSetters.CompareStatus` | internal/controller/status/status_setters.go:348-380 | The two loops decide the two inclusions |
| `StatusSetters.Setter.Call` | internal/controller/status/status_setters.go:164-183 | The setter as a method on the object, for each of the three ways to combine the lists |
| `StatusSetters.WriteStatuses` | internal/controller/status/updater.go:87-188 | The retry loop, for every sequence of failed reads, missing objects and rejected writes |
| `LeaderBuffer.NothingWrittenBefore` | internal/controller/status/leader_aware_group_updater.go:40-55 | Before Enable nothing is written, and exactly the groups whose last call had requests are saved, with those requests |
| `LeaderBuffer.EnableWritesTheLast` | internal/controller/status/leader_aware_group_updater.go:58-72 | Enable writes each such group's last requests once, in any order, and leaves nothing saved |
| `LeaderBuffer.WrittenIsExact` | internal/controller/status/leader_aware_group_updater.go:40-72 | Every legal run: nothing, then the flush, then every later call at once and in order; a second Enable is never legal |
| `LeaderBuffer.LeaderAwareGroupUpdater.constructor` | internal/controller/status/leader_aware_group_updater.go:31-37 | Nothing saved, not enabled |
| `LeaderBuffer.LeaderAwareGroupUpdater.UpdateGroup` | internal/controller/status/leader_aware_group_updater.go:40-55 | One call, saved or written |
| `LeaderBuffer.LeaderAwareGroupUpdater.Enable` | internal/controller/status/leader_aware_group_updater.go:58-72 | The flush loop writes each saved group once and empties the buffer |
| `Annotations.MergeAnnotations` | internal/controller/provisioner/setter.go:252-302 | The merge with its loops: existing annotations less the recorded keys no longer desired, under the desired ones, plus the sorted record |
| `Annotations.EveryMergePublishesOwnership` | internal/controller/provisioner/setter.go:252-302 | In every run with outside writes and removals at any time, each merge leaves exactly what an account of ownership dictates, although the code only has the record serialized by the previous merge |
| `Annotations.MergeRunClosedForm` | internal/controller/provisioner/setter.go:252-302 | Closed form of any sequence of merges: the start less every key ever desired, under the last desired annotations, with their record |
| `Annotations.ObsoleteKeyIsDroppedIffTrackable` | internal/controller/provisioner/setter.go:259-286 | A key that is no longer desired leaves the object at the next merge if and only if it is non-empty and has no comma |
| `Annotations.RecordRemembers` | internal/controller/provisioner/setter.go:292-299 | The joined record, split again, has a written key exactly if the key is non-empty and comma-free |
| `Annotations.RecordIsExact` | internal/controller/provisioner/setter.go:259-268 | With such keys the record read back is the set written |
| `Annotations.MergeIsIdempotent` | internal/controller/provisioner/setter.go:252-302 | Merging the same annotations again changes nothing |
| `Annotations.CollectKeys` | internal/controller/provisioner/setter.go:293-297 | Any iteration order ends in the one sorted enumeration of the keys |
| `ServicePorts.SkippingIsSound` | internal/controller/provisioner/store.go:299-356 | A Gateway skipped as unchanged would have got exactly the Service ports it has, whatever the order and repetition of listeners |
| `ServicePorts.ServicePortsAreCanonical` | internal/controller/provisioner/objects.go:789-838 | The port list depends only on the set of entries, not on their order or the sorting algorithm |
| `ServicePorts.ServicePortsShape` | internal/controller/provisioner/objects.go:789-838 | Strictly increasing by port and protocol, pairwise distinct names, target and node port per entry, exactly the given entries |
| `ServicePorts.ServiceOfGateway` | internal/controller/provisioner/objects.go:714-838 | From the fields of the Gateway: a port for exactly each listener port and protocol and the exposed probe, its name, its target port, and its node port, none for a ClusterIP Service |
| `ServicePorts.EntriesIff` | internal/controller/provisioner/objects.go:157-165 | The entries are the listeners' ports and the exposed probe's, without repetition |
| `ServicePorts.ProbeIff` | internal/controller/provisioner/objects.go:1987-2000 | When and on which port the readiness probe is exposed, the Deployment's before the DaemonSet's |
| `ServicePorts.LastNodePortWins` | internal/controller/provisioner/objects.go:817-823 | Of several node ports for a listener port the last is used, none without one |
| `ServicePorts.PortsOfContents` | internal/controller/provisioner/objects.go:340-359 | The collected entries are those of the listeners, without repetition |
| `ServicePorts.BuildPortsFromListeners` | internal/controller/provisioner/objects.go:340-359 | The loop with its seen-set |
| `ServicePorts.BuildServicePorts` | internal/controller/provisioner/objects.go:789-838 | Some sorted permutation of the named ports |
| `ServicePorts.BuildPortsForGateway` | internal/controller/provisioner/objects.go:157-165 | Ports of the Gateway with the exposed readiness probe added |
| `Gateways.GatewayChanged` | internal/controller/provisioner/store.go:299-356 | True exactly if validity, source, effective proxy, listener count or listener key set differ |
| `Workloads.RunConverges` | internal/controller/provisioner/provisioner.go:733-775 | Every sequence of registrations with succeeding calls and at most one workload kind configured: after each, the live kinds are exactly those the latest Gateway asks for, none if invalid or without listeners |
| `Workloads.LiveIff` | internal/controller/provisioner/objects.go:380-417 | After every orderly run, from the fields of the latest Gateway: DaemonSet or Deployment by whether a DaemonSet is configured, HPA if and only if autoscaling is enabled, PDB if and only if the Deployment has one, nothing for an invalid Gateway or one without listeners |
| `Workloads.AskedIff` | internal/controller/provisioner/objects.go:877-921 | What a Gateway asks for, from its fields |
| `Workloads.RegisterLeaves` | internal/controller/provisioner/provisioner.go:733-775 | Whatever fails in a registration, which objects are live after it |
| `Workloads.PutAllStops` | internal/controller/provisioner/provisioner.go:483-538 | Installing stops at the first failure: exactly the objects before it are live besides those that were |
| `Workloads.DeprovisionStops` | internal/controller/provisioner/provisioner.go:633-679 | Deprovisioning stops at the first failure: an object stays exactly if its deletion or an earlier one fails, the record exactly if any fails |
| `Workloads.PutCases` | internal/controller/provisioner/provisioner.go:523-537 | What is created or updated is live and on record; what is up to date is left alone |
| `Workloads.RegisterConvergesIff` | internal/controller/provisioner/provisioner.go:777-829 | After any past failures, a call that is not skipped and succeeds leaves exactly the kinds asked for, if and only if it is not the case that both kinds are configured, a DaemonSet is on record and a Deployment is live |
| `Workloads.RunTracksEverything` | internal/controller/provisioner/store.go:127-213 | Over every sequence of registrations with any failures, every live object is on record |
| `Workloads.RegisterKeepsTrack` | internal/controller/provisioner/provisioner.go:633-679 | One registration with any failures keeps the record complete and touches no other Gateway |
| `Workloads.ObsoleteIsWhatIsNotAsked` | internal/controller/provisioner/provisioner.go:801-880 | What the four deletion tests spare is asked for, except the Deployment hidden by the DaemonSet test |
| `Workloads.BothConfiguredLeavesTwo` | internal/controller/provisioner/provisioner.go:777-786 | DaemonSet, then Deployment, then both configured: two workloads stay live |
| `Workloads.FailureIsNotRetried` | internal/controller/provisioner/provisioner.go:742-746 | A failed registration is not repeated by registering the same Gateway again, because it is skipped as unchanged |
| `Workloads.CallRepairsIff` | internal/controller/provisioner/provisioner.go:733-775 | From any state after any failures, a call whose API calls succeed leaves exactly the kinds asked for, if and only if it is skipped and they were there, or is not skipped and no Deployment is missed |
| `Workloads.RepeatingChangesNothing` | internal/controller/provisioner/provisioner.go:742-746 | Registering the same Gateway again never changes what is live, whatever failed before |
| `Workloads.Provisioner.constructor` | internal/controller/provisioner/provisioner.go:108-192 | Not leading, nothing on record |
| `Workloads.Provisioner.HandleObjectDeletion` | internal/controller/provisioner/provisioner.go:777-799 | Deletes what the latest Gateway no longer asks for, as far as the API lets it |
| `Workloads.Provisioner.ProvisionNginx` | internal/controller/provisioner/provisioner.go:483-538 | Creates or updates object by object, records what was written, stops at the first failure |
| `Workloads.Provisioner.DeprovisionNginx` | internal/controller/provisioner/provisioner.go:633-679 | Deletes in order, stops at the first failure, forgets the record last |
| `Workloads.Provisioner.RegisterGateway` | internal/controller/provisioner/provisioner.go:733-775 | Only the leader acts; one registration |
| `ResourceNames.BuiltNameShape` | internal/framework/controller/resource.go:30-50 | A built name has at most 63 characters, ends in a dash and its base and starts with the prefix or a hashed beginning of it; building fails exactly if the whole is too long and the base has over 53 characters |
| `ResourceNames.BuildCases` | internal/framework/controller/resource.go:30-50 | The three cases with the limits 63 and 53 written out |
| `ResourceNames.NamesCollideOnlyByHash` | internal/framework/controller/resource.go:30-50 | For one base, two prefixes that fit never share a name, and two that are cut share one if and only if hash and cut agree; one that fits shares one with one that is cut if and only if it is the cut, a dash and the hash of the other |
| `ResourceNames.NamesOfBasesCollideIff` | internal/framework/controller/resource.go:30-50 | Names of any prefixes and bases are the same if and only if base and stem are, or the longer base is some x, a dash and the shorter, and the shorter base's stem the longer's, a dash and x |
| `ResourceNames.BasesKeepNamesApart` | internal/framework/controller/resource.go:30-50 | One prefix gives two bases different names if it fits with both, or if the longer base does not end in a dash and the shorter |
| `ResourceNames.TrimDashesIsTight` | internal/framework/controller/resource.go:46-47 | Trimming removes exactly the trailing dashes |
| `SecretSlots.BuiltSecretRoundTrip` | internal/controller/provisioner/store.go:236-297 | A Secret with a built name and a safe base, registered after any run from any well placed record: its own slot holds it, the other slots are unchanged and lookup returns its version |
| `SecretSlots.SecretRoundTrip` | internal/controller/provisioner/store.go:521-544 | The same for every Secret whose name belongs to one slot and to no docker base |
| `SecretSlots.SlotIsSafeIff` | internal/controller/provisioner/store.go:236-286 | Every Secret named after a slot is recorded there and nowhere else, if and only if the base is not empty and no earlier slot's and no docker base ends a dash and it, or ends in one |
| `SecretSlots.SuffixFreeBasesAreSafe` | internal/controller/provisioner/store.go:237-239 | In particular if no configured base is a suffix of another |
| `SecretSlots.SuffixBaseTakesTheSlot` | internal/controller/provisioner/store.go:242-250 | With "tls" and "jwt-tls" every license Secret lands in the agent slot |
| `SecretSlots.ClassifyIsFirst` | internal/controller/provisioner/store.go:274-285 | The slot is the first in order whose base ends the name |
| `SecretSlots.SlotHoldsTheLast` | internal/controller/provisioner/store.go:273-285 | After any run from any record each slot holds the last Secret registered for it, or what it held |
| `SecretSlots.RunIsWellPlaced` | internal/controller/provisioner/store.go:236-297 | Runs from a record in which each slot is empty or holds a Secret that belongs there keep it so |
| `SecretSlots.DockerLookupKeepsTheFirst` | internal/controller/provisioner/store.go:287-295 | A docker Secret is appended again and lookup keeps finding the first version |
| `SecretSlots.DockerRoundTripIff` | internal/controller/provisioner/store.go:521-529 | A docker Secret just registered is what lookup returns, if and only if its name was not on the docker list or was there first with the same version |
| `SecretSlots.SecretMatches` | internal/controller/provisioner/store.go:428-456 | True exactly if some slot or docker entry has the name and namespace |
| `SecretSlots.Store.constructor` | internal/controller/provisioner/store.go:67-91 | No record |
| `SecretSlots.Store.RegisterSecret` | internal/controller/provisioner/store.go:236-297 | One registration, with its loops over the docker names; other Gateways keep their records |
| `SecretSlots.Store.GetResourceVersion` | internal/controller/provisioner/store.go:459-544 | Lookup with its docker loop, empty without a record |
| `Finalizers.AgreementIff` | internal/controller/handler.go:1065-1219 | In every run of passes with any failures, lost answers and interference, once initialized: the tracked set is what the cluster carries, if and only if no resource is in doubt, that is, had its last Patch take effect and be reported to fail |
| `Finalizers.RunKeeps` | internal/controller/handler.go:1065-1219 | Over every run the set and the cluster disagree exactly on the doubtful resources |
| `Finalizers.RoundKeeps` | internal/controller/handler.go:1065-1130 | One pass keeps that, and leaves every resource alone that is on track exactly if it is desired |
| `Finalizers.UpdateEffect` | internal/controller/handler.go:1190-1219 | Reconciled means exactly this resource changed; not found means it carries no finalizer; a failure changes nothing, or the finalizer did change and the resource is in doubt |
| `Finalizers.UpdateTouchesOnly` | internal/controller/handler.go:1190-1219 | A call creates no resource and changes no other |
| `Finalizers.FailureChangesNothing` | internal/controller/handler.go:1208-1216 | Without a lost answer a reported failure changed nothing and nothing comes into doubt |
| `Finalizers.LostAddIsReached` | internal/controller/handler.go:1101-1105 | A first pass whose Patch takes effect and is reported to fail leaves the finalizer on a resource off track, in whatever order the loops run |
| `Finalizers.LostRemovalIsReached` | internal/controller/handler.go:1118-1122 | A first pass whose removing Patch takes effect and is reported to fail leaves a resource on track without the finalizer |
| `Finalizers.StaysForGood` | internal/controller/handler.go:1096-1116 | Through any passes, whatever the calls meet, nothing changes for a resource that every acting pass wants exactly if it is on track |
| `Finalizers.LostAnswersStay` | internal/controller/handler.go:1096-1116 | So the finalizer left behind stays through any passes that do not want the resource, and the one taken away is not put back by any passes that want it |
| `Finalizers.OthersKeepCarrying` | internal/controller/handler.go:1065-1130 | Other clients' creations and deletions never change which resources carry the finalizer |
| `Finalizers.PassConvergesIff` | internal/controller/handler.go:1096-1129 | An undisturbed pass ends with both sets the desired resources that exist, if and only if every desired resource on track carries the finalizer and every carrier off track is desired |
| `Finalizers.Handler.Reconcile` | internal/controller/handler.go:1065-1130 | One pass is a round of the state machine for some loop orders; the set is what the cluster carries if and only if no resource is in doubt; without a reported failure the tracked set is within the desired one and has every desired resource present throughout, and doubt remains exactly over doubtful resources on track exactly if desired; undisturbed, both sets are known exactly |
| `Finalizers.Handler.ReconcileAll` | internal/controller/handler.go:1065-1130 | Any sequence of passes, leading or not, is a run of the state machine: agreement if and only if nothing is in doubt, so always without lost answers; undisturbed, both sets are what the last acting pass wanted and found |
| `Finalizers.Handler.UpdateFinalizer` | internal/controller/handler.go:1190-1219 | Get and Patch as one step of the state machine, the lost answer included |
| `Finalizers.Handler.Patch` | internal/controller/handler.go:1208-1218 | The Patch as one step: vanished resource, failure without effect, lost answer, success |
| `Finalizers.Handler.Adjust` | internal/controller/handler.go:1096-1129 | The two loops together: exact sets if undisturbed, exact remaining doubt without failures |
| `Finalizers.Handler.Initialize` | internal/controller/handler.go:1132-1146 | The set is filled once, from both lists or not at all |
| `Finalizers.Handler.ListFinalized` | internal/controller/handler.go:1162-1188 | The listed resources of a kind that carry the finalizer |
| `Finalizers.Handler.AddMissing` | internal/controller/handler.go:1096-1111 | The first loop only adds; undisturbed it adds all that exist, and without failures all that are present throughout |
| `Finalizers.Handler.RemoveObsolete` | internal/controller/handler.go:1113-1129 | The second loop only removes what is not desired, and without failures all of it |
| `WafGate.GateAgrees` | internal/controller/handler.go:428-466 | For a valid Gateway with a deployment of its own, the gate is closed exactly if some pending WAF policy's collected list names its deployment |
| `WafGate.AwaitedIffSomeGatewayPending` | internal/controller/handler.go:428-517 | In every graph a deployment is in some pending policy's list exactly if some valid Gateway running as it has a pending bundle |
| `WafGate.GateAgreesIff` | internal/controller/handler.go:428-517 | Without distinct deployments, gate and lists agree exactly if no sharing Gateway is pending while this one is not |
| `WafGate.SharedDeploymentPassesTheGate` | internal/controller/handler.go:269-283 | Two Gateways sharing a deployment: the policy awaits it and the other Gateway's push goes through |
| `WafGate.CollectedIsExact` | internal/controller/handler.go:474-517 | No duplicates, and exactly the deployments of the valid Gateways reached that the policy is not invalid for |
| `WafGate.PendingIff` | internal/controller/handler.go:428-466 | From the fields of the graph: the gate is closed if and only if some WAF policy with a pending bundle, not invalid for the Gateway, targets it, or a valid HTTPRoute or GRPCRoute of that name with the Gateway as a parent |
| `WafGate.CollectedIff` | internal/controller/handler.go:474-529 | From the fields of the graph: a deployment is collected if and only if some valid Gateway runs as it that is such a target and that the policy is not invalid for |
| `WafGate.PushedIff` | internal/controller/handler.go:259-283 | A configuration goes out if and only if the Gateway is valid, has listeners, and fails open or has no policy waiting |
| `WafGate.FailClosed` | internal/controller/handler.go:269-283 | With fail-open off, a push goes out only if no pending policy awaits the deployment, and is withheld exactly if one does |
| `WafGate.HasPendingBundle` | internal/controller/handler.go:428-466 | The nested loops decide whether a pending policy reaches the Gateway |
| `WafGate.CollectDeployments` | internal/controller/handler.go:474-517 | The loops with the seen-set compute the list |
| `WafGate.SendNginxConfig` | internal/controller/handler.go:249-336 | Every Gateway is handled once and leaves one status object with the outcome the gate dictates |
| `EventLoop.EventLoop.Round` | internal/framework/events/loop.go:111-141 | One turn of the select, or of the handler, is one step of the abstract loop; any new backing array is freshly allocated |
| `StatusSetters.Setter.constructor` | internal/controller/status/status_setters.go:164-165 | The setter starts with the requested entries |
| `StatusSetters.Setter.KeepForeign` | internal/controller/status/status_setters.go:168-173 | The loop appends the entries of other controllers, in order |
| `StatusSetters.Contains` | internal/controller/status/status_setters.go:217-219 | Whether some entry equals the given one |
| `Workloads.Provisioner.DeleteObject` | internal/controller/provisioner/provisioner.go:681-705 | The object is gone unless the call fails |
| `Workloads.Provisioner.RegisterResource` | internal/controller/provisioner/store.go:127-213 | The kind is on record, with a new record if there was none |
| `ServicePorts.CountProtocols` | internal/controller/provisioner/objects.go:795-799 | How many entries have each port number |
| `ServicePorts.BuildPort` | internal/controller/provisioner/objects.go:801-823 | Name, target port and node port of one entry |
| `ServicePorts.FindNodePort` | internal/controller/provisioner/objects.go:817-823 | The loop over the node ports |
| `Gateways.SkippedIff` | internal/controller/provisioner/store.go:299-356 | A Gateway is skipped if and only if it was registered before with the same source, validity and proxy and with as many listeners, each having its like in the other list |
| `Gateways.BuildKeySet` | internal/controller/provisioner/store.go:325-356 | The set of listener keys, hostname empty if unset |
| `PlusActions.StructsEqualExact` | internal/controller/nginx/agent/action.go:69-92 | Same size and one inclusion amount to equality of the fields, if all are strings |
| `Annotations.ReadPreviousKeys` | internal/controller/provisioner/setter.go:259-268 | The keys recorded by the previous merge |
| `SecretSlots.Store.RegisterFirst` | internal/controller/provisioner/store.go:241-272 | The first Secret of a Gateway: a docker match replaces the record made for the slot |
| `SecretSlots.Store.AppendDocker` | internal/controller/provisioner/store.go:287-295 | One docker entry for every docker base that ends the name |
| `Finalizers.Handler.constructor` | internal/controller/handler.go:169-187 | Nothing tracked, not initialized |
| `Finalizers.Handler.AddOne` | internal/controller/handler.go:1101-1110 | One addition, tracked only if reconciled |
| `Finalizers.Handler.RemoveOne` | internal/controller/handler.go:1118-1128 | One removal, dropped from the set unless it failed |

## Left out

- Building the graph and the data plane configuration: function parameters, constrained only where a lemma says so.
- Object filters, telemetry, CRD discovery, metrics, logging and generated code: they add only easy members.
- Cancellation: the drain of the event loop on shutdown and a failed preparation of the first batch.
- Broadcaster shutdown, and the choice of the next message among several ready channels beyond arbitrary interleaving.
- The contents of agent errors and pod statuses: only who is told about completion is modelled.
- The conversion of v1beta1 ReferenceGrants in the store: it would be one more kind with a renaming.
- Patches, pod templates, volumes, images and container ports: straight-line field filling; container ports have the shape of Service ports.
- Provisioner event handler paths (reprovisioning after deletion, updates of user Secrets) and the marks of Gateways being deleted.
- Workloads.RunConverges: covers the Deployment, DaemonSet, HPA and PDB; the other objects only appear as calls that may fail.
- Workloads.Provisioner.ProvisionNginx: objects other than the Deployment, DaemonSet, HPA and PDB are a single call that may fail.
- ChangeProcessor.CacheAgreesIffFrame: compares with the bundles of the last build; `RebuildNow.AgreesNowIffStable` compares with those at hand now.
- SecretSlots.SecretRoundTrip: is stated for Secrets that match no docker base; `SecretSlots.DockerRoundTripIff` has the exact condition for docker Secrets.
- ConfigMap slots: the same classification with two fixed suffixes.
- Status setters for Gateways, GatewayClasses, ListenerSets and control plane objects: they replace the whole status and keep nothing.
- StatusSetters.Setter.Call: does not model that the written object and the captured status share a backing array.
- Starting and stopping WAF pollers; what they fetched is a parameter of each Process call.
- Backoff durations: only the number of rounds is modelled.

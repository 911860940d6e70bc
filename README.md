# azide reactive core, modelled in Dafny

This project models the synchronous, single-threaded core of azide, a glitch-free reactive dataflow engine written in Kotlin. Cells hold a value that changes from one transaction to the next. Event streams emit at most one event per transaction. Operator vertices derive new cells and streams from existing ones, and react to updates, corrections and revocations from their sources.

The model follows the source's own structure, one Dafny module per source file:

- **Listener storage.** `RawLinkedLists` is the handle-based doubly linked list, with its nodes and their `prev`/`next` links as heap objects. `MutableBags` is the counting bag built on that list. Both are classes whose methods update the list in place. A ghost node sequence is the abstract list.
- **Transaction protocol.** `Transactions` has the propagation context: a commit queue of vertices, and a side-effect queue whose entries can be revoked through their handle. `ExecuteWithResult` first propagates, then commits every queued vertex in queue order, then runs the side effects that were not revoked, in queue order. `Actions` has the action combinators (`pure`, `wrap`, `map`, `joinOf`, `combine`). Each is a function from the side-effect queue to a result, a revocation handle and the new queue.
- **Vertex lifecycle.**
  - `WarmCells` is the shared state of warm cells: the observer bag, the exposed update, the enqueued flag, and the persistence policy. That policy covers momentary and active caching, the stable value of stateful cells, and stateless cells.
  - `LiveStreams` is the shared state of live streams.
  - `FrozenCells` has the pure cell and the derived frozen cell, whose cache lasts one transaction.
  - `CellVertices` has the value-level `Update`, `Update.map` and `getNewValue`.
- **Operator vertices.** map, map2, mapAt and hold over cells; switch; map, filter, single, values and executeEach over streams. Each is a class that owns its base vertex state and refers to its sources. `EventStreams` is the public dispatch on terminated versus live streams.

Every vertex method states its effect on the model's state: what it exposes, whom it notifies, which vertices it appends to the commit queue, what it does to the side-effect list, and which registrations it adds or removes. The model's state is narrower than the source's in the ways listed under "## Left out": the stateful stream base is replaced by the live base, and actions see only the side-effect list. Pure functions state the reaction tables of the operators, and lemmas relate them: composition of maps, idempotence of filtering and revocation, and the order in which commits and side effects run.

## Model

| member | source | states |
|---|---|---|
| RawLinkedLists.Node.constructor | core/src/commonMain/kotlin/dev/azide/internal/utils/weak_bag/RawLinkedList.kt:8-13 | a new node holds its element, has neither neighbour, and is valid |
| RawLinkedLists.RawLinkedList.constructor | core/src/commonMain/kotlin/dev/azide/internal/utils/weak_bag/RawLinkedList.kt:35 | a new list is empty and has handed out no node |
| RawLinkedLists.RawLinkedList.ValidIffLinked | core/src/commonMain/kotlin/dev/azide/internal/utils/weak_bag/RawLinkedList.kt:21-29 | a node handed out by the list is valid exactly while it is linked into the list |
| RawLinkedLists.RawLinkedList.Prepend | core/src/commonMain/kotlin/dev/azide/internal/utils/weak_bag/RawLinkedList.kt:45-62 | the new node carries the element and becomes the head: the node sequence becomes `[node] + old` and the element list `[element] + old` |
| RawLinkedLists.RawLinkedList.Remove | core/src/commonMain/kotlin/dev/azide/internal/utils/weak_bag/RawLinkedList.kt:71-99 | removing an already removed node fails and changes nothing; otherwise exactly that node leaves the sequence, the others keep their order, the result is its former successor (null if it was last), and the node afterwards has no links and is invalid |
| RawLinkedLists.RawLinkedList.Visit | core/src/commonMain/kotlin/dev/azide/internal/utils/weak_bag/RawLinkedList.kt:114-121 | one loop step: the visited node is unlinked exactly when the action selects its element, and the next node to visit is the old successor |
| RawLinkedLists.RawLinkedList.ForEach | core/src/commonMain/kotlin/dev/azide/internal/utils/weak_bag/RawLinkedList.kt:109-123 | visits every element head to tail, once each, and afterwards the list holds exactly the nodes whose element was not selected, in their original order |
| RawLinkedLists.Kept | core/src/commonMain/kotlin/dev/azide/internal/utils/weak_bag/RawLinkedList.kt:109-123 | what `forEach` keeps: never more nodes than before, each kept node was in the list and was not selected |
| RawLinkedLists.RawLinkedList.ToList | core/src/commonMain/kotlin/dev/azide/internal/utils/weak_bag/RawLinkedList.kt:125-130 | following the links from the head yields the element list |
| MutableBags.MutableBag.constructor | core/src/commonMain/kotlin/dev/azide/internal/utils/weak_bag/MutableBag.kt:14-16 | a new bag is empty with size 0 |
| MutableBags.MutableBag.Add | core/src/commonMain/kotlin/dev/azide/internal/utils/weak_bag/MutableBag.kt:34-44 | the element is prepended under a fresh handle and `size` grows by one |
| MutableBags.MutableBag.Remove | core/src/commonMain/kotlin/dev/azide/internal/utils/weak_bag/MutableBag.kt:46-59 | a handle whose element was already removed fails and changes neither the elements nor `size`; otherwise exactly that element leaves the bag, `size` drops by one, and the handle no longer holds |
| MutableBags.MutableBag.ForEach | core/src/commonMain/kotlin/dev/azide/internal/utils/weak_bag/MutableBag.kt:61-75 | visits every element, removes those the action selects, and leaves `size` untouched, so `size` exceeds the real count whenever anything was removed |
| MutableBags.KeptShrinks | core/src/commonMain/kotlin/dev/azide/internal/utils/weak_bag/MutableBag.kt:68-75 | a traversal that selects some element keeps strictly fewer elements than it saw |
| Transactions.Drop | core/src/commonMain/kotlin/dev/azide/core/internal/Transactions.kt:44-49 | an entry survives removal exactly when its identifier is not one of those removed |
| Transactions.DropDrop | core/src/commonMain/kotlin/dev/azide/core/internal/Transactions.kt:44-49 | removing one set of entries and then another is removing both sets at once |
| Transactions.Enqueued | core/src/commonMain/kotlin/dev/azide/core/internal/Transactions.kt:41-44 | queuing a side effect keeps the list well formed and in its transaction, and hands out the next identifier |
| Transactions.Revoked | core/src/commonMain/kotlin/dev/azide/core/Action.kt:8-37 | revoking a handle, whether a single entry handle, the two-handle `combine` or the vararg `combine` (each revoking its sub-handles in order), leaves the list without exactly the entries the handle targets |
| Transactions.RevokedAll | core/src/commonMain/kotlin/dev/azide/core/Action.kt:25-33 | revoking a sequence of handles first to last removes exactly the entries any of them targets |
| Transactions.EnqueueThenRevoke | core/src/commonMain/kotlin/dev/azide/core/internal/Transactions.kt:41-51 | revoking the handle of the entry just queued restores the list as it was |
| Transactions.RevokeCommutes | core/src/commonMain/kotlin/dev/azide/core/Action.kt:15-23 | the order in which two handles are revoked does not matter |
| Transactions.RevokeIdempotent | core/src/commonMain/kotlin/dev/azide/core/internal/Transactions.kt:46-49 | revoking a handle a second time changes nothing |
| Transactions.PropagationContext.constructor | core/src/commonMain/kotlin/dev/azide/core/internal/Transactions.kt:29-31 | a new transaction has an empty commit queue and an empty side-effect list |
| Transactions.PropagationContext.EnqueueForCommitment | core/src/commonMain/kotlin/dev/azide/core/internal/Transactions.kt:35-39 | the vertex is appended to the commit queue with no deduplication, and the side-effect list is unchanged |
| Transactions.PropagationContext.EnqueueForExecution | core/src/commonMain/kotlin/dev/azide/core/internal/Transactions.kt:41-51 | the side effect is appended under the next identifier and the handle returned revokes exactly that entry; the commit queue is unchanged |
| Transactions.PropagationContext.Revoke | core/src/commonMain/kotlin/dev/azide/core/internal/Transactions.kt:46-49 | the side-effect list loses exactly the entries the handle targets; the commit queue is unchanged |
| Transactions.PendingCharacterized | core/src/commonMain/kotlin/dev/azide/core/internal/Transactions.kt:41-61 | the side effects left after propagation are exactly the queued ones never revoked afterwards, each once, in queue order |
| Transactions.RevokedNeverRuns | core/src/commonMain/kotlin/dev/azide/core/internal/Transactions.kt:41-61 | a side effect revoked after it was queued never runs |
| Transactions.UnrevokedRuns | core/src/commonMain/kotlin/dev/azide/core/internal/Transactions.kt:41-61 | a queued side effect that was never revoked runs |
| Transactions.CommittedAsOftenAsQueued | core/src/commonMain/kotlin/dev/azide/core/internal/Transactions.kt:35-38 | a vertex queued twice is committed twice: commits happen exactly as often as the vertex was queued |
| Transactions.CommitsBeforeRuns | core/src/commonMain/kotlin/dev/azide/core/internal/Transactions.kt:55-61 | every commit comes before every side-effect run |
| Transactions.Propagate | core/src/commonMain/kotlin/dev/azide/core/internal/Transactions.kt:29-53 | the queues after propagation hold every vertex queued, in order, and exactly the unrevoked side effects |
| Transactions.Drain | core/src/commonMain/kotlin/dev/azide/core/internal/Transactions.kt:55-61 | the commit loop commits every queued vertex in queue order, then the run loop runs every side effect in queue order |
| Transactions.ExecuteWithResult | core/src/commonMain/kotlin/dev/azide/core/internal/Transactions.kt:26-64 | the result is exactly what propagation returned, all commits come first in enqueue order, then exactly the unrevoked side effects run, in order |
| Actions.Execute | core/src/commonMain/kotlin/dev/azide/core/Action.kt:105-107 | executing an action returns its result and handle and leaves the side-effect list as the action left it; the commit queue is unchanged |
| Actions.PureHasNoEffect | core/src/commonMain/kotlin/dev/azide/core/Action.kt:72-81 | `pure(r)` yields `r`, queues nothing, and its handle revokes nothing |
| Actions.WrapQueuesAndRevokes | core/src/commonMain/kotlin/dev/azide/core/Action.kt:93-102 | `wrap` appends its side effect, and revoking the handle it returns takes exactly that entry out again |
| Actions.MapIsJoinOfPure | core/src/commonMain/kotlin/dev/azide/core/Action.kt:148-165 | `map(f)` is `joinOf` into `pure(f(r))`: same result, same side-effect list, and a handle that revokes the same entries from any list |
| Actions.JoinOfWrapsRevoke | core/src/commonMain/kotlin/dev/azide/core/Action.kt:167-191 | joining two `wrap`s appends both side effects, in order, under consecutive identifiers, and revoking the joined handle restores the list as it was before |
| Actions.JoinOfPureLeft | core/src/commonMain/kotlin/dev/azide/core/Action.kt:167-191 | joining a `pure` action gives the derived action, up to what the handle revokes |
| Actions.JoinOfPureRight | core/src/commonMain/kotlin/dev/azide/core/Action.kt:167-191 | joining into `pure` gives the action itself, up to what the handle revokes |
| Actions.JoinOfAssociative | core/src/commonMain/kotlin/dev/azide/core/Action.kt:167-191 | `joinOf` is associative, up to what the handle revokes |
| Actions.CombineIsJoinOf | core/src/commonMain/kotlin/dev/azide/core/Action.kt:122-145 | `Triggers.combine(a, b)` is `a.joinOf { b }`, the join that ignores the first result |
| Actions.CombineWrapsRevoke | core/src/commonMain/kotlin/dev/azide/core/Action.kt:122-145 | combining two `wrap`s appends both side effects in order, and revoking the combined handle restores the list as it was before |
| Actions.CombineAssociative | core/src/commonMain/kotlin/dev/azide/core/Action.kt:122-145 | `Triggers.combine` is associative: the same side-effect list, and handles that revoke the same entries from any list |
| Actions.CombineNoop | core/src/commonMain/kotlin/dev/azide/core/Action.kt:113-120 | combining `Triggers.Noop` with a trigger behaves as that trigger |
| Actions.BasicActionsWellBehaved | core/src/commonMain/kotlin/dev/azide/core/Action.kt:72-120 | `pure`, `wrap` and `Triggers.Noop` keep the side-effect list well formed and in its transaction |
| Actions.CombineTriggersWellBehaved | core/src/commonMain/kotlin/dev/azide/core/Action.kt:122-145 | `Triggers.combine` of well-behaved triggers is well behaved |
| Actions.MapWellBehaved | core/src/commonMain/kotlin/dev/azide/core/Action.kt:148-165 | `map` of a well-behaved action is well behaved |
| Actions.JoinOfWellBehaved | core/src/commonMain/kotlin/dev/azide/core/Action.kt:167-191 | `joinOf` of well-behaved actions is well behaved |
| CellVertices.MapOngoing | core/src/commonMain/kotlin/dev/azide/core/internal/cell/CellVertex.kt:12-16 | a present update is mapped to one carrying `transform(updatedValue)`; an absent one stays absent, and only then |
| CellVertices.NewValue | core/src/commonMain/kotlin/dev/azide/core/internal/cell/CellVertex.kt:48-56 | the new value is the ongoing update's value when there is one, the old value otherwise |
| CellVertices.MapOngoingComposes | core/src/commonMain/kotlin/dev/azide/core/internal/cell/CellVertex.kt:12-16 | mapping an update twice is mapping it once by the composition |
| CellVertices.NewValueOfMapped | core/src/commonMain/kotlin/dev/azide/core/internal/cell/CellVertex.kt:48-56 | the new value of a mapped update is the mapped new value |
| WarmCells.Persisted | core/src/commonMain/kotlin/dev/azide/core/internal/cell/abstract_vertices/AbstractCachingCellVertex.kt:49-65 | Momentary caching drops the cache at commit; Active caching and the stable value of a stateful cell take the committed update's value and stay as they were without one |
| WarmCells.PersistIdempotent | core/src/commonMain/kotlin/dev/azide/core/internal/cell/abstract_vertices/AbstractCachingCellVertex.kt:49-65 | a second commit with nothing exposed retains what the first left |
| WarmCells.PersistKeepsStableValue | core/src/commonMain/kotlin/dev/azide/core/internal/cell/abstract_vertices/AbstractStatefulCellVertex.kt:9-17 | a stateful cell has a stable value after any commit |
| WarmCells.WarmCellVertex.WithCache | core/src/commonMain/kotlin/dev/azide/core/internal/cell/abstract_vertices/AbstractCachingCellVertex.kt:7-23 | a caching vertex starts without observers, without an update, not enqueued, with an empty cache |
| WarmCells.WarmCellVertex.WithStableValue | core/src/commonMain/kotlin/dev/azide/core/internal/cell/abstract_vertices/AbstractStatefulCellVertex.kt:6-9 | a stateful vertex starts with `initialValue` as its stable value, without observers, without an update, not enqueued |
| WarmCells.WarmCellVertex.WithoutCache | core/src/commonMain/kotlin/dev/azide/core/internal/cell/abstract_vertices/AbstractStatelessCellVertex.kt:6 | a stateless vertex starts without observers, without an update, not enqueued, retaining nothing |
| WarmCells.WarmCellVertex.HasObservers | core/src/commonMain/kotlin/dev/azide/core/internal/cell/abstract_vertices/AbstractWarmCellVertex.kt:62-63 | `hasObservers` is the bag counter being positive, and holds whenever an observer is stored |
| WarmCells.WarmCellVertex.RegisterObserver | core/src/commonMain/kotlin/dev/azide/core/internal/cell/abstract_vertices/AbstractWarmCellVertex.kt:21-36 | the observer is prepended to the bag under a handle that holds it, the counter grows by one, and the first-observer hook is due exactly when the counter became 1 |
| WarmCells.WarmCellVertex.UnregisterObserver | core/src/commonMain/kotlin/dev/azide/core/internal/cell/abstract_vertices/AbstractWarmCellVertex.kt:38-49 | a foreign handle is refused, an already removed one fails; otherwise exactly that observer leaves, and the last-observer hook is due exactly when the counter reached 0 |
| WarmCells.WarmCellVertex.EnsureEnqueued | core/src/commonMain/kotlin/dev/azide/core/internal/cell/abstract_vertices/AbstractWarmCellVertex.kt:110-118 | the vertex is appended to the commit queue only when its flag was clear, and the flag is then set, so it is queued once per commit cycle |
| WarmCells.WarmCellVertex.ExposeUpdate | core/src/commonMain/kotlin/dev/azide/core/internal/cell/abstract_vertices/AbstractWarmCellVertex.kt:80-89 | the update becomes the ongoing one and the vertex is enqueued at most once until the next commit |
| WarmCells.WarmCellVertex.ClearExposedUpdate | core/src/commonMain/kotlin/dev/azide/core/internal/cell/abstract_vertices/AbstractWarmCellVertex.kt:91-93 | the ongoing update is cleared and nothing else changes |
| WarmCells.WarmCellVertex.PropagateUpdate | core/src/commonMain/kotlin/dev/azide/core/internal/cell/abstract_vertices/AbstractWarmCellVertex.kt:95-108 | every registered observer is notified with the same update, in bag order, and exactly the unreachable ones are dropped |
| WarmCells.WarmCellVertex.ExposeAndPropagateUpdate | core/src/commonMain/kotlin/dev/azide/core/internal/cell/abstract_vertices/AbstractWarmCellVertex.kt:65-78 | exposes the update as above, then notifies every observer and drops the unreachable ones |
| WarmCells.WarmCellVertex.Commit | core/src/commonMain/kotlin/dev/azide/core/internal/cell/abstract_vertices/AbstractWarmCellVertex.kt:51-60 | the vertex persists the ongoing update according to its kind, then clears the update and the enqueued flag |
| WarmCells.WarmCellVertex.GetOldValue | core/src/commonMain/kotlin/dev/azide/core/internal/cell/abstract_vertices/AbstractCachingCellVertex.kt:25-47 | a stateful vertex returns its stable value; a caching vertex returns its cache, or caches the computed value and enqueues itself; a later read returns the cached value |
| WarmCells.WarmCellVertex.GetNewValue | core/src/commonMain/kotlin/dev/azide/core/internal/cell/CellVertex.kt:48-56 | the ongoing update's value, or else the old value |
| FrozenCells.DerivedFrozenCellVertex.constructor | core/src/commonMain/kotlin/dev/azide/core/internal/cell/abstract_vertices/AbstractDerivedFrozenCellVertex.kt:17 | a derived frozen cell starts without a cached value |
| FrozenCells.DerivedFrozenCellVertex.GetOldValue | core/src/commonMain/kotlin/dev/azide/core/internal/cell/abstract_vertices/AbstractDerivedFrozenCellVertex.kt:19-39 | the first read of a transaction caches the computed value and enqueues the vertex; a later read returns the cached value and enqueues nothing |
| FrozenCells.DerivedFrozenCellVertex.Commit | core/src/commonMain/kotlin/dev/azide/core/internal/cell/abstract_vertices/AbstractDerivedFrozenCellVertex.kt:41-43 | commit drops the cache, so the next transaction recomputes |
| FrozenCells.ReadTwice | core/src/commonMain/kotlin/dev/azide/core/internal/cell/abstract_vertices/AbstractDerivedFrozenCellVertex.kt:19-39 | a second read in one transaction returns the first read's value, whatever it would compute, and the vertex is enqueued once |
| LiveStreams.MapEmission | core/src/commonMain/kotlin/dev/azide/core/internal/event_stream/EventStreamVertex.kt:12-16 | a present emission is mapped to one carrying `transform(emittedEvent)`; an absent one stays absent, and only then |
| LiveStreams.MapEmissionComposes | core/src/commonMain/kotlin/dev/azide/core/internal/event_stream/EventStreamVertex.kt:12-16 | mapping an emission twice is mapping it once by the composition |
| LiveStreams.LiveEventStreamVertex.constructor | core/src/commonMain/kotlin/dev/azide/core/internal/event_stream/abstract_vertices/AbstractLiveEventStreamVertex.kt:11-16 | a live vertex starts without subscribers, without an emission, not enqueued |
| LiveStreams.LiveEventStreamVertex.RegisterSubscriber | core/src/commonMain/kotlin/dev/azide/core/internal/event_stream/abstract_vertices/AbstractLiveEventStreamVertex.kt:21-36 | the subscriber is prepended under a handle that holds it, the counter grows by one, and the first-subscriber hook is due exactly when the counter became 1 |
| LiveStreams.LiveEventStreamVertex.UnregisterSubscriber | core/src/commonMain/kotlin/dev/azide/core/internal/event_stream/abstract_vertices/AbstractLiveEventStreamVertex.kt:38-49 | a foreign handle is refused, an already removed one fails; otherwise exactly that subscriber leaves, and the last-subscriber hook is due exactly when the counter reached 0 |
| LiveStreams.LiveEventStreamVertex.EnsureEnqueued | core/src/commonMain/kotlin/dev/azide/core/internal/event_stream/abstract_vertices/AbstractLiveEventStreamVertex.kt:86-94 | the vertex is appended to the commit queue only when its flag was clear, and the flag is then set |
| LiveStreams.LiveEventStreamVertex.ExposeEmission | core/src/commonMain/kotlin/dev/azide/core/internal/event_stream/abstract_vertices/AbstractLiveEventStreamVertex.kt:75-84 | the emission becomes the ongoing one and the vertex is enqueued at most once per commit cycle |
| LiveStreams.LiveEventStreamVertex.ClearExposedEmission | core/src/commonMain/kotlin/dev/azide/core/internal/event_stream/abstract_vertices/AbstractLiveEventStreamVertex.kt:96-98 | the ongoing emission is cleared and nothing else changes |
| LiveStreams.LiveEventStreamVertex.PropagateEmission | core/src/commonMain/kotlin/dev/azide/core/internal/event_stream/abstract_vertices/AbstractLiveEventStreamVertex.kt:100-113 | every subscriber is notified with the same emission, in bag order, and exactly the unreachable ones are dropped |
| LiveStreams.LiveEventStreamVertex.ExposeAndPropagateEmission | core/src/commonMain/kotlin/dev/azide/core/internal/event_stream/abstract_vertices/AbstractLiveEventStreamVertex.kt:60-73 | exposes the emission as above, then notifies every subscriber and drops the unreachable ones |
| LiveStreams.LiveEventStreamVertex.Commit | core/src/commonMain/kotlin/dev/azide/core/internal/event_stream/abstract_vertices/AbstractLiveEventStreamVertex.kt:51-58 | `transit` is due exactly when an emission was ongoing; the emission and the enqueued flag are then cleared |
| MappedWarmCells.MappedWarmCellVertex.constructor | core/src/commonMain/kotlin/dev/azide/core/internal/cell/operated_vertices/MappedWarmCellVertex.kt:8-14 | a new mapped cell is a momentarily caching vertex over its source with no upstream handle, no update and no observers |
| MappedWarmCells.MappedWarmCellVertex.HandleUpdate | core/src/commonMain/kotlin/dev/azide/core/internal/cell/operated_vertices/MappedWarmCellVertex.kt:19-38 | a source update `u` is exposed and propagated as `u.map(transform)`, a revocation as a revocation, to every observer |
| MappedWarmCells.MappedWarmCellVertex.Activate | core/src/commonMain/kotlin/dev/azide/core/internal/cell/operated_vertices/MappedWarmCellVertex.kt:40-53 | refused while already active; otherwise the vertex is registered with the source and the result is the source's ongoing update, mapped |
| MappedWarmCells.MappedWarmCellVertex.Deactivate | core/src/commonMain/kotlin/dev/azide/core/internal/cell/operated_vertices/MappedWarmCellVertex.kt:55-64 | refused while inactive; otherwise the vertex leaves the source's observers and the handle is cleared |
| MappedWarmCells.MappedWarmCellVertex.OnFirstObserverRegistered | core/src/commonMain/kotlin/dev/azide/core/internal/cell/abstract_vertices/AbstractStatelessCellVertex.kt:7-18 | on the first observer the vertex activates and exposes the activation update as its ongoing update, without propagating it, and is enqueued for commitment once; a refused activation queues nothing |
| MappedWarmCells.MappedWarmCellVertex.RegisterObserver | core/src/commonMain/kotlin/dev/azide/core/internal/cell/abstract_vertices/AbstractWarmCellVertex.kt:21-36 | the observer is added; when it is the first, the vertex activates, exposes the mapped source update and is enqueued for commitment once; later observers queue nothing |
| MappedWarmCells.MappedWarmCellVertex.UnregisterObserver | core/src/commonMain/kotlin/dev/azide/core/internal/cell/abstract_vertices/AbstractStatelessCellVertex.kt:20-24 | the observer is removed; when it was the last, the vertex deactivates and its ongoing update is cleared |
| MappedWarmCells.MappedWarmCellVertex.GetOldValue | core/src/commonMain/kotlin/dev/azide/core/internal/cell/operated_vertices/MappedWarmCellVertex.kt:66-72 | the cached value, with nothing queued; or on a miss `transform` of the source's old value, which is then cached, the vertex being enqueued for commitment once |
| Mapped2WarmCells.TransformedUpdate | core/src/commonMain/kotlin/dev/azide/core/internal/cell/operated_vertices/Mapped2WarmCellVertex.kt:89-123 | the combined update is absent exactly when neither source has an ongoing update; otherwise it carries `transform` of both new values, each the in-flight value if present and the old value otherwise |
| Mapped2WarmCells.TransformedNewValue | core/src/commonMain/kotlin/dev/azide/core/internal/cell/operated_vertices/Mapped2WarmCellVertex.kt:89-130 | the combined cell's new value is `transform` of the sources' new values, whichever of them updated |
| Mapped2WarmCells.TransformedUpdateOfFirst | core/src/commonMain/kotlin/dev/azide/core/internal/cell/operated_vertices/Mapped2WarmCellVertex.kt:89-123 | with only the first source updating, the combined update is the first source's update mapped with the second's old value held fixed |
| Mapped2WarmCells.TransformedUpdateOfSecond | core/src/commonMain/kotlin/dev/azide/core/internal/cell/operated_vertices/Mapped2WarmCellVertex.kt:89-123 | with only the second source updating, the combined update is the second source's update mapped with the first's old value held fixed |
| Mapped2WarmCells.Mapped2WarmCellVertex.constructor | core/src/commonMain/kotlin/dev/azide/core/internal/cell/operated_vertices/Mapped2WarmCellVertex.kt:8-16 | a new combined cell holds no upstream handles, no update and no observers |
| Mapped2WarmCells.Mapped2WarmCellVertex.BuildTransformedUpdate | core/src/commonMain/kotlin/dev/azide/core/internal/cell/operated_vertices/Mapped2WarmCellVertex.kt:89-123 | the result is the combined update of the sources' current state, and the sources' updates are left alone |
| Mapped2WarmCells.Mapped2WarmCellVertex.HandleUpdate | core/src/commonMain/kotlin/dev/azide/core/internal/cell/operated_vertices/Mapped2WarmCellVertex.kt:67-87 | whatever a source sent, the combined update is rebuilt from both sources and exposed and propagated to every observer; the vertex is enqueued for commitment once, after whatever the sources' old-value reads enqueued |
| Mapped2WarmCells.Mapped2WarmCellVertex.ObserveSources | core/src/commonMain/kotlin/dev/azide/core/internal/cell/operated_vertices/Mapped2WarmCellVertex.kt:29-37 | the vertex is prepended to the first source's observers, then the second's, and each source holds the handle kept for it; the sources' updates, caches and queue flags stay |
| Mapped2WarmCells.Mapped2WarmCellVertex.Activate | core/src/commonMain/kotlin/dev/azide/core/internal/cell/operated_vertices/Mapped2WarmCellVertex.kt:18-42 | refused while either handle is held, queueing nothing; otherwise each source holds a new registration of the vertex, prepended, and the result is the combined update of their current state |
| Mapped2WarmCells.Mapped2WarmCellVertex.Deactivate | core/src/commonMain/kotlin/dev/azide/core/internal/cell/operated_vertices/Mapped2WarmCellVertex.kt:44-62 | each held handle is unregistered from its source, which afterwards no longer holds it, and both handles are cleared; it succeeds whenever each held handle is held by its source |
| Mapped2WarmCells.Mapped2WarmCellVertex.StopObservingSource1 | core/src/commonMain/kotlin/dev/azide/core/internal/cell/operated_vertices/Mapped2WarmCellVertex.kt:47-53 | the first handle, if held, is unregistered from the first source, which no longer holds it, then cleared |
| Mapped2WarmCells.Mapped2WarmCellVertex.StopObservingSource2 | core/src/commonMain/kotlin/dev/azide/core/internal/cell/operated_vertices/Mapped2WarmCellVertex.kt:55-61 | the second handle, if held, is unregistered from the second source, which no longer holds it, then cleared |
| Mapped2WarmCells.Mapped2WarmCellVertex.OnFirstObserverRegistered | core/src/commonMain/kotlin/dev/azide/core/internal/cell/abstract_vertices/AbstractStatelessCellVertex.kt:7-18 | on the first observer the vertex activates and exposes the combined update without propagating it, and is enqueued for commitment once; a refusal queues nothing |
| Mapped2WarmCells.Mapped2WarmCellVertex.OnLastObserverUnregistered | core/src/commonMain/kotlin/dev/azide/core/internal/cell/abstract_vertices/AbstractStatelessCellVertex.kt:20-24 | on the last observer the vertex deactivates and clears its ongoing update |
| Mapped2WarmCells.Mapped2WarmCellVertex.GetOldValue | core/src/commonMain/kotlin/dev/azide/core/internal/cell/operated_vertices/Mapped2WarmCellVertex.kt:125-130 | the cached value, with nothing queued; or on a miss `transform` of both sources' old values, which is then cached, the vertex being enqueued for commitment once after the sources' own reads |
| Mapped2WarmCells.Mapped2WarmCellVertex.SourceOldValues | core/src/commonMain/kotlin/dev/azide/core/internal/cell/operated_vertices/Mapped2WarmCellVertex.kt:127-130 | the two sources' old values, read first then second |
| MappedAtCells.MappedAtCellVertex.constructor | core/src/commonMain/kotlin/dev/azide/core/internal/cell/operated_vertices/MappedAtCellVertex.kt:9-19 | the stable value starts as `transform` of the source's old value; the commit queue gains exactly what reading that old value enqueues |
| MappedAtCells.MappedAtCellVertex.Start | core/src/commonMain/kotlin/dev/azide/core/internal/cell/operated_vertices/MappedAtCellVertex.kt:20-32 | the vertex is constructed, registered with the source independently of its own observers, and exposes the source's ongoing update, mapped, if there is one; it is enqueued for commitment exactly then, after what the old-value read enqueued |
| MappedAtCells.MappedAtCellVertex.Init | core/src/commonMain/kotlin/dev/azide/core/internal/cell/operated_vertices/MappedAtCellVertex.kt:55-73 | the vertex registers with its source; a source update in flight is exposed mapped and the vertex enqueued for commitment once; with none nothing is exposed and nothing queued |
| MappedAtCells.MappedAtCellVertex.ObserveSource | core/src/commonMain/kotlin/dev/azide/core/internal/cell/operated_vertices/MappedAtCellVertex.kt:56-60 | the vertex is added to the source's observers |
| MappedAtCells.MappedAtCellVertex.ExposeInitialUpdate | core/src/commonMain/kotlin/dev/azide/core/internal/cell/operated_vertices/MappedAtCellVertex.kt:62-72 | the source's ongoing update, if any, is exposed mapped and the vertex enqueued for commitment once; with none nothing changes |
| MappedAtCells.MappedAtCellVertex.HandleUpdate | core/src/commonMain/kotlin/dev/azide/core/internal/cell/operated_vertices/MappedAtCellVertex.kt:37-53 | a source update is exposed and propagated transformed, a revocation as a revocation |
| MappedAtCells.MappedAtCellVertex.GetOldValue | core/src/commonMain/kotlin/dev/azide/core/internal/cell/abstract_vertices/AbstractStatefulCellVertex.kt:19-21 | the stable value, with nothing changed |
| MappedAtCells.CommitStoresMappedUpdate | core/src/commonMain/kotlin/dev/azide/core/internal/cell/operated_vertices/MappedAtCellVertex.kt:37-53 | committing after a source update makes the mapped value the stable value; after a revocation the stable value is kept |
| HeldCells.UpdateOfEmission | core/src/commonMain/kotlin/dev/azide/core/internal/cell/operated_vertices/HeldCellVertex.kt:39-44 | an emission becomes an update carrying the emitted event, and no emission no update |
| HeldCells.CommitStoresEmission | core/src/commonMain/kotlin/dev/azide/core/internal/cell/operated_vertices/HeldCellVertex.kt:15-17 | committing after an emission makes the event the stable value; after a revocation the stable value is kept |
| HeldCells.HeldCellVertex.constructor | core/src/commonMain/kotlin/dev/azide/core/internal/cell/operated_vertices/HeldCellVertex.kt:11-28 | the stable value starts as `initialValue`, with nothing subscribed yet |
| HeldCells.HeldCellVertex.HandleEmission | core/src/commonMain/kotlin/dev/azide/core/internal/cell/operated_vertices/HeldCellVertex.kt:33-46 | the emission, as an update, is exposed and propagated to every observer |
| HeldCells.HeldCellVertex.WrapUp | core/src/commonMain/kotlin/dev/azide/core/internal/cell/operated_vertices/HeldCellVertex.kt:48-71 | refused when the cell already has observers, queueing nothing; otherwise it subscribes to the source (prepended) and exposes the source's ongoing emission, if any, as an update, enqueuing the cell for commitment once; without one nothing is queued |
| HeldCells.HeldCellVertex.SubscribeToSource | core/src/commonMain/kotlin/dev/azide/core/internal/cell/operated_vertices/HeldCellVertex.kt:56-60 | the cell is prepended to the source's subscribers; the source's emission and the cell's queue flag stay |
| HeldCells.HeldCellVertex.ExposeSourceEmission | core/src/commonMain/kotlin/dev/azide/core/internal/cell/operated_vertices/HeldCellVertex.kt:62-69 | the source's ongoing emission, if any, is exposed as an update and the cell enqueued for commitment once; with none nothing changes |
| MappedStreams.MappedEventStreamVertex.constructor | core/src/commonMain/kotlin/dev/azide/core/internal/event_stream/operated_vertices/MappedEventStreamVertex.kt:8-12 | a new mapped stream vertex, over its source with its transform, has no upstream handle, no emission and no subscribers |
| MappedStreams.MappedEventStreamVertex.HandleEmission | core/src/commonMain/kotlin/dev/azide/core/internal/event_stream/operated_vertices/MappedEventStreamVertex.kt:17-36 | a source emission `e` is exposed as `e.map(transform)`, a revocation as a revocation; every subscriber is notified, the vertex is enqueued for commitment at most once, and no side effect is queued |
| MappedStreams.MappedEventStreamVertex.Activate | core/src/commonMain/kotlin/dev/azide/core/internal/event_stream/operated_vertices/MappedEventStreamVertex.kt:38-51 | refused (AlreadyActive) while subscribed, leaving the source's subscribers as they were; otherwise the vertex subscribes to the source, under a handle the source holds, and returns the source's ongoing emission, mapped |
| MappedStreams.MappedEventStreamVertex.Deactivate | core/src/commonMain/kotlin/dev/azide/core/internal/event_stream/operated_vertices/MappedEventStreamVertex.kt:53-62 | refused (NotActive) without an upstream handle; otherwise the source no longer holds the subscription and the handle is forgotten; a refusal keeps the handle |
| MappedStreams.MappedEventStreamVertex.OnFirstSubscriberRegistered | core/src/commonMain/kotlin/dev/azide/core/internal/event_stream/abstract_vertices/AbstractStatelessEventStreamVertex.kt:7-18 | on the first subscriber the vertex activates, exposes the mapped source emission without propagating it, and is enqueued for commitment once; refused while already active, queueing nothing |
| MappedStreams.MappedEventStreamVertex.OnLastSubscriberUnregistered | core/src/commonMain/kotlin/dev/azide/core/internal/event_stream/abstract_vertices/AbstractStatelessEventStreamVertex.kt:20-24 | on the last subscriber the vertex deactivates and clears its ongoing emission; a refused deactivation leaves the emission |
| MappedStreams.MappedEventStreamVertex.RegisterSubscriber | core/src/commonMain/kotlin/dev/azide/core/internal/event_stream/abstract_vertices/AbstractLiveEventStreamVertex.kt:21-36 | the subscriber is prepended under a handle the vertex holds; only the first subscriber activates the vertex, which then carries the mapped source emission and is enqueued for commitment once; later ones leave emission, upstream handle and commit queue as they were |
| MappedStreams.MappedEventStreamVertex.UnregisterSubscriber | core/src/commonMain/kotlin/dev/azide/core/internal/event_stream/abstract_vertices/AbstractLiveEventStreamVertex.kt:38-49 | a foreign handle is refused (InvalidHandle); the handle's subscriber is gone afterwards; when none remain the vertex is deactivated and its emission cleared, otherwise emission and upstream handle stay |
| FilteredStreams.Accepted | core/src/commonMain/kotlin/dev/azide/core/internal/event_stream/operated_vertices/FilteredEventStreamVertex.kt:31-48 | the filtered emission is present exactly when the source emission is present and accepted by the predicate, and is then that emission unchanged |
| FilteredStreams.AcceptedIdempotent | core/src/commonMain/kotlin/dev/azide/core/internal/event_stream/operated_vertices/FilteredEventStreamVertex.kt:31-48 | filtering an already filtered emission again changes nothing |
| FilteredStreams.FilteredEventStreamVertex.constructor | core/src/commonMain/kotlin/dev/azide/core/internal/event_stream/operated_vertices/FilteredEventStreamVertex.kt:8-12 | a new filtered stream vertex, over its source with its predicate, has no upstream handle, no emission and no subscribers |
| FilteredStreams.FilteredEventStreamVertex.HandleEmission | core/src/commonMain/kotlin/dev/azide/core/internal/event_stream/operated_vertices/FilteredEventStreamVertex.kt:17-52 | the exposed emission is the accepted part of the source emission; a rejected emission with none ongoing notifies nobody and enqueues nothing; a revocation, an accepted emission or a rejection that corrects an ongoing one notifies every subscriber; no side effect is queued |
| FilteredStreams.FilteredEventStreamVertex.Activate | core/src/commonMain/kotlin/dev/azide/core/internal/event_stream/operated_vertices/FilteredEventStreamVertex.kt:54-69 | refused (AlreadyActive) while subscribed; otherwise subscribes to the source and returns its ongoing emission if the predicate accepts it (the `takeIf`), no emission otherwise |
| FilteredStreams.FilteredEventStreamVertex.Deactivate | core/src/commonMain/kotlin/dev/azide/core/internal/event_stream/operated_vertices/FilteredEventStreamVertex.kt:71-80 | refused (NotActive) without an upstream handle; otherwise the source no longer holds the subscription and the handle is forgotten |
| FilteredStreams.FilteredEventStreamVertex.OnFirstSubscriberRegistered | core/src/commonMain/kotlin/dev/azide/core/internal/event_stream/abstract_vertices/AbstractStatelessEventStreamVertex.kt:7-18 | on the first subscriber the vertex activates, exposes the accepted source emission and is enqueued for commitment once; refused while already active, queueing nothing |
| FilteredStreams.FilteredEventStreamVertex.OnLastSubscriberUnregistered | core/src/commonMain/kotlin/dev/azide/core/internal/event_stream/abstract_vertices/AbstractStatelessEventStreamVertex.kt:20-24 | on the last subscriber the vertex deactivates and clears its ongoing emission |
| SingleStreams.SingleEventStreamVertex.constructor | core/src/commonMain/kotlin/dev/azide/core/internal/event_stream/operated_vertices/SingleEventStreamVertex.kt:9-51 | construction subscribes loosely to the source at once (the source holds the loose subscription, prepended) and takes over the source's ongoing emission; the vertex is enqueued for commitment exactly when there was one; no side effect is queued |
| SingleStreams.SingleEventStreamVertex.Subscribe | core/src/commonMain/kotlin/dev/azide/core/internal/event_stream/operated_vertices/SingleEventStreamVertex.kt:13-18 | the loose registration: this vertex is prepended to the source's subscribers under a handle the source holds |
| SingleStreams.SingleEventStreamVertex.ExposeInitialEmission | core/src/commonMain/kotlin/dev/azide/core/internal/event_stream/operated_vertices/SingleEventStreamVertex.kt:44-51 | the vertex's emission becomes the source's ongoing emission; with one the vertex is enqueued for commitment once, without one nothing is queued |
| SingleStreams.SingleEventStreamVertex.HandleEmission | core/src/commonMain/kotlin/dev/azide/core/internal/event_stream/operated_vertices/SingleEventStreamVertex.kt:23-42 | every source emission or revocation is exposed as it is and propagated to every subscriber; the loose subscription stays |
| SingleStreams.SingleEventStreamVertex.Transit | core/src/commonMain/kotlin/dev/azide/core/internal/event_stream/operated_vertices/SingleEventStreamVertex.kt:53-60 | without a subscription it fails (AlreadyTransited); otherwise the source no longer holds it and it is forgotten |
| SingleStreams.SingleEventStreamVertex.Commit | core/src/commonMain/kotlin/dev/azide/core/internal/event_stream/abstract_vertices/AbstractLiveEventStreamVertex.kt:51-58 | after an emission the vertex transits first (cancels its subscription, so it emits once), failing if it had transited already; a failed transit stops the commit and leaves the emission and the enqueued flag as they were; otherwise both are cleared, and without an emission nothing else changes |
| ValuesStreams.ValuesEmission | core/src/commonMain/kotlin/dev/azide/core/internal/event_stream/operated_vertices/ValuesEventStreamVertex.kt:46-84 | while spawning the emission is always the source's new value (its update, else its old value); once spawned there is an emission exactly when the source updates, carrying the updated value |
| ValuesStreams.ValuesEventStreamVertex.constructor | core/src/commonMain/kotlin/dev/azide/core/internal/event_stream/operated_vertices/ValuesEventStreamVertex.kt:14-41 | a new values vertex is spawning, unsubscribed, without emission and already enqueued for commitment (appended once to the commit queue), so that it can transit |
| ValuesStreams.ValuesEventStreamVertex.EmissionFor | core/src/commonMain/kotlin/dev/azide/core/internal/event_stream/operated_vertices/ValuesEventStreamVertex.kt:46-84 | the emission the current state yields for an ongoing update, against the source's old value; the commit queue gains only what that old-value read enqueues, and only while spawning without an update |
| ValuesStreams.ValuesEventStreamVertex.HandleUpdate | core/src/commonMain/kotlin/dev/azide/core/internal/event_stream/operated_vertices/ValuesEventStreamVertex.kt:46-84 | the exposed emission is that of `ValuesEmission` for the update; the state does not change; every subscriber is notified, and the vertex is enqueued for commitment once, after any old-value read |
| ValuesStreams.ValuesEventStreamVertex.ObserveSource | core/src/commonMain/kotlin/dev/azide/core/internal/event_stream/operated_vertices/ValuesEventStreamVertex.kt:93-96 | the vertex is prepended to the source cell's observers under a handle the source holds; the source's update and cache stay |
| ValuesStreams.ValuesEventStreamVertex.Activate | core/src/commonMain/kotlin/dev/azide/core/internal/event_stream/operated_vertices/ValuesEventStreamVertex.kt:86-123 | refused (AlreadyActive) while observing, queueing nothing; otherwise observes the source and returns `ValuesEmission` for the source's ongoing update (spawning: always an emission; spawned: only with an update) |
| ValuesStreams.ValuesEventStreamVertex.Deactivate | core/src/commonMain/kotlin/dev/azide/core/internal/event_stream/operated_vertices/ValuesEventStreamVertex.kt:125-134 | refused (NotActive) without a handle; otherwise the source no longer holds the registration and the handle is forgotten |
| ValuesStreams.ValuesEventStreamVertex.OnFirstSubscriberRegistered | core/src/commonMain/kotlin/dev/azide/core/internal/event_stream/abstract_vertices/AbstractStatelessEventStreamVertex.kt:7-18 | on the first subscriber the vertex activates, exposes the activation emission and is enqueued for commitment once; a refusal queues nothing |
| ValuesStreams.ValuesEventStreamVertex.OnLastSubscriberUnregistered | core/src/commonMain/kotlin/dev/azide/core/internal/event_stream/abstract_vertices/AbstractStatelessEventStreamVertex.kt:20-24 | on the last subscriber the vertex deactivates and clears its ongoing emission |
| ValuesStreams.ValuesEventStreamVertex.CommitAsWritten | core/src/commonMain/kotlin/dev/azide/core/internal/event_stream/abstract_vertices/AbstractLiveEventStreamVertex.kt:51-58 | as written: the state becomes spawned only if an emission was ongoing at commitment, and stays spawning otherwise |
| ValuesStreams.ValuesEventStreamVertex.Commit | core/src/commonMain/kotlin/dev/azide/core/internal/event_stream/operated_vertices/ValuesEventStreamVertex.kt:36-41 | corrected: commitment of the spawning transaction always makes the vertex spawned, as the enqueueing at construction intends |
| ValuesStreams.SilentSpawnAsWritten | core/src/commonMain/kotlin/dev/azide/core/internal/event_stream/operated_vertices/ValuesEventStreamVertex.kt:36-41 | as written, a vertex spawned with no subscriber and no source update is still spawning after commitment, and a later activation emits the source's old value |
| ValuesStreams.SilentSpawn | core/src/commonMain/kotlin/dev/azide/core/internal/event_stream/operated_vertices/ValuesEventStreamVertex.kt:136-138 | corrected, the same sequence leaves the vertex spawned, and the later activation yields no emission |
| ExecutedEachStreams.Withdrawn | core/src/commonMain/kotlin/dev/azide/core/internal/event_stream/operated_vertices/ExecutedEachEventStreamVertex.kt:48 | revoking the previous action's handle drops exactly the side effects that handle targets; without a handle the queue is unchanged |
| ExecutedEachStreams.WithdrawnTwice | core/src/commonMain/kotlin/dev/azide/core/internal/event_stream/operated_vertices/ExecutedEachEventStreamVertex.kt:36-48 | revoking the same handle twice equals revoking it once |
| ExecutedEachStreams.StaleRevocationHarmless | core/src/commonMain/kotlin/dev/azide/core/internal/event_stream/operated_vertices/ExecutedEachEventStreamVertex.kt:35-48 | a handle revoked once and revoked again after later entries were queued leaves those later entries untouched |
| ExecutedEachStreams.ExecutedEachEventStreamVertex.constructor | core/src/commonMain/kotlin/dev/azide/core/internal/event_stream/operated_vertices/ExecutedEachEventStreamVertex.kt:9-25 | the field initialisers: no subscription, no executed action, no emission, no subscribers |
| ExecutedEachStreams.ExecutedEachEventStreamVertex.Start | core/src/commonMain/kotlin/dev/azide/core/internal/event_stream/operated_vertices/ExecutedEachEventStreamVertex.kt:13-21 | construction subscribes to the source (prepended, under a handle it holds); without an ongoing action nothing is executed, queued or enqueued; with one, the action runs on the side-effect queue, its result is the emission, its handle is kept, and the vertex is enqueued for commitment |
| ExecutedEachStreams.ExecutedEachEventStreamVertex.Init | core/src/commonMain/kotlin/dev/azide/core/internal/event_stream/operated_vertices/ExecutedEachEventStreamVertex.kt:110-132 | subscription, then execution of the source's ongoing action, as for `Start`, overwriting any earlier emission and handle; without an ongoing action emission, handle and both queues stay |
| ExecutedEachStreams.ExecutedEachEventStreamVertex.Subscribe | core/src/commonMain/kotlin/dev/azide/core/internal/event_stream/operated_vertices/ExecutedEachEventStreamVertex.kt:111-114 | the vertex is prepended to the source's subscribers under a handle the source holds |
| ExecutedEachStreams.ExecutedEachEventStreamVertex.ExecuteOngoing | core/src/commonMain/kotlin/dev/azide/core/internal/event_stream/operated_vertices/ExecutedEachEventStreamVertex.kt:117-131 | the source's ongoing action runs on the side-effect queue; its result is exposed, its revocation handle kept, and the vertex enqueued for commitment once |
| ExecutedEachStreams.ExecutedEachEventStreamVertex.ExecuteAction | core/src/commonMain/kotlin/dev/azide/core/internal/event_stream/operated_vertices/ExecutedEachEventStreamVertex.kt:50-56 | the action runs on the queue: result, new queue and kept handle are exactly the action's; the commit queue stays |
| ExecutedEachStreams.ExecutedEachEventStreamVertex.RevokeExecuted | core/src/commonMain/kotlin/dev/azide/core/internal/event_stream/operated_vertices/ExecutedEachEventStreamVertex.kt:48 | the queue becomes `Withdrawn` of the kept handle; the handle itself stays |
| ExecutedEachStreams.ExecutedEachEventStreamVertex.HandleEmissionAsWritten | core/src/commonMain/kotlin/dev/azide/core/internal/event_stream/operated_vertices/ExecutedEachEventStreamVertex.kt:30-66 | as written: a revocation without a kept handle fails (MissingRevocationHandle) and changes nothing; a revocation revokes the executed action and the emission but keeps the revoked handle; a new or corrected action first withdraws the previous one, runs on the resulting queue, and its result is emitted and its handle kept; success enqueues the vertex for commitment once and notifies every subscriber; `revoked` is the handle this call revoked |
| ExecutedEachStreams.ExecutedEachEventStreamVertex.HandleEmission | core/src/commonMain/kotlin/dev/azide/core/internal/event_stream/operated_vertices/ExecutedEachEventStreamVertex.kt:30-66 | corrected: as above, except that a revocation also forgets the revoked handle, as `abort` does |
| ExecutedEachStreams.ExecutedEachEventStreamVertex.ReplaceExecuted | core/src/commonMain/kotlin/dev/azide/core/internal/event_stream/operated_vertices/ExecutedEachEventStreamVertex.kt:47-64 | the previous action is withdrawn, the new one runs on the resulting queue, its result is emitted to every subscriber, its handle kept, and the vertex enqueued for commitment once |
| ExecutedEachStreams.ExecutedEachEventStreamVertex.ExposeAndPropagate | core/src/commonMain/kotlin/dev/azide/core/internal/event_stream/abstract_vertices/AbstractLiveEventStreamVertex.kt:60-73 | the emission becomes the ongoing one, the vertex is enqueued for commitment once, and every subscriber is notified, without side effects |
| ExecutedEachStreams.ExecutedEachEventStreamVertex.AbortAsWritten | core/src/commonMain/kotlin/dev/azide/core/internal/event_stream/operated_vertices/ExecutedEachEventStreamVertex.kt:68-78 | as written: the executed action is revoked and forgotten; without a subscription it fails (AlreadyAborted); otherwise the source no longer holds the subscription, but its handle is kept |
| ExecutedEachStreams.ExecutedEachEventStreamVertex.Abort | core/src/commonMain/kotlin/dev/azide/core/internal/event_stream/operated_vertices/ExecutedEachEventStreamVertex.kt:68-78 | corrected: as above, and a successful abort also forgets the subscription handle |
| ExecutedEachStreams.ExecutedEachEventStreamVertex.CancelSubscription | core/src/commonMain/kotlin/dev/azide/core/internal/event_stream/operated_vertices/ExecutedEachEventStreamVertex.kt:72-77 | without a subscription it fails (AlreadyAborted); otherwise the source no longer holds it and (corrected) its handle is forgotten |
| ExecutedEachStreams.ExecutedEachEventStreamVertex.Restart | core/src/commonMain/kotlin/dev/azide/core/internal/event_stream/operated_vertices/ExecutedEachEventStreamVertex.kt:80-108 | refused (AlreadyActive) while a subscription handle is kept, queueing nothing; otherwise subscribes again and runs the source's ongoing action, as at construction, overwriting the emission and handle and enqueuing the vertex; without an ongoing action the emission, handle and queues stay |
| ExecutedEachStreams.RestartAfterAbortAsWritten | core/src/commonMain/kotlin/dev/azide/core/internal/event_stream/operated_vertices/ExecutedEachEventStreamVertex.kt:68-108 | with `abort` as written, canceling a started vertex succeeds and the following restart always fails with AlreadyActive, whether or not the source emits |
| ExecutedEachStreams.RestartAfterAbort | core/src/commonMain/kotlin/dev/azide/core/internal/event_stream/operated_vertices/ExecutedEachEventStreamVertex.kt:80-108 | with the corrected `abort`, the same cancel-then-restart sequence succeeds, whether or not the source emits, and the source holds the new subscription |
| ExecutedEachStreams.RevokeThenEmitAsWritten | core/src/commonMain/kotlin/dev/azide/core/internal/event_stream/operated_vertices/ExecutedEachEventStreamVertex.kt:35-56 | as written, a revocation followed by a new emission revokes the same handle twice: the one revoked for the revocation is revoked again before the new action runs |
| ExecutedEachStreams.RevokeThenEmit | core/src/commonMain/kotlin/dev/azide/core/internal/event_stream/operated_vertices/ExecutedEachEventStreamVertex.kt:35-56 | corrected, the revocation forgets the handle, so the new emission revokes nothing |
| SwitchedCells.InnerLinks.DetachStable | core/src/commonMain/kotlin/dev/azide/internal/cell/operated_vertices/SwitchedCellVertex.kt:256-285 | unregistration from the stable inner cell succeeds exactly when that cell holds the handle, which is then forgotten; the cell's update and cache stay |
| SwitchedCells.InnerLinks.DetachUpdated | core/src/commonMain/kotlin/dev/azide/internal/cell/operated_vertices/SwitchedCellVertex.kt:116-118 | unregistration from the updated inner cell succeeds exactly when that cell holds the handle, which is then forgotten |
| SwitchedCells.InnerLinks.AttachStable | core/src/commonMain/kotlin/dev/azide/internal/cell/operated_vertices/SwitchedCellVertex.kt:129-132 | the inner observer is prepended to the stable inner cell's observers, under a handle it holds |
| SwitchedCells.InnerLinks.AttachUpdated | core/src/commonMain/kotlin/dev/azide/internal/cell/operated_vertices/SwitchedCellVertex.kt:184-187 | the inner observer is prepended to the updated inner cell's observers, under a handle it holds |
| SwitchedCells.InnerLinks.DetachNewInner | core/src/commonMain/kotlin/dev/azide/internal/cell/operated_vertices/SwitchedCellVertex.kt:275-280 | unregistration from the new inner cell (updated, else stable) succeeds exactly when it holds the handle, which is then forgotten |
| SwitchedCells.InnerLinks.AttachNewInner | core/src/commonMain/kotlin/dev/azide/internal/cell/operated_vertices/SwitchedCellVertex.kt:246-251 | the inner observer is prepended to the new inner cell's observers, under a handle it holds |
| SwitchedCells.InnerLinks.Link | core/src/commonMain/kotlin/dev/azide/internal/cell/operated_vertices/SwitchedCellVertex.kt:241-244 | the stable and updated links are set as given, with no inner handle yet |
| SwitchedCells.InnerLinks.LinkUpdated | core/src/commonMain/kotlin/dev/azide/internal/cell/operated_vertices/SwitchedCellVertex.kt:171-187 | the handled cell becomes the updated inner cell and holds the new inner registration; the stable link stays |
| SwitchedCells.InnerLinks.RelinkStable | core/src/commonMain/kotlin/dev/azide/internal/cell/operated_vertices/SwitchedCellVertex.kt:122-132 | the updated link is forgotten and the stable inner cell holds the new inner registration |
| SwitchedCells.InnerLinks.Commit | core/src/commonMain/kotlin/dev/azide/internal/cell/operated_vertices/SwitchedCellVertex.kt:310-317 | the new inner cell becomes the stable one and the updated link is cleared; the registration stays |
| SwitchedCells.InnerLinks.Clear | core/src/commonMain/kotlin/dev/azide/internal/cell/operated_vertices/SwitchedCellVertex.kt:282-284 | every link and the inner handle are forgotten |
| SwitchedCells.InnerLinks.StableOldValue | core/src/commonMain/kotlin/dev/azide/internal/cell/operated_vertices/SwitchedCellVertex.kt:302-307 | the stable inner cell's old value; the commit queue gains exactly what that read enqueues |
| SwitchedCells.InnerLinks.UpdatedOldValue | core/src/commonMain/kotlin/dev/azide/internal/cell/operated_vertices/SwitchedCellVertex.kt:80 | the updated inner cell's old value; the commit queue gains exactly what that read enqueues |
| SwitchedCells.InnerLinks.UpdatedNewValue | core/src/commonMain/kotlin/dev/azide/internal/cell/operated_vertices/SwitchedCellVertex.kt:194-196 | the updated inner cell's new value: its update, else its old value, the read then enqueuing what an old-value read does |
| SwitchedCells.SwitchedCellVertex.constructor | core/src/commonMain/kotlin/dev/azide/internal/cell/operated_vertices/SwitchedCellVertex.kt:23-54 | a new switched vertex is inactive, observerless and linked to nothing |
| SwitchedCells.SwitchedCellVertex.HandleInnerUpdate | core/src/commonMain/kotlin/dev/azide/internal/cell/operated_vertices/SwitchedCellVertex.kt:56-96 | an inner update is exposed as it is; an inner revocation with no updated inner cell revokes; one with an updated inner cell falls back to that cell's old value; every observer is notified and the vertex is enqueued for commitment once, after any old-value read |
| SwitchedCells.SwitchedCellVertex.FallBackToUpdatedOldValue | core/src/commonMain/kotlin/dev/azide/internal/cell/operated_vertices/SwitchedCellVertex.kt:75-83 | the exposed update is the updated inner cell's old value, propagated to every observer; the vertex is enqueued for commitment once, after that read |
| SwitchedCells.SwitchedCellVertex.RevokeOuterUpdate | core/src/commonMain/kotlin/dev/azide/internal/cell/operated_vertices/SwitchedCellVertex.kt:106-149 | fails (OuterNotUpdated) without an updated inner cell; succeeds exactly when the updated cell holds the inner handle; then the updated link is forgotten, the stable cell holds the new registration, the stable cell's ongoing update (a revocation if none) is exposed to every observer, and the vertex is enqueued for commitment once; a failure queues nothing |
| SwitchedCells.SwitchedCellVertex.ReturnToStable | core/src/commonMain/kotlin/dev/azide/internal/cell/operated_vertices/SwitchedCellVertex.kt:124-148 | re-registration with the stable inner cell and exposure of its ongoing update, the vertex being enqueued for commitment once |
| SwitchedCells.SwitchedCellVertex.SwitchTo | core/src/commonMain/kotlin/dev/azide/internal/cell/operated_vertices/SwitchedCellVertex.kt:151-199 | fails while inactive; an update to the current new inner cell is ignored (nothing changes, nobody is notified, nothing queued); otherwise it succeeds exactly when the previous new cell holds the handle, and then the handled cell becomes the updated inner cell, holds the registration, and its new value is exposed to every observer; the commit queue gains what reading that cell enqueues, then the vertex |
| SwitchedCells.SwitchedCellVertex.Rewire | core/src/commonMain/kotlin/dev/azide/internal/cell/operated_vertices/SwitchedCellVertex.kt:171-198 | the registration moves from the new inner cell to the handled one, succeeding exactly when the former holds the handle; the handled cell's new value is exposed, the commit queue gains what reading that cell enqueues, then the vertex; a failure queues nothing |
| SwitchedCells.SwitchedCellVertex.MoveTo | core/src/commonMain/kotlin/dev/azide/internal/cell/operated_vertices/SwitchedCellVertex.kt:184-198 | the handled cell becomes the updated inner cell, holds the registration, and its new value is exposed and propagated; the commit queue gains what reading that cell enqueues, then the vertex |
| SwitchedCells.SwitchedCellVertex.HandleUpdate | core/src/commonMain/kotlin/dev/azide/internal/cell/operated_vertices/SwitchedCellVertex.kt:101-201 | an outer revocation without an updated inner cell fails; a successful one exposes the stable cell's update; an outer update to another inner cell links it as the updated one and exposes its new value; success enqueues the vertex for commitment; a failure changes no emission, notifies nobody and queues nothing |
| SwitchedCells.SwitchedCellVertex.Activate | core/src/commonMain/kotlin/dev/azide/internal/cell/operated_vertices/SwitchedCellVertex.kt:203-254 | refused (AlreadyActive) if any link is set, queueing nothing; otherwise the outer cell holds the outer registration, the stable link is the outer old value, the updated link is present exactly when the outer cell updates, the new inner cell holds the inner registration, the result is that cell's ongoing update, and the queue gains what reading the outer old value enqueues |
| SwitchedCells.SwitchedCellVertex.LinkAndRegister | core/src/commonMain/kotlin/dev/azide/internal/cell/operated_vertices/SwitchedCellVertex.kt:210-251 | the resolved inner cells are linked, the new one holds the inner registration and the outer cell the outer one; nothing is queued |
| SwitchedCells.SwitchedCellVertex.ResolveInners | core/src/commonMain/kotlin/dev/azide/internal/cell/operated_vertices/SwitchedCellVertex.kt:219-239 | the stable inner cell is the outer cell's old value and the updated one the cell its ongoing update carries; the queue gains what reading the outer old value enqueues |
| SwitchedCells.SwitchedCellVertex.Deactivate | core/src/commonMain/kotlin/dev/azide/internal/cell/operated_vertices/SwitchedCellVertex.kt:256-285 | refused (NotActive) unless outer handle, stable link and inner handle are all set; succeeds exactly when the outer cell and the new inner cell hold their handles; then every link and handle is forgotten and neither the outer cell nor the former new inner cell holds its registration |
| SwitchedCells.SwitchedCellVertex.DetachOuter | core/src/commonMain/kotlin/dev/azide/internal/cell/operated_vertices/SwitchedCellVertex.kt:265-271 | unregistration from the outer cell succeeds exactly when it holds the handle, which is then forgotten; the inner links stay |
| SwitchedCells.SwitchedCellVertex.Unlink | core/src/commonMain/kotlin/dev/azide/internal/cell/operated_vertices/SwitchedCellVertex.kt:273-284 | unregistration from the new inner cell succeeds exactly when it holds the handle, and afterwards that cell no longer holds it; then every link is forgotten |
| SwitchedCells.SwitchedCellVertex.OnFirstObserverRegistered | core/src/commonMain/kotlin/dev/azide/core/internal/cell/abstract_vertices/AbstractStatelessCellVertex.kt:7-18 | on the first observer the vertex activates, exposes the new inner cell's ongoing update and is enqueued for commitment once, after the outer old-value read; a refusal queues nothing |
| SwitchedCells.SwitchedCellVertex.OnLastObserverUnregistered | core/src/commonMain/kotlin/dev/azide/core/internal/cell/abstract_vertices/AbstractStatelessCellVertex.kt:20-24 | on the last observer the vertex deactivates (succeeding exactly as `Deactivate`) and clears its ongoing update |
| SwitchedCells.SwitchedCellVertex.GetOldValue | core/src/commonMain/kotlin/dev/azide/internal/cell/operated_vertices/SwitchedCellVertex.kt:287-308 | while active, the stable inner cell's old value; while inactive, the old value of the inner cell that is the outer cell's old value; the queue gains exactly what those reads enqueue |
| SwitchedCells.SwitchedCellVertex.InactiveOldValue | core/src/commonMain/kotlin/dev/azide/internal/cell/operated_vertices/SwitchedCellVertex.kt:291-299 | the old value of the outer cell's old value, recomputed while inactive; the queue gains what the two reads enqueue |
| SwitchedCells.SwitchedCellVertex.ResolveOldCell | core/src/commonMain/kotlin/dev/azide/internal/cell/operated_vertices/SwitchedCellVertex.kt:294-298 | the cell resolved is the outer cell's old value, and resolving it changes neither it nor any other inner cell; the queue gains what that read enqueues |
| SwitchedCells.SwitchedCellVertex.Commit | core/src/commonMain/kotlin/dev/azide/internal/cell/operated_vertices/SwitchedCellVertex.kt:310-317 | the exposed update is cleared and the new inner cell becomes the stable one; the updated link is cleared; the registration with the new inner cell stays |
| EventStreams.Map | core/src/commonMain/kotlin/dev/azide/core/EventStream.kt:52-65 | over a terminated stream the result is terminated; over a live one it is a new mapped vertex over that stream with that transform, not yet subscribed |
| EventStreams.Filter | core/src/commonMain/kotlin/dev/azide/core/EventStream.kt:92-103 | over a terminated stream the result is terminated; over a live one it is a new filtered vertex over that stream with that predicate, not yet subscribed |
| EventStreams.Single | core/src/commonMain/kotlin/dev/azide/core/EventStream.kt:109-119 | over a terminated stream the result is terminated; over a live one it is a new single vertex, loosely subscribed to the stream and carrying its ongoing emission |
| EventStreams.Hold | core/src/commonMain/kotlin/dev/azide/core/EventStream.kt:125-139 | over a terminated stream a pure cell holding the initial value; over a live one a held cell over the stream whose stable value is the initial value |
| EventStreams.ExecuteEach | core/src/commonMain/kotlin/dev/azide/core/EventStream.kt:163-216 | over a terminated stream, a terminated stream and a no-op handle, queuing nothing; over a live one, a started executed-each vertex subscribed to the stream, and the handle that cancels it; without an ongoing action nothing is executed |
| EventStreams.RevokeStartAsWritten | core/src/commonMain/kotlin/dev/azide/core/EventStream.kt:209-213 | as written: a no-op for a no-op handle; otherwise the vertex is aborted with `abort` as written, its executed action withdrawn and forgotten, its subscription handle kept |
| EventStreams.RevokeStart | core/src/commonMain/kotlin/dev/azide/core/EventStream.kt:209-213 | revoking the start action is a no-op for a no-op handle; otherwise it aborts the vertex with the corrected `abort`, withdrawing its executed action and forgetting its subscription |
| EventStreams.CancelAsWritten | core/src/commonMain/kotlin/dev/azide/core/EventStream.kt:189-194 | as written: a no-op handle does nothing; otherwise the vertex is aborted with `abort` as written: executed action withdrawn, AlreadyAborted if it was not subscribed, its subscription dropped but its handle kept |
| EventStreams.Cancel | core/src/commonMain/kotlin/dev/azide/core/EventStream.kt:189-194 | a no-op handle does nothing; otherwise the vertex is aborted with the corrected `abort`: its executed action withdrawn, AlreadyAborted if it was not subscribed, its subscription dropped and forgotten otherwise |
| EventStreams.RevokeCancel | core/src/commonMain/kotlin/dev/azide/core/EventStream.kt:197-203 | a no-op handle does nothing; otherwise the vertex restarts: AlreadyActive (queueing nothing) while subscribed, a new held subscription otherwise, with the source's ongoing action run and its result overwriting the emission |
| EventStreams.CancelThenRevokeAsWritten | core/src/commonMain/kotlin/dev/azide/core/EventStream.kt:189-203 | as written, canceling a subscribed vertex succeeds and revoking the cancel then fails with AlreadyActive |
| EventStreams.CancelThenRevoke | core/src/commonMain/kotlin/dev/azide/core/EventStream.kt:189-203 | corrected, the same sequence succeeds twice and the source holds the vertex's new subscription |

## Left out

- Weak references and finalization are left out: `FinalizationTransactionRegistry`, `MutableWeakBag`, weakly referenced observers and subscribers, `registerObserverWeakly`/`registerSubscriberWeakly`. Registration is a plain handle into the bag. The loose subscription of `SingleEventStreamVertex` is an ordinary subscription, and canceling it unregisters.
- The `Unreachable` status an observer may report is a parameter of every propagating method, a predicate over observers. Propagation drops exactly the observers it selects.
- Notifying a downstream observer runs that observer's own handler in the source. Here propagation returns the sequence of notified observers, in bag order, and each operator's handler is a method of its own that a caller invokes. Overridable hooks are not dispatched either, because Dafny classes here have no subclassing: the base state reports the first or last listener, or a due `transit`, and the owning operator runs its `activate`, `deactivate` or `transit`.
- The cascade of registering with a source is not modelled: a source's own first-observer activation is not modelled. An operator's registration only adds it to the source's bag.
- `getOldValue` of a source whose old value is computed by user code is not modelled. This covers uncached stateless cells and Switched's inner and outer cells. The computed value arrives as a parameter (`sourceComputed`, `innerComputed`, `outerComputed`). The caching and stateful layers around it are modelled.
- User transforms and predicates are total Dafny functions. The `Transactions.PropagationContext` argument of the `mapAt` transform is dropped, so a `MappedAtCellVertex` transform is `V -> W`; whatever a transform does with that context (reading other cells, queueing work) is not captured. `EventStream.mapAt` is not modelled separately: it builds the same mapped stream vertex as `map`. `mapNotNull`, `mapNotNullAt`, `filterAt` and `take` are `TODO()` stubs in the source.
- The wrap-up callback of `HeldCellVertex` (the `WrapUpContext` and `LoopedLazy` machinery) is a method that the creator calls after construction.
- `ExternalSourceAdapter`, `WrappedExternalEventStreamVertex`, `Moment`, `MomentContext`, `Effect`, `Transaction` and `LazyUtils` are left out: they are the boundary to the external world and thin context wrappers. The core `Cell.kt` and `dev/azide/Cell.kt` are left out as well: they are inconsistent snapshots with `TODO()` stubs. So are the older `dev.azide.internal` duplicates, except `SwitchedCellVertex`, which exists only there.
- Transactions.ExecuteWithResult: the propagation callback is a script of steps (queue a vertex for commitment, queue a side effect, revoke a handle), and its result is a parameter. Side effects are opaque numbers, because running one is I/O. Committing a vertex and running a side effect are recorded as events of a trace, not performed.
- Exceptions are `Failure`/`Failed` results carrying the reason (AlreadyActive, NotActive, InvalidHandle, AlreadyAborted, AlreadyTransited, MissingRevocationHandle, OuterNotUpdated). Where the source throws after part of its work, the contracts state the failure and what it leaves unchanged, not the whole partial state.
- SwitchedCells.SwitchedCellVertex.HandleUpdate: the inner cells an outer update carries must be valid and share no state with the switched vertex or each other unless identical (`Fits`). The independence of the switch from the order in which the outer and inner cells are stimulated, a property of whole transaction scenarios, is not stated as a lemma.
- SwitchedCells.SwitchedCellVertex.Activate: the model reads the outer cell's old value once, where the source reads it twice, and so assumes that both reads return the same inner cell; for an uncached outer cell both reads compute, and the model does not capture two different results. The inner cells it resolves must be `Resolvable`, sharing no state. The source registers with the outer cell before reading its ongoing update, and the model registers after the reads; that order matters only through the registration cascade, which is left out.
- SwitchedCells.InnerLinks: a grouping object for the three inner-cell fields of the switched vertex, which keeps each method's frame small. It is not a class of the source.
- The `registerObserver`/`unregisterObserver` wrappers of the switched vertex, which run its stateless hooks, are not modelled as separate methods. `OnFirstObserverRegistered` and `OnLastObserverUnregistered` are modelled.
- ExecutedEachStreams.ExecutedEachEventStreamVertex.Start and the other methods that execute actions require every action to be `WellBehaved`. Such an action keeps the side-effect queue well formed and owned by the same transaction, which any action built from the combinators does.
- MutableBags.MutableBag.ForEach: the source's counter is not decremented by `forEach`. The model keeps that behaviour: afterwards the counter is only an upper bound on the elements.
- Transactions.RevokeIdempotent: revocation removes entries by identifier, so a second revocation of the same handle removes nothing. In the source, revoking a side effect is `removeVia` on a node of a linked list from a library that is not part of this model, and what a second removal of that node does is not modelled. The one place where the source revokes a handle twice is listed under "## Findings".
- ExecutedEachStreams.WithdrawnTwice: rests on the same identifier-based removal as `RevokeIdempotent`; it does not state what the list library does on a second removal.
- ExecutedEachStreams.StaleRevocationHarmless: rests on the same identifier-based removal; a second `removeVia` on a node already removed is outside the model.
- Mapped2WarmCells.Mapped2WarmCellVertex: both sources are warm cell vertices. The source accepts any `CellVertex`, including a frozen one, for which it keeps no handle. A frozen source never updates and is never observed, so the model does not admit it, and the frozen branch of `deactivate` is not modelled.
- Mapped2WarmCells.Mapped2WarmCellVertex.constructor: the two sources are distinct and share no state (`source1.Repr !! source2.Repr`, kept by `Valid`). The source also accepts `map2` of one cell with itself, which registers the vertex twice with that cell and recomputes once per notification, so twice per update of that cell; that case is not modelled.
- SwitchedCells.SwitchedCellVertex: the outer cell and every inner cell are warm cell vertices. The source accepts any `CellVertex`, and a constant (frozen) inner cell is then observed without a registration. That case is not modelled.
- Actions.Execute: an action works on the side-effect list alone. In the source an action receives the whole propagation context, and so could also enqueue vertices for commitment; no action of the core does, and the model does not admit one that would.
- `AbstractStatefulEventStreamVertex`, the base of `SingleEventStreamVertex` and `ExecutedEachEventStreamVertex`, is not part of this model. Both operators are modelled on the live stream base instead, with their own subscription state, so their exposure, propagation, commitment and `transit` are those of `AbstractLiveEventStreamVertex`; whatever the stateful base adds to them is not captured.
- Integer widths do not matter here: the only counter is the bag size.

## Findings

| source | as written | input that shows it | evidently intended | confidence | as-written member | corrected member |
|---|---|---|---|---|---|---|
| core/src/commonMain/kotlin/dev/azide/core/internal/event_stream/operated_vertices/ExecutedEachEventStreamVertex.kt:68-85 | `abort` unregisters from the source but keeps `upstreamSubscriberHandle`, and `restart` refuses to run while that handle is set | start `executeEach` on a live stream, trigger the handle's `cancel`, then revoke the cancel: `restart` throws "already active" | `abort` forgets the handle it unregistered, so revoking a cancel subscribes the vertex again; `Cancel`, `RevokeStart` and `RestartAfterAbort` use that corrected `abort`, the `AsWritten` variants the original | not executed | EventStreams.CancelThenRevokeAsWritten | EventStreams.CancelThenRevoke |
| core/src/commonMain/kotlin/dev/azide/core/internal/event_stream/operated_vertices/ExecutedEachEventStreamVertex.kt:35-48 | a revoked emission revokes the executed action's handle but keeps it, so the next emission (line 48), or an `abort` (line 69), revokes that same handle again | let the vertex execute an action, let the source revoke the emission, then emit a new action in the same transaction: the first action's handle is revoked twice | forget the handle once it is revoked, as `abort` does at line 70, so that every handle is revoked at most once | not executed; what a second revocation does depends on `removeVia` of a list library that is not part of this model | ExecutedEachStreams.RevokeThenEmitAsWritten | ExecutedEachStreams.RevokeThenEmit |
| core/src/commonMain/kotlin/dev/azide/core/internal/event_stream/operated_vertices/ValuesEventStreamVertex.kt:36-41 | the vertex enqueues itself at construction so that it becomes Spawned, but the live commit runs `transit` only while an emission is ongoing, and an unobserved vertex never emits | create `values` of a cell with no ongoing update and no subscriber, commit, then subscribe in a later transaction: the activation emits the cell's old value again | the spawning transaction's commit always makes the vertex Spawned, so a later activation emits only an update | not executed | ValuesStreams.SilentSpawnAsWritten | ValuesStreams.SilentSpawn |

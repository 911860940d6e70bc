/**
 * The warm cell vertex: a cell that keeps a bag of observers, the update it
 * exposes in the ongoing transaction and an "already enqueued for
 * commitment" flag. What it keeps between transactions depends on its
 * persistence: a caching vertex keeps an old-value cache (for one
 * transaction, or for as long as it is active), a stateful vertex keeps a
 * stable value, and an uncached vertex keeps nothing and computes its old
 * value itself.
 *
 * Hooks that subclasses override in the source are not dispatched here:
 * registration reports whether it added the first observer and
 * unregistration whether it removed the last, and the operator vertex that
 * owns this object runs its own activation or deactivation.
 */
module WarmCells {
  import opened Wrappers
  import opened RawLinkedLists
  import opened MutableBags
  import opened Transactions
  import opened CellVertices

  /** `AbstractCachingCellVertex.CacheType`. */
  datatype CacheType = Momentary | Active

  /** Which of the abstract cell vertex kinds the vertex is. */
  datatype Persistence = Caching(cacheType: CacheType) | Stateful | Uncached

  /** `WarmObserverHandle`, or a handle of some other type. */
  datatype ObserverHandle = WarmObserverHandle(internalHandle: Handle<object>) | ForeignHandle

  /**
   * What the vertex retains after `commit` with `ongoing` exposed (`persist`
   * of a caching vertex, `commit(ongoingUpdate)` of a stateful one).
   */
  function Persisted<V>(persistence: Persistence, retained: Option<V>, ongoing: Option<Update<V>>): (r: Option<V>)
    ensures persistence == Caching(Momentary) ==> r.None?
    ensures persistence != Caching(Momentary) && ongoing.None? ==> r == retained
    ensures persistence == Caching(Active) || persistence == Stateful ==>
      (ongoing.Some? ==> r == Some(ongoing.value.updatedValue))
    ensures persistence == Uncached ==> r == retained
  {
    match persistence
    case Caching(Momentary) => None
    case Caching(Active) => if ongoing.Some? then Some(ongoing.value.updatedValue) else retained
    case Stateful => if ongoing.Some? then Some(ongoing.value.updatedValue) else retained
    case Uncached => retained
  }

  /** A second commit with nothing exposed changes nothing more. */
  lemma PersistIdempotent<V>(persistence: Persistence, retained: Option<V>, ongoing: Option<Update<V>>)
    ensures Persisted(persistence, Persisted(persistence, retained, ongoing), None) == Persisted(persistence, retained, ongoing)
  {
  }

  /** A stateful vertex always has a stable value after commit. */
  lemma PersistKeepsStableValue<V>(retained: Option<V>, ongoing: Option<Update<V>>)
    requires retained.Some?
    ensures Persisted(Stateful, retained, ongoing).Some?
  {
  }

  class WarmCellVertex<V> {
    /** `_registeredObservers`: observers are identified by object. */
    const observers: MutableBag<object>
    const persistence: Persistence
    /** `_ongoingUpdate`. */
    var ongoingUpdate: Option<Update<V>>
    /** `_isEnqueuedForCommitment`. */
    var isEnqueuedForCommitment: bool
    /** `_oldValueCache` of a caching vertex, `_stableValue` of a stateful one; nothing for an uncached one. */
    var retained: Option<V>
    ghost var Repr: set<object>

    ghost predicate Valid()
      reads this, Repr
    {
      && observers in Repr
      && Repr == {this} + observers.Repr
      && this !in observers.Repr
      && observers.Valid()
      && (persistence.Stateful? ==> retained.Some?)
      && (persistence.Uncached? ==> retained.None?)
    }

    /** A transaction's context is never part of a vertex's representation. */
    lemma ContextOutside(context: PropagationContext)
      requires Valid()
      ensures context !in Repr
    {
    }

    /** The vertex stays valid while nothing in its representation changes. */
    twostate lemma Framed()
      requires old(Valid()) && unchanged(old(Repr))
      ensures Valid() && Repr == old(Repr)
    {
    }

    /** The observer bag and its list are part of the vertex's representation. */
    lemma BagInRepr()
      requires Valid()
      ensures observers in Repr && observers.list in Repr
    {
    }

    /**
     * The vertex is enqueued in `context` exactly while its flag says so:
     * once when the flag is set, not at all otherwise.
     */
    ghost predicate TrackedBy(context: PropagationContext)
      reads this, context
    {
      multiset(context.verticesToCommit)[this] == if isEnqueuedForCommitment then 1 else 0
    }

    /** An `AbstractCachingCellVertex` with an empty cache. */
    constructor WithCache(cacheType: CacheType)
      ensures Valid() && fresh(Repr)
      ensures persistence == Caching(cacheType) && retained.None?
      ensures ongoingUpdate.None? && !isEnqueuedForCommitment
      ensures observers.Elements() == [] && observers.size == 0 && observers.list.created == {}
    {
      observers := new MutableBag();
      persistence := Caching(cacheType);
      ongoingUpdate := None;
      isEnqueuedForCommitment := false;
      retained := None;
      new;
      Repr := {this} + observers.Repr;
    }

    /** An `AbstractStatefulCellVertex` whose stable value starts as `initialValue`. */
    constructor WithStableValue(initialValue: V)
      ensures Valid() && fresh(Repr)
      ensures persistence == Stateful && retained == Some(initialValue)
      ensures ongoingUpdate.None? && !isEnqueuedForCommitment
      ensures observers.Elements() == [] && observers.size == 0 && observers.list.created == {}
    {
      observers := new MutableBag();
      persistence := Stateful;
      ongoingUpdate := None;
      isEnqueuedForCommitment := false;
      retained := Some(initialValue);
      new;
      Repr := {this} + observers.Repr;
    }

    /** An `AbstractStatelessCellVertex` that computes its old value itself. */
    constructor WithoutCache()
      ensures Valid() && fresh(Repr)
      ensures persistence == Uncached && retained.None?
      ensures ongoingUpdate.None? && !isEnqueuedForCommitment
      ensures observers.Elements() == [] && observers.size == 0 && observers.list.created == {}
    {
      observers := new MutableBag();
      persistence := Uncached;
      ongoingUpdate := None;
      isEnqueuedForCommitment := false;
      retained := None;
      new;
      Repr := {this} + observers.Repr;
    }

    /** `handle` was handed out by this vertex's `registerObserver`. */
    ghost predicate Issued(handle: ObserverHandle)
      reads this, observers, observers.list
    {
      handle.WarmObserverHandle? && observers.Owns(handle.internalHandle)
    }

    /** What `getOldValue` yields when the vertex's own computation yields `computed`. */
    ghost function OldValue(computed: V): V
      reads this
    {
      if retained.Some? then retained.value else computed
    }

    /**
     * What a `getOldValue` now would add to the commit queue: the vertex
     * itself, when it would fill an empty cache and is not enqueued yet.
     */
    ghost function ReadEnqueues(): seq<object>
      reads this`retained, this`isEnqueuedForCommitment
    {
      if retained.None? && !persistence.Uncached? && !isEnqueuedForCommitment then [this] else []
    }

    /** `hasObservers`: the bag's counter is positive, which it is whenever an observer is stored. */
    function HasObservers(): (r: bool)
      requires Valid()
      reads this, Repr
      ensures observers.Count() > 0 ==> r
    {
      observers.size > 0
    }

    /**
     * `registerObserver`: adds the observer to the bag and hands out a handle
     * to it; `first` reports that the bag's counter became 1, which is when
     * `onFirstObserverRegistered` runs.
     */
    method RegisterObserver(observer: object) returns (handle: ObserverHandle, first: bool)
      requires Valid()
      modifies Repr
      ensures Valid() && fresh(Repr - old(Repr))
      ensures handle.WarmObserverHandle? && observers.Holds(handle.internalHandle)
      ensures observers.Elements() == [observer] + old(observers.Elements())
      ensures observers.list.created == old(observers.list.created) + {handle.internalHandle.node}
      ensures observers.size == old(observers.size) + 1
      ensures first <==> observers.size == 1
      ensures ongoingUpdate == old(ongoingUpdate) && retained == old(retained)
      ensures isEnqueuedForCommitment == old(isEnqueuedForCommitment)
    {
      var internalHandle := observers.Add(observer);
      Repr := Repr + {internalHandle.node};
      handle := WarmObserverHandle(internalHandle);
      first := observers.size == 1;
    }

    /**
     * `unregisterObserver`: a handle of a foreign type is refused, so is one
     * whose observer is already gone; otherwise the observer is removed and
     * `last` reports that the counter reached 0, which is when
     * `onLastObserverUnregistered` runs.
     */
    method UnregisterObserver(handle: ObserverHandle) returns (status: Status, last: bool)
      requires Valid()
      requires handle.WarmObserverHandle? ==> observers.Owns(handle.internalHandle)
      modifies Repr
      ensures Valid() && Repr == old(Repr)
      ensures observers.list.created == old(observers.list.created)
      ensures handle.ForeignHandle? ==> status == Failed(InvalidHandle)
      ensures handle.WarmObserverHandle? && !old(observers.Holds(handle.internalHandle)) ==> status == Failed(NodeAlreadyRemoved)
      ensures status.Failed? ==> !last && observers.list.nodes == old(observers.list.nodes) && observers.size == old(observers.size)
      ensures status == Done <==> handle.WarmObserverHandle? && old(observers.Holds(handle.internalHandle))
      ensures status == Done ==>
        && observers.size == old(observers.size) - 1
        && (last <==> observers.size == 0)
        && var i := IndexOf(old(observers.list.nodes), handle.internalHandle.node);
           observers.list.nodes == old(observers.list.nodes)[..i] + old(observers.list.nodes)[i + 1..]
      ensures handle.WarmObserverHandle? ==> !observers.Holds(handle.internalHandle)
      ensures ongoingUpdate == old(ongoingUpdate) && retained == old(retained)
      ensures isEnqueuedForCommitment == old(isEnqueuedForCommitment)
    {
      last := false;
      match handle
      case ForeignHandle =>
        status := Failed(InvalidHandle);
      case WarmObserverHandle(internalHandle) =>
        status := observers.Remove(internalHandle);
        if status == Done {
          last := observers.size == 0;
        }
    }

    /** `ensureEnqueuedForCommitment`: enqueues the vertex unless its flag says it already is. */
    method EnsureEnqueued(context: PropagationContext)
      requires Valid() && context.Valid()
      modifies this, context
      ensures Valid() && Repr == old(Repr) && context.Valid() && isEnqueuedForCommitment
      ensures context.verticesToCommit ==
        old(context.verticesToCommit) + (if old(isEnqueuedForCommitment) then [] else [this])
      ensures context.sideEffects == old(context.sideEffects)
      ensures old(TrackedBy(context)) ==> TrackedBy(context)
      ensures ongoingUpdate == old(ongoingUpdate) && retained == old(retained)
    {
      if !isEnqueuedForCommitment {
        context.EnqueueForCommitment(this);
        isEnqueuedForCommitment := true;
      }
    }

    /** `exposeUpdate`: the update becomes the ongoing one and the vertex is enqueued for commitment. */
    method ExposeUpdate(context: PropagationContext, update: Option<Update<V>>)
      requires Valid() && context.Valid()
      modifies this, context
      ensures Valid() && Repr == old(Repr) && context.Valid()
      ensures ongoingUpdate == update && isEnqueuedForCommitment && retained == old(retained)
      ensures context.verticesToCommit ==
        old(context.verticesToCommit) + (if old(isEnqueuedForCommitment) then [] else [this])
      ensures context.sideEffects == old(context.sideEffects)
      ensures old(TrackedBy(context)) ==> TrackedBy(context)
    {
      ongoingUpdate := update;
      EnsureEnqueued(context);
    }

    /** `clearExposedUpdate`. */
    method ClearExposedUpdate()
      requires Valid()
      modifies this
      ensures Valid() && Repr == old(Repr) && ongoingUpdate.None?
      ensures isEnqueuedForCommitment == old(isEnqueuedForCommitment) && retained == old(retained)
    {
      ongoingUpdate := None;
    }

    /**
     * `propagateUpdate`: every registered observer, in bag order, is handed
     * `update`; those that report themselves unreachable are dropped from
     * the bag. Returns the observers notified.
     */
    method PropagateUpdate(update: Option<Update<V>>, unreachable: object -> bool) returns (notified: seq<object>)
      requires Valid()
      modifies Repr
      ensures Valid() && Repr == old(Repr)
      ensures notified == old(observers.Elements())
      ensures observers.list.nodes == Kept(old(observers.list.nodes), unreachable)
      ensures observers.list.created == old(observers.list.created)
      ensures observers.size == old(observers.size)
      ensures ongoingUpdate == old(ongoingUpdate) && retained == old(retained)
      ensures isEnqueuedForCommitment == old(isEnqueuedForCommitment)
    {
      notified := observers.ForEach(unreachable);
    }

    /** `exposeAndPropagateUpdate`. */
    method ExposeAndPropagateUpdate(context: PropagationContext, update: Option<Update<V>>, unreachable: object -> bool)
      returns (notified: seq<object>)
      requires Valid() && context.Valid()
      modifies Repr, context
      ensures Valid() && context.Valid() && Repr == old(Repr)
      ensures ongoingUpdate == update && isEnqueuedForCommitment && retained == old(retained)
      ensures context.verticesToCommit ==
        old(context.verticesToCommit) + (if old(isEnqueuedForCommitment) then [] else [this])
      ensures context.sideEffects == old(context.sideEffects)
      ensures notified == old(observers.Elements())
      ensures observers.list.nodes == Kept(old(observers.list.nodes), unreachable)
      ensures observers.list.created == old(observers.list.created)
      ensures observers.size == old(observers.size)
    {
      ExposeUpdate(context, update);
      notified := PropagateUpdate(update, unreachable);
    }

    /**
     * `commit`: persists the ongoing update according to the vertex's kind,
     * then clears it and the enqueued flag.
     */
    method Commit()
      requires Valid()
      modifies this
      ensures Valid() && Repr == old(Repr)
      ensures retained == Persisted(persistence, old(retained), old(ongoingUpdate))
      ensures ongoingUpdate.None? && !isEnqueuedForCommitment
    {
      retained := Persisted(persistence, retained, ongoingUpdate);
      ongoingUpdate := None;
      isEnqueuedForCommitment := false;
    }

    /**
     * `getOldValue`. `computed` stands for what the vertex's own
     * computation yields (`computeOldValue` of a caching vertex, the whole
     * `getOldValue` of an uncached one). A stateful vertex returns its
     * stable value; a caching one returns its cache, or else caches
     * `computed` and enqueues itself for commitment (so that the cache can be
     * dropped or renewed).
     */
    method GetOldValue(context: PropagationContext, computed: V) returns (value: V)
      requires Valid() && context.Valid()
      modifies this, context
      ensures Valid() && Repr == old(Repr) && context.Valid()
      ensures value == old(OldValue(computed))
      ensures old(retained).None? && !persistence.Uncached? ==>
        && retained == Some(computed)
        && context.verticesToCommit == old(context.verticesToCommit) + (if old(isEnqueuedForCommitment) then [] else [this])
        && isEnqueuedForCommitment
      ensures old(retained).Some? || persistence.Uncached? ==>
        && retained == old(retained)
        && context.verticesToCommit == old(context.verticesToCommit)
        && isEnqueuedForCommitment == old(isEnqueuedForCommitment)
      ensures context.verticesToCommit == old(context.verticesToCommit) + old(ReadEnqueues())
      ensures ongoingUpdate == old(ongoingUpdate)
      ensures context.sideEffects == old(context.sideEffects)
    {
      match retained
      case Some(cached) =>
        value := cached;
      case None =>
        if !persistence.Uncached? {
          retained := Some(computed);
          EnsureEnqueued(context);
        }
        value := computed;
    }

    /** `getNewValue`: the ongoing update's value, or else the old value. */
    method GetNewValue(context: PropagationContext, computed: V) returns (value: V)
      requires Valid() && context.Valid()
      modifies this, context
      ensures Valid() && Repr == old(Repr) && context.Valid()
      ensures value == NewValue(old(ongoingUpdate), old(OldValue(computed)))
      ensures context.verticesToCommit ==
        old(context.verticesToCommit) + (if old(ongoingUpdate).Some? then [] else old(ReadEnqueues()))
      ensures ongoingUpdate == old(ongoingUpdate)
      ensures context.sideEffects == old(context.sideEffects)
    {
      if ongoingUpdate.Some? {
        value := ongoingUpdate.value.updatedValue;
      } else {
        value := GetOldValue(context, computed);
      }
    }
  }
}

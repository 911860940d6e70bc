/**
 * `MappedWarmCellVertex`: a momentarily caching cell whose value is
 * `transform` of a warm source cell's value. While it has observers it
 * observes the source and maps every update it receives; a revoked source
 * update revokes its own.
 */
module MappedWarmCells {
  import opened Wrappers
  import opened Transactions
  import opened CellVertices
  import opened WarmCells

  class MappedWarmCellVertex<V, W> {
    /** The inherited warm-cell state. */
    const vertex: WarmCellVertex<W>
    const source: WarmCellVertex<V>
    const transform: V -> W
    /** `upstreamObserverHandle`: set exactly while the vertex is active. */
    var upstreamObserverHandle: Option<ObserverHandle>

    ghost predicate Valid()
      reads this, vertex, source, vertex.Repr, source.Repr
    {
      && this !in vertex.Repr && this !in source.Repr
      && vertex.Repr !! source.Repr
      && vertex.Valid() && source.Valid()
      && vertex.persistence == Caching(Momentary)
      && (upstreamObserverHandle.Some? ==> source.Issued(upstreamObserverHandle.value))
    }

    constructor (source: WarmCellVertex<V>, transform: V -> W)
      requires source.Valid()
      ensures Valid() && this.source == source && this.transform == transform
      ensures fresh(vertex.Repr) && upstreamObserverHandle.None?
      ensures vertex.ongoingUpdate.None? && vertex.retained.None? && vertex.observers.Elements() == []
    {
      vertex := new WarmCellVertex.WithCache(Momentary);
      this.source := source;
      this.transform := transform;
      upstreamObserverHandle := None;
      new;
    }

    /** `handleUpdate`: a source update is mapped, a revocation is passed on; either is exposed and propagated. */
    method HandleUpdate(context: PropagationContext, update: Option<Update<V>>, unreachable: object -> bool)
      returns (notified: seq<object>)
      requires Valid() && context.Valid()
      modifies vertex.Repr, context
      ensures Valid() && context.Valid() && vertex.Repr == old(vertex.Repr)
      ensures vertex.ongoingUpdate == MapOngoing(update, transform)
      ensures vertex.ongoingUpdate.None? <==> update.None?
      ensures notified == old(vertex.observers.Elements())
      ensures context.verticesToCommit ==
        old(context.verticesToCommit) + (if old(vertex.isEnqueuedForCommitment) then [] else [vertex])
      ensures context.sideEffects == old(context.sideEffects)
    {
      notified := vertex.ExposeAndPropagateUpdate(context, MapOngoing(update, transform), unreachable);
    }

    /**
     * `activate`: refused while already active; otherwise observes the
     * source and yields the source's ongoing update, mapped.
     */
    method Activate() returns (r: Result<Option<Update<W>>>)
      requires Valid()
      modifies this, source.Repr
      ensures Valid() && fresh(source.Repr - old(source.Repr))
      ensures old(upstreamObserverHandle).Some? ==>
        r == Failure(AlreadyActive) && upstreamObserverHandle == old(upstreamObserverHandle)
        && source.observers.list.nodes == old(source.observers.list.nodes)
      ensures old(upstreamObserverHandle).None? ==>
        && r == Success(MapOngoing(source.ongoingUpdate, transform))
        && upstreamObserverHandle.Some?
        && source.observers.Holds(upstreamObserverHandle.value.internalHandle)
        && source.observers.Elements() == [this] + old(source.observers.Elements())
      ensures source.ongoingUpdate == old(source.ongoingUpdate)
      ensures source.observers.list.created >= old(source.observers.list.created)
    {
      if upstreamObserverHandle.Some? {
        return Failure(AlreadyActive);
      }
      var handle, sourceFirst := source.RegisterObserver(this);
      upstreamObserverHandle := Some(handle);
      r := Success(MapOngoing(source.ongoingUpdate, transform));
    }

    /**
     * `deactivate`: refused while inactive; otherwise stops observing the
     * source and forgets the handle (unless the source refuses it).
     */
    method Deactivate() returns (status: Status)
      requires Valid()
      modifies this, source.Repr
      ensures Valid() && source.Repr == old(source.Repr)
      ensures old(upstreamObserverHandle).None? ==> status == Failed(NotActive)
      ensures status == Done ==> upstreamObserverHandle.None?
      ensures old(upstreamObserverHandle).Some? && old(source.observers.Holds(upstreamObserverHandle.value.internalHandle)) ==>
        status == Done && !source.observers.Holds(old(upstreamObserverHandle).value.internalHandle)
      ensures status.Failed? ==> upstreamObserverHandle == old(upstreamObserverHandle)
      ensures source.ongoingUpdate == old(source.ongoingUpdate)
      ensures source.observers.list.created == old(source.observers.list.created)
    {
      match upstreamObserverHandle
      case None =>
        status := Failed(NotActive);
      case Some(handle) =>
        var sourceLast;
        status, sourceLast := source.UnregisterObserver(handle);
        if status == Done {
          upstreamObserverHandle := None;
        }
    }

    /**
     * `onFirstObserverRegistered` of a stateless vertex: activates, and
     * exposes (without propagating) the activation update.
     */
    method OnFirstObserverRegistered(context: PropagationContext) returns (status: Status)
      requires Valid() && context.Valid()
      modifies this, vertex, source.Repr, context
      ensures Valid() && context.Valid() && fresh(source.Repr - old(source.Repr))
      ensures old(upstreamObserverHandle).Some? ==>
        status == Failed(AlreadyActive) && vertex.ongoingUpdate == old(vertex.ongoingUpdate)
      ensures old(upstreamObserverHandle).None? ==>
        && status == Done
        && upstreamObserverHandle.Some?
        && vertex.ongoingUpdate == MapOngoing(old(source.ongoingUpdate), transform)
        && vertex.isEnqueuedForCommitment
        && context.verticesToCommit ==
             old(context.verticesToCommit) + (if old(vertex.isEnqueuedForCommitment) then [] else [vertex])
      ensures old(upstreamObserverHandle).Some? ==> context.verticesToCommit == old(context.verticesToCommit)
      ensures context.sideEffects == old(context.sideEffects)
    {
      var activation := Activate();
      if activation.Failure? {
        return Failed(activation.fault);
      }
      vertex.ExposeUpdate(context, activation.value);
      status := Done;
    }

    /** `registerObserver`, running the first-observer hook when the bag's counter becomes 1. */
    method RegisterObserver(context: PropagationContext, observer: object) returns (r: Result<ObserverHandle>)
      requires Valid() && context.Valid()
      modifies this, vertex.Repr, source.Repr, context
      ensures Valid() && context.Valid()
      ensures fresh(vertex.Repr - old(vertex.Repr)) && fresh(source.Repr - old(source.Repr))
      ensures vertex.observers.Elements() == [observer] + old(vertex.observers.Elements())
      ensures r.Success? ==> r.value.WarmObserverHandle? && vertex.observers.Holds(r.value.internalHandle)
      ensures old(vertex.observers.size) != 0 ==>
        && r.Success? && vertex.ongoingUpdate == old(vertex.ongoingUpdate) && upstreamObserverHandle == old(upstreamObserverHandle)
        && context.verticesToCommit == old(context.verticesToCommit)
      ensures old(vertex.observers.size) == 0 && old(upstreamObserverHandle).None? ==>
        && r.Success?
        && upstreamObserverHandle.Some?
        && vertex.ongoingUpdate == MapOngoing(old(source.ongoingUpdate), transform)
        && context.verticesToCommit ==
             old(context.verticesToCommit) + (if old(vertex.isEnqueuedForCommitment) then [] else [vertex])
      ensures old(vertex.observers.size) == 0 && old(upstreamObserverHandle).Some? ==>
        r == Failure(AlreadyActive) && context.verticesToCommit == old(context.verticesToCommit)
      ensures context.sideEffects == old(context.sideEffects)
    {
      var handle, first := vertex.RegisterObserver(observer);
      r := Success(handle);
      if first {
        var status := OnFirstObserverRegistered(context);
        if status.Failed? {
          r := Failure(status.fault);
        }
      }
    }

    /**
     * `unregisterObserver` with the stateless hook: on the last observer the
     * vertex deactivates and clears its exposed update.
     */
    method UnregisterObserver(handle: ObserverHandle) returns (status: Status)
      requires Valid() && (handle.WarmObserverHandle? ==> vertex.Issued(handle))
      modifies this, vertex.Repr, source.Repr
      ensures Valid() && vertex.Repr == old(vertex.Repr) && source.Repr == old(source.Repr)
      ensures handle.ForeignHandle? ==> status == Failed(InvalidHandle)
      ensures handle.WarmObserverHandle? ==> !vertex.observers.Holds(handle.internalHandle)
      ensures status == Done && vertex.observers.size == 0 ==>
        upstreamObserverHandle.None? && vertex.ongoingUpdate.None?
      ensures vertex.observers.size != 0 ==>
        vertex.ongoingUpdate == old(vertex.ongoingUpdate) && upstreamObserverHandle == old(upstreamObserverHandle)
    {
      var last: bool;
      status, last := vertex.UnregisterObserver(handle);
      if status.Failed? || !last {
        return;
      }
      status := Deactivate();
      if status.Failed? {
        return;
      }
      vertex.ClearExposedUpdate();
    }

    /**
     * `getOldValue`: the cached value; on a cache miss, `transform` of the
     * source's old value (`sourceComputed` standing for the source's own
     * computation), then cached; a cache fill enqueues the vertex for
     * commitment, after the source's own read has enqueued the source if it
     * filled its cache.
     */
    method GetOldValue(context: PropagationContext, sourceComputed: V) returns (value: W)
      requires Valid() && context.Valid()
      modifies vertex, source, context
      ensures Valid() && context.Valid()
      ensures old(vertex.retained).Some? ==>
        value == old(vertex.retained).value && source.retained == old(source.retained)
      ensures old(vertex.retained).None? ==>
        value == transform(old(source.OldValue(sourceComputed)))
      ensures vertex.retained == Some(value)
      ensures old(vertex.retained).Some? ==> context.verticesToCommit == old(context.verticesToCommit)
      ensures old(vertex.retained).None? ==>
        && vertex.isEnqueuedForCommitment
        && context.verticesToCommit == old(context.verticesToCommit)
             + old(source.ReadEnqueues())
             + (if old(vertex.isEnqueuedForCommitment) then [] else [vertex])
      ensures context.sideEffects == old(context.sideEffects)
    {
      if vertex.retained.Some? {
        value := vertex.retained.value;
      } else {
        var sourceValue := source.GetOldValue(context, sourceComputed);
        value := vertex.GetOldValue(context, transform(sourceValue));
      }
    }
  }
}

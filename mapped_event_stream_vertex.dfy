/**
 * `MappedEventStreamVertex`: a stateless stream emitting `transform` of
 * every event of a live source stream. While it has subscribers it
 * subscribes to the source; a revoked source emission revokes its own.
 */
module MappedStreams {
  import opened Wrappers
  import opened Transactions
  import opened LiveStreams

  class MappedEventStreamVertex<E, F> {
    /** The inherited live-stream state. */
    const vertex: LiveEventStreamVertex<F>
    const source: LiveEventStreamVertex<E>
    const transform: E -> F
    /** `upstreamSubscriberHandle`: set exactly while the vertex is active. */
    var upstreamSubscriberHandle: Option<SubscriberHandle>

    ghost predicate Valid()
      reads this, vertex, source, vertex.Repr, source.Repr
    {
      && this !in vertex.Repr && this !in source.Repr
      && vertex.Repr !! source.Repr
      && vertex.Valid() && source.Valid()
      && (upstreamSubscriberHandle.Some? ==> source.Issued(upstreamSubscriberHandle.value))
    }

    constructor (source: LiveEventStreamVertex<E>, transform: E -> F)
      requires source.Valid()
      ensures Valid() && this.source == source && this.transform == transform
      ensures fresh(vertex.Repr) && upstreamSubscriberHandle.None?
      ensures vertex.ongoingEmission.None? && vertex.subscribers.Elements() == [] && vertex.subscribers.size == 0
    {
      vertex := new LiveEventStreamVertex();
      this.source := source;
      this.transform := transform;
      upstreamSubscriberHandle := None;
    }

    /** `handleEmission`: an emission is mapped, a revocation passed on; either is exposed and propagated. */
    method HandleEmission(context: PropagationContext, emission: Option<Emission<E>>, unreachable: object -> bool)
      returns (notified: seq<object>)
      requires Valid() && context.Valid()
      modifies vertex.Repr, context
      ensures Valid() && context.Valid() && vertex.Repr == old(vertex.Repr)
      ensures vertex.ongoingEmission == MapEmission(emission, transform)
      ensures notified == old(vertex.subscribers.Elements())
      ensures context.verticesToCommit ==
        old(context.verticesToCommit) + (if old(vertex.isEnqueuedForCommitment) then [] else [vertex])
      ensures context.sideEffects == old(context.sideEffects)
    {
      source.ContextOutside(context);
      notified := vertex.ExposeAndPropagateEmission(context, MapEmission(emission, transform), unreachable);
    }

    /**
     * `activate`: refused while already active; otherwise subscribes to the
     * source and yields the source's ongoing emission, mapped.
     */
    method Activate() returns (r: Result<Option<Emission<F>>>)
      requires Valid()
      modifies this, source.Repr
      ensures Valid() && fresh(source.Repr - old(source.Repr))
      ensures old(upstreamSubscriberHandle).Some? ==>
        r == Failure(AlreadyActive) && upstreamSubscriberHandle == old(upstreamSubscriberHandle)
        && source.subscribers.list.nodes == old(source.subscribers.list.nodes)
      ensures old(upstreamSubscriberHandle).None? ==>
        && r == Success(MapEmission(source.ongoingEmission, transform))
        && upstreamSubscriberHandle.Some?
        && source.subscribers.Holds(upstreamSubscriberHandle.value.internalHandle)
        && source.subscribers.Elements() == [this] + old(source.subscribers.Elements())
      ensures source.ongoingEmission == old(source.ongoingEmission)
    {
      if upstreamSubscriberHandle.Some? {
        return Failure(AlreadyActive);
      }
      var handle, sourceFirst := source.RegisterSubscriber(this);
      upstreamSubscriberHandle := Some(handle);
      r := Success(MapEmission(source.ongoingEmission, transform));
    }

    /**
     * `deactivate`: refused while inactive; otherwise unsubscribes from the
     * source and forgets the handle (unless the source refuses it).
     */
    method Deactivate() returns (status: Status)
      requires Valid()
      modifies this, source.Repr
      ensures Valid() && source.Repr == old(source.Repr)
      ensures old(upstreamSubscriberHandle).None? ==> status == Failed(NotActive)
      ensures status == Done ==> upstreamSubscriberHandle.None?
      ensures old(upstreamSubscriberHandle).Some? && old(source.subscribers.Holds(upstreamSubscriberHandle.value.internalHandle)) ==>
        status == Done && !source.subscribers.Holds(old(upstreamSubscriberHandle).value.internalHandle)
      ensures status.Failed? ==> upstreamSubscriberHandle == old(upstreamSubscriberHandle)
      ensures source.ongoingEmission == old(source.ongoingEmission)
    {
      match upstreamSubscriberHandle
      case None =>
        status := Failed(NotActive);
      case Some(handle) =>
        var sourceLast;
        status, sourceLast := source.UnregisterSubscriber(handle);
        if status == Done {
          upstreamSubscriberHandle := None;
        }
    }

    /** `onFirstSubscriberRegistered` of a stateless stream: activates, and exposes the activation emission. */
    method OnFirstSubscriberRegistered(context: PropagationContext) returns (status: Status)
      requires Valid() && context.Valid()
      modifies this, vertex, source.Repr, context
      ensures Valid() && context.Valid() && fresh(source.Repr - old(source.Repr))
      ensures old(upstreamSubscriberHandle).Some? ==>
        && status == Failed(AlreadyActive) && vertex.ongoingEmission == old(vertex.ongoingEmission)
        && context.verticesToCommit == old(context.verticesToCommit)
      ensures old(upstreamSubscriberHandle).None? ==>
        && status == Done
        && upstreamSubscriberHandle.Some?
        && vertex.ongoingEmission == MapEmission(old(source.ongoingEmission), transform)
        && vertex.isEnqueuedForCommitment
        && context.verticesToCommit == old(context.verticesToCommit) + (if old(vertex.isEnqueuedForCommitment) then [] else [vertex])
      ensures context.sideEffects == old(context.sideEffects)
    {
      vertex.ContextOutside(context);
      source.ContextOutside(context);
      var activation := Activate();
      if activation.Failure? {
        return Failed(activation.fault);
      }
      source.ContextOutside(context);
      vertex.ExposeEmission(context, activation.value);
      status := Done;
    }

    /** `onLastSubscriberUnregistered` of a stateless stream: deactivates, then clears the exposed emission. */
    method OnLastSubscriberUnregistered() returns (status: Status)
      requires Valid()
      modifies this, vertex, source.Repr
      ensures Valid() && source.Repr == old(source.Repr)
      ensures old(upstreamSubscriberHandle).None? ==> status == Failed(NotActive)
      ensures status == Done ==> vertex.ongoingEmission.None? && upstreamSubscriberHandle.None?
      ensures status.Failed? ==> vertex.ongoingEmission == old(vertex.ongoingEmission)
    {
      status := Deactivate();
      if status == Done {
        vertex.ClearExposedEmission();
      }
    }

    /** `registerSubscriber`, running the first-subscriber hook when the counter becomes 1. */
    method RegisterSubscriber(context: PropagationContext, subscriber: object) returns (r: Result<SubscriberHandle>)
      requires Valid() && context.Valid()
      modifies this, vertex.Repr, source.Repr, context
      ensures Valid() && context.Valid()
      ensures fresh(vertex.Repr - old(vertex.Repr)) && fresh(source.Repr - old(source.Repr))
      ensures vertex.subscribers.Elements() == [subscriber] + old(vertex.subscribers.Elements())
      ensures r.Success? ==> r.value.LiveSubscriberHandle? && vertex.subscribers.Holds(r.value.internalHandle)
      ensures old(vertex.subscribers.size) != 0 ==>
        && r.Success? && vertex.ongoingEmission == old(vertex.ongoingEmission) && upstreamSubscriberHandle == old(upstreamSubscriberHandle)
        && context.verticesToCommit == old(context.verticesToCommit)
      ensures old(vertex.subscribers.size) == 0 && old(upstreamSubscriberHandle).None? ==>
        && r.Success?
        && upstreamSubscriberHandle.Some?
        && vertex.ongoingEmission == MapEmission(old(source.ongoingEmission), transform)
        && vertex.isEnqueuedForCommitment
        && context.verticesToCommit == old(context.verticesToCommit) + (if old(vertex.isEnqueuedForCommitment) then [] else [vertex])
      ensures old(vertex.subscribers.size) == 0 && old(upstreamSubscriberHandle).Some? ==>
        r == Failure(AlreadyActive) && context.verticesToCommit == old(context.verticesToCommit)
      ensures context.sideEffects == old(context.sideEffects)
    {
      var handle, first := vertex.RegisterSubscriber(subscriber);
      r := Success(handle);
      if first {
        var status := OnFirstSubscriberRegistered(context);
        if status.Failed? {
          r := Failure(status.fault);
        }
      }
    }

    /** `unregisterSubscriber`, running the last-subscriber hook when the counter reaches 0. */
    method UnregisterSubscriber(handle: SubscriberHandle) returns (status: Status)
      requires Valid() && (handle.LiveSubscriberHandle? ==> vertex.Issued(handle))
      modifies this, vertex.Repr, source.Repr
      ensures Valid() && vertex.Repr == old(vertex.Repr) && source.Repr == old(source.Repr)
      ensures handle.ForeignHandle? ==> status == Failed(InvalidHandle)
      ensures handle.LiveSubscriberHandle? ==> !vertex.subscribers.Holds(handle.internalHandle)
      ensures status == Done && vertex.subscribers.size == 0 ==>
        upstreamSubscriberHandle.None? && vertex.ongoingEmission.None?
      ensures vertex.subscribers.size != 0 ==>
        vertex.ongoingEmission == old(vertex.ongoingEmission) && upstreamSubscriberHandle == old(upstreamSubscriberHandle)
    {
      var last: bool;
      status, last := vertex.UnregisterSubscriber(handle);
      if status.Failed? || !last {
        return;
      }
      status := OnLastSubscriberUnregistered();
    }
  }
}

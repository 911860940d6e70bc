/**
 * `FilteredEventStreamVertex`: a stateless stream passing on the events of
 * a live source stream that its predicate (`accepts`) admits. A rejected event revokes
 * what the vertex exposed earlier in the transaction, if anything.
 */
module FilteredStreams {
  import opened Wrappers
  import opened Transactions
  import opened LiveStreams

  /** `takeIf(predicate)`: the emission if the predicate admits its event, otherwise none. */
  function Accepted<E>(emission: Option<Emission<E>>, accepts: E -> bool): (r: Option<Emission<E>>)
    ensures r.Some? <==> emission.Some? && accepts(emission.value.emittedEvent)
    ensures r.Some? ==> r == emission
  {
    if emission.Some? && accepts(emission.value.emittedEvent) then emission else None
  }

  /** Filtering twice by the same predicate is filtering once. */
  lemma AcceptedIdempotent<E>(emission: Option<Emission<E>>, accepts: E -> bool)
    ensures Accepted(Accepted(emission, accepts), accepts) == Accepted(emission, accepts)
  {
  }

  class FilteredEventStreamVertex<E> {
    /** The inherited live-stream state. */
    const vertex: LiveEventStreamVertex<E>
    const source: LiveEventStreamVertex<E>
    const accepts: E -> bool
    /** `upstreamSubscriberHandle`: set exactly while the vertex is active. */
    var upstreamSubscriberHandle: Option<SubscriberHandle>

    ghost predicate Valid()
      reads this, vertex, source, vertex.Repr, source.Repr
    {
      && this !in vertex.Repr && this !in source.Repr
      && vertex.Repr !! source.Repr
      && vertex.Valid() && source.Valid()
      && (upstreamSubscriberHandle.Some? ==> source.Issued(upstreamSubscriberHandle.value))
    }

    constructor (source: LiveEventStreamVertex<E>, accepts: E -> bool)
      requires source.Valid()
      ensures Valid() && this.source == source && this.accepts == accepts
      ensures fresh(vertex.Repr) && upstreamSubscriberHandle.None?
      ensures vertex.ongoingEmission.None? && vertex.subscribers.Elements() == [] && vertex.subscribers.size == 0
    {
      vertex := new LiveEventStreamVertex();
      this.source := source;
      this.accepts := accepts;
      upstreamSubscriberHandle := None;
    }

    /**
     * `handleEmission`: whatever the source sends, the exposed emission
     * becomes the accepted part of it. A revocation or an accepted event
     * (possibly a correction) is exposed and propagated; a rejected event
     * revokes only if an emission is exposed, and otherwise nothing happens
     * and no subscriber is notified.
     */
    method HandleEmission(context: PropagationContext, emission: Option<Emission<E>>, unreachable: object -> bool)
      returns (notified: seq<object>)
      requires Valid() && context.Valid()
      modifies vertex.Repr, context
      ensures Valid() && context.Valid() && vertex.Repr == old(vertex.Repr)
      ensures vertex.ongoingEmission == Accepted(emission, accepts)
      ensures context.sideEffects == old(context.sideEffects)
      ensures emission.Some? && !accepts(emission.value.emittedEvent) && old(vertex.ongoingEmission).None? ==>
        notified == [] && context.verticesToCommit == old(context.verticesToCommit)
        && vertex.subscribers.list.nodes == old(vertex.subscribers.list.nodes)
      ensures emission.None? || accepts(emission.value.emittedEvent) || old(vertex.ongoingEmission).Some? ==>
        && notified == old(vertex.subscribers.Elements())
        && context.verticesToCommit ==
             old(context.verticesToCommit) + (if old(vertex.isEnqueuedForCommitment) then [] else [vertex])
    {
      source.ContextOutside(context);
      match emission
      case None =>
        notified := vertex.ExposeAndPropagateEmission(context, None, unreachable);
      case Some(e) =>
        if accepts(e.emittedEvent) {
          notified := vertex.ExposeAndPropagateEmission(context, emission, unreachable);
        } else if vertex.ongoingEmission.Some? {
          notified := vertex.ExposeAndPropagateEmission(context, None, unreachable);
        } else {
          notified := [];
        }
    }

    /**
     * `activate`: refused while already active; otherwise subscribes to the
     * source and yields the source's ongoing emission if it is accepted.
     */
    method Activate() returns (r: Result<Option<Emission<E>>>)
      requires Valid()
      modifies this, source.Repr
      ensures Valid() && fresh(source.Repr - old(source.Repr))
      ensures old(upstreamSubscriberHandle).Some? ==>
        r == Failure(AlreadyActive) && upstreamSubscriberHandle == old(upstreamSubscriberHandle)
        && source.subscribers.list.nodes == old(source.subscribers.list.nodes)
      ensures old(upstreamSubscriberHandle).None? ==>
        && r == Success(Accepted(source.ongoingEmission, accepts))
        && upstreamSubscriberHandle.Some?
        && source.subscribers.Holds(upstreamSubscriberHandle.value.internalHandle)
        && source.subscribers.Elements() == [this] + old(source.subscribers.Elements())
      ensures source.ongoingEmission == old(source.ongoingEmission)
    {
      if upstreamSubscriberHandle.Some? {
        return Failure(AlreadyActive);
      }
      var handle, sourceFirst := source.RegisterSubscriber(this);
      upstreamSubscriberHandle := Some(handle);
      r := Success(Accepted(source.ongoingEmission, accepts));
    }

    /**
     * `deactivate`: refused while inactive; otherwise unsubscribes from the
     * source and forgets the handle (unless the source refuses it).
     */
    method Deactivate() returns (status: Status)
      requires Valid()
      modifies this, source.Repr
      ensures Valid() && source.Repr == old(source.Repr)
      ensures old(upstreamSubscriberHandle).None? ==> status == Failed(NotActive)
      ensures status == Done ==> upstreamSubscriberHandle.None?
      ensures old(upstreamSubscriberHandle).Some? && old(source.subscribers.Holds(upstreamSubscriberHandle.value.internalHandle)) ==>
        status == Done && !source.subscribers.Holds(old(upstreamSubscriberHandle).value.internalHandle)
      ensures status.Failed? ==> upstreamSubscriberHandle == old(upstreamSubscriberHandle)
      ensures source.ongoingEmission == old(source.ongoingEmission)
    {
      match upstreamSubscriberHandle
      case None =>
        status := Failed(NotActive);
      case Some(handle) =>
        var sourceLast;
        status, sourceLast := source.UnregisterSubscriber(handle);
        if status == Done {
          upstreamSubscriberHandle := None;
        }
    }

    /** `onFirstSubscriberRegistered` of a stateless stream: activates, and exposes the activation emission. */
    method OnFirstSubscriberRegistered(context: PropagationContext) returns (status: Status)
      requires Valid() && context.Valid()
      modifies this, vertex, source.Repr, context
      ensures Valid() && context.Valid() && fresh(source.Repr - old(source.Repr))
      ensures old(upstreamSubscriberHandle).Some? ==>
        && status == Failed(AlreadyActive) && vertex.ongoingEmission == old(vertex.ongoingEmission)
        && context.verticesToCommit == old(context.verticesToCommit)
      ensures old(upstreamSubscriberHandle).None? ==>
        && status == Done
        && upstreamSubscriberHandle.Some?
        && vertex.ongoingEmission == Accepted(old(source.ongoingEmission), accepts)
        && vertex.isEnqueuedForCommitment
        && context.verticesToCommit == old(context.verticesToCommit) + (if old(vertex.isEnqueuedForCommitment) then [] else [vertex])
      ensures context.sideEffects == old(context.sideEffects)
    {
      vertex.ContextOutside(context);
      source.ContextOutside(context);
      var activation := Activate();
      if activation.Failure? {
        return Failed(activation.fault);
      }
      source.ContextOutside(context);
      vertex.ExposeEmission(context, activation.value);
      status := Done;
    }

    /** `onLastSubscriberUnregistered` of a stateless stream: deactivates, then clears the exposed emission. */
    method OnLastSubscriberUnregistered() returns (status: Status)
      requires Valid()
      modifies this, vertex, source.Repr
      ensures Valid() && source.Repr == old(source.Repr)
      ensures old(upstreamSubscriberHandle).None? ==> status == Failed(NotActive)
      ensures status == Done ==> vertex.ongoingEmission.None? && upstreamSubscriberHandle.None?
      ensures status.Failed? ==> vertex.ongoingEmission == old(vertex.ongoingEmission)
    {
      status := Deactivate();
      if status == Done {
        vertex.ClearExposedEmission();
      }
    }
  }
}

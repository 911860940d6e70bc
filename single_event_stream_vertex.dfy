/**
 * `SingleEventStreamVertex`: a stream passing on the events of a live
 * source stream until the first transaction in which it emits; committing
 * that emission (`transit`) cancels its subscription to the source.
 */
module SingleStreams {
  import opened Wrappers
  import opened Transactions
  import opened LiveStreams

  class SingleEventStreamVertex<E> {
    /** The inherited live-stream state. */
    const vertex: LiveEventStreamVertex<E>
    const source: LiveEventStreamVertex<E>
    /** `upstreamLooseSubscription`: held until the single emission has been committed. */
    var upstreamLooseSubscription: Option<SubscriberHandle>

    ghost predicate Valid()
      reads this, vertex, source, vertex.Repr, source.Repr
    {
      && this !in vertex.Repr && this !in source.Repr
      && vertex.Repr !! source.Repr
      && vertex.Valid() && source.Valid()
      && (upstreamLooseSubscription.Some? ==> source.Issued(upstreamLooseSubscription.value))
    }

    /**
     * The constructor: subscribes to the source, then exposes the source's
     * ongoing emission, if there is one.
     */
    constructor (context: PropagationContext, source: LiveEventStreamVertex<E>)
      requires source.Valid() && context.Valid()
      modifies source.Repr, context
      ensures Valid() && context.Valid() && this.source == source
      ensures fresh(vertex.Repr) && fresh(source.Repr - old(source.Repr))
      ensures upstreamLooseSubscription.Some? && source.subscribers.Holds(upstreamLooseSubscription.value.internalHandle)
      ensures source.subscribers.Elements() == [this] + old(source.subscribers.Elements())
      ensures vertex.ongoingEmission == old(source.ongoingEmission)
      ensures vertex.subscribers.Elements() == []
      ensures vertex.isEnqueuedForCommitment <==> old(source.ongoingEmission).Some?
      ensures context.verticesToCommit == old(context.verticesToCommit) + (if old(source.ongoingEmission).Some? then [vertex] else [])
      ensures context.sideEffects == old(context.sideEffects)
    {
      vertex := new LiveEventStreamVertex();
      this.source := source;
      upstreamLooseSubscription := None;
      new;
      source.ContextOutside(context);
      Subscribe();
      ExposeInitialEmission(context);
    }

    /** The subscription taken at construction. */
    method Subscribe()
      requires Valid() && upstreamLooseSubscription.None?
      modifies this, source.Repr
      ensures Valid() && fresh(source.Repr - old(source.Repr))
      ensures upstreamLooseSubscription.Some? && source.subscribers.Holds(upstreamLooseSubscription.value.internalHandle)
      ensures source.subscribers.Elements() == [this] + old(source.subscribers.Elements())
      ensures source.ongoingEmission == old(source.ongoingEmission)
      ensures unchanged(vertex)
    {
      var handle, first := source.RegisterSubscriber(this);
      upstreamLooseSubscription := Some(handle);
    }

    /** The `init` exposure of the source's ongoing emission; nothing happens without one. */
    method ExposeInitialEmission(context: PropagationContext)
      requires Valid() && context.Valid() && vertex.ongoingEmission.None?
      modifies vertex, context
      ensures Valid() && context.Valid() && context.sideEffects == old(context.sideEffects)
      ensures vertex.ongoingEmission == source.ongoingEmission
      ensures unchanged(source.Repr) && unchanged(vertex.subscribers, vertex.subscribers.list)
      ensures source.ongoingEmission.None? ==>
        vertex.isEnqueuedForCommitment == old(vertex.isEnqueuedForCommitment) && context.verticesToCommit == old(context.verticesToCommit)
      ensures source.ongoingEmission.Some? ==>
        vertex.isEnqueuedForCommitment && context.verticesToCommit == old(context.verticesToCommit) + (if old(vertex.isEnqueuedForCommitment) then [] else [vertex])
    {
      if source.ongoingEmission.Some? {
        source.ContextOutside(context);
        vertex.ExposeEmission(context, source.ongoingEmission);
      }
    }

    /** `handleEmission`: emissions and revocations are passed on unchanged. */
    method HandleEmission(context: PropagationContext, emission: Option<Emission<E>>, unreachable: object -> bool)
      returns (notified: seq<object>)
      requires Valid() && context.Valid()
      modifies vertex.Repr, context
      ensures Valid() && context.Valid() && vertex.Repr == old(vertex.Repr)
      ensures vertex.ongoingEmission == emission
      ensures upstreamLooseSubscription == old(upstreamLooseSubscription)
      ensures notified == old(vertex.subscribers.Elements())
      ensures context.verticesToCommit ==
        old(context.verticesToCommit) + (if old(vertex.isEnqueuedForCommitment) then [] else [vertex])
      ensures context.sideEffects == old(context.sideEffects)
    {
      source.ContextOutside(context);
      notified := vertex.ExposeAndPropagateEmission(context, emission, unreachable);
    }

    /**
     * `transit`: refused once the single emission has had place; otherwise
     * cancels the subscription to the source and forgets it.
     */
    method Transit() returns (status: Status)
      requires Valid()
      modifies this, source.Repr
      ensures Valid() && source.Repr == old(source.Repr)
      ensures old(upstreamLooseSubscription).None? ==> status == Failed(AlreadyTransited)
      ensures old(upstreamLooseSubscription).Some? && old(source.subscribers.Holds(upstreamLooseSubscription.value.internalHandle)) ==>
        && status == Done
        && !source.subscribers.Holds(old(upstreamLooseSubscription).value.internalHandle)
      ensures status == Done ==> upstreamLooseSubscription.None?
      ensures status.Failed? ==> upstreamLooseSubscription == old(upstreamLooseSubscription)
    {
      match upstreamLooseSubscription
      case None =>
        status := Failed(AlreadyTransited);
      case Some(subscription) =>
        var sourceLast;
        status, sourceLast := source.UnregisterSubscriber(subscription);
        if status == Done {
          upstreamLooseSubscription := None;
        }
    }

    /**
     * `commit` of the live stream with this `transit`: a transaction in
     * which the vertex emitted ends its subscription; one in which its
     * emission was revoked (or that it had none) keeps it. A refused
     * `transit` stops the commit before the emission is cleared.
     */
    method Commit() returns (status: Status)
      requires Valid()
      modifies this, vertex, source.Repr
      ensures Valid() && source.Repr == old(source.Repr)
      ensures status == Done ==> vertex.ongoingEmission.None? && !vertex.isEnqueuedForCommitment
      ensures status.Failed? ==>
        && vertex.ongoingEmission == old(vertex.ongoingEmission)
        && vertex.isEnqueuedForCommitment == old(vertex.isEnqueuedForCommitment)
        && upstreamLooseSubscription == old(upstreamLooseSubscription)
      ensures old(vertex.ongoingEmission).None? ==>
        status == Done && upstreamLooseSubscription == old(upstreamLooseSubscription)
      ensures old(vertex.ongoingEmission).Some? && old(upstreamLooseSubscription).None? ==>
        status == Failed(AlreadyTransited)
      ensures (&& old(vertex.ongoingEmission).Some? && old(upstreamLooseSubscription).Some?
               && old(source.subscribers.Holds(upstreamLooseSubscription.value.internalHandle))) ==>
        status == Done && upstreamLooseSubscription.None?
    {
      status := Done;
      if vertex.ongoingEmission.Some? {
        status := Transit();
        if status.Failed? {
          return;
        }
      }
      var transit := vertex.Commit();
    }
  }
}

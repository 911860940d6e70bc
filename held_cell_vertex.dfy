/**
 * `HeldCellVertex`: a stateful cell whose stable value is the last event
 * emitted by a live source stream, starting from `initialValue`. It
 * subscribes to the source in a wrap-up callback after construction.
 */
module HeldCells {
  import opened Wrappers
  import opened Transactions
  import opened CellVertices
  import opened WarmCells
  import opened LiveStreams

  /** An emission as an update carrying the emitted event; no emission (a revocation) is no update. */
  function UpdateOfEmission<E>(emission: Option<Emission<E>>): (r: Option<Update<E>>)
    ensures r.None? <==> emission.None?
    ensures emission.Some? ==> r.value.updatedValue == emission.value.emittedEvent
  {
    match emission
    case None => None
    case Some(e) => Some(Update(e.emittedEvent))
  }

  /**
   * Committing the held cell after an emission makes the emitted event its
   * stable value; after a revocation the stable value is kept.
   */
  lemma CommitStoresEmission<E>(stable: E, emission: Option<Emission<E>>)
    ensures emission.Some? ==> Persisted(Stateful, Some(stable), UpdateOfEmission(emission)) == Some(emission.value.emittedEvent)
    ensures emission.None? ==> Persisted(Stateful, Some(stable), UpdateOfEmission(emission)) == Some(stable)
  {
  }

  class HeldCellVertex<E> {
    /** The inherited stateful-cell state. */
    const vertex: WarmCellVertex<E>
    const source: LiveEventStreamVertex<E>

    ghost predicate Valid()
      reads this, vertex, source, vertex.Repr, source.Repr
    {
      && this !in vertex.Repr && this !in source.Repr
      && vertex.Repr !! source.Repr
      && vertex.Valid() && source.Valid()
      && vertex.persistence == Stateful
    }

    /** `start`: the stable value is `initialValue`; nothing is subscribed until wrap-up. */
    constructor (source: LiveEventStreamVertex<E>, initialValue: E)
      requires source.Valid()
      ensures Valid() && this.source == source && fresh(vertex.Repr)
      ensures vertex.retained == Some(initialValue) && vertex.ongoingUpdate.None?
      ensures vertex.observers.Elements() == [] && vertex.observers.size == 0
    {
      vertex := new WarmCellVertex.WithStableValue(initialValue);
      this.source := source;
    }

    /** `handleEmission`: the emission, as an update, is exposed and propagated. */
    method HandleEmission(context: PropagationContext, emission: Option<Emission<E>>, unreachable: object -> bool)
      returns (notified: seq<object>)
      requires Valid() && context.Valid()
      modifies vertex.Repr, context
      ensures Valid() && context.Valid() && vertex.Repr == old(vertex.Repr)
      ensures vertex.ongoingUpdate == UpdateOfEmission(emission)
      ensures vertex.retained == old(vertex.retained)
      ensures notified == old(vertex.observers.Elements())
      ensures context.verticesToCommit ==
        old(context.verticesToCommit) + (if old(vertex.isEnqueuedForCommitment) then [] else [vertex])
      ensures context.sideEffects == old(context.sideEffects)
    {
      source.ContextOutside(context);
      notified := vertex.ExposeAndPropagateUpdate(context, UpdateOfEmission(emission), unreachable);
    }

    /**
     * The wrap-up callback: refused if the cell already has observers;
     * otherwise subscribes to the source and exposes its ongoing emission,
     * if there is one, as an update.
     */
    method WrapUp(context: PropagationContext) returns (status: Status)
      requires Valid() && context.Valid()
      modifies vertex, source.Repr, context
      ensures Valid() && context.Valid() && context.sideEffects == old(context.sideEffects)
      ensures fresh(source.Repr - old(source.Repr))
      ensures old(vertex.HasObservers()) ==>
        && status == Failed(ObservedAtWrapUp)
        && source.subscribers.Elements() == old(source.subscribers.Elements())
        && vertex.ongoingUpdate == old(vertex.ongoingUpdate)
        && context.verticesToCommit == old(context.verticesToCommit)
      ensures !old(vertex.HasObservers()) ==>
        && status == Done
        && source.subscribers.Elements() == [this] + old(source.subscribers.Elements())
        && vertex.ongoingUpdate == (if old(source.ongoingEmission).Some? then UpdateOfEmission(old(source.ongoingEmission))
                                    else old(vertex.ongoingUpdate))
        && context.verticesToCommit == old(context.verticesToCommit)
             + (if old(source.ongoingEmission).Some? && !old(vertex.isEnqueuedForCommitment) then [vertex] else [])
      ensures vertex.retained == old(vertex.retained)
    {
      if vertex.HasObservers() {
        return Failed(ObservedAtWrapUp);
      }
      SubscribeToSource();
      ExposeSourceEmission(context);
      status := Done;
    }

    /** The wrap-up subscription to the source. */
    method SubscribeToSource()
      requires Valid()
      modifies source.Repr
      ensures Valid() && fresh(source.Repr - old(source.Repr))
      ensures source.subscribers.Elements() == [this] + old(source.subscribers.Elements())
      ensures source.ongoingEmission == old(source.ongoingEmission)
      ensures vertex.isEnqueuedForCommitment == old(vertex.isEnqueuedForCommitment)
    {
      var handle, first := source.RegisterSubscriber(this);
    }

    /** The wrap-up exposure of the source's ongoing emission; nothing happens without one. */
    method ExposeSourceEmission(context: PropagationContext)
      requires Valid() && context.Valid()
      modifies vertex, context
      ensures Valid() && context.Valid() && context.sideEffects == old(context.sideEffects)
      ensures vertex.ongoingUpdate == if source.ongoingEmission.Some? then UpdateOfEmission(source.ongoingEmission)
                                      else old(vertex.ongoingUpdate)
      ensures vertex.retained == old(vertex.retained)
      ensures source.ongoingEmission.None? ==>
        vertex.isEnqueuedForCommitment == old(vertex.isEnqueuedForCommitment) && context.verticesToCommit == old(context.verticesToCommit)
      ensures source.ongoingEmission.Some? ==>
        vertex.isEnqueuedForCommitment && context.verticesToCommit == old(context.verticesToCommit) + (if old(vertex.isEnqueuedForCommitment) then [] else [vertex])
    {
      if source.ongoingEmission.Some? {
        source.ContextOutside(context);
        vertex.ExposeUpdate(context, UpdateOfEmission(source.ongoingEmission));
      }
    }
  }
}

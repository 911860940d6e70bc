/**
 * `MappedAtCellVertex`: a stateful cell whose stable value starts as
 * `transform` of the source cell's old value. It observes the source from
 * construction on, independently of its own observers, and maps every
 * source update into an update of its own.
 */
module MappedAtCells {
  import opened Wrappers
  import opened Transactions
  import opened CellVertices
  import opened WarmCells

  class MappedAtCellVertex<V, W> {
    /** The inherited stateful-cell state. */
    const vertex: WarmCellVertex<W>
    const source: WarmCellVertex<V>
    const transform: V -> W

    ghost predicate Valid()
      reads this, vertex, source, vertex.Repr, source.Repr
    {
      && this !in vertex.Repr && this !in source.Repr
      && vertex.Repr !! source.Repr
      && vertex.Valid() && source.Valid()
      && vertex.persistence == Stateful
    }

    /** The constructor: the stable value is `transform` of the source's old value (`sourceComputed` standing for the source's own computation). */
    constructor (context: PropagationContext, source: WarmCellVertex<V>, transform: V -> W, sourceComputed: V)
      requires source.Valid() && context.Valid()
      modifies source, context
      ensures Valid() && context.Valid() && this.source == source && this.transform == transform
      ensures fresh(vertex.Repr) && source.Repr == old(source.Repr)
      ensures vertex.retained == Some(transform(old(source.OldValue(sourceComputed))))
      ensures vertex.ongoingUpdate.None? && !vertex.isEnqueuedForCommitment && vertex.observers.Elements() == []
      ensures source.ongoingUpdate == old(source.ongoingUpdate)
      ensures context.verticesToCommit == old(context.verticesToCommit) + old(source.ReadEnqueues())
      ensures context.sideEffects == old(context.sideEffects)
    {
      var initialValue := source.GetOldValue(context, sourceComputed);
      vertex := new WarmCellVertex.WithStableValue(transform(initialValue));
      this.source := source;
      this.transform := transform;
    }

    /**
     * `start`: constructs the vertex, which then registers with the source
     * and exposes the source's ongoing update, mapped, if there is one.
     */
    static method Start(context: PropagationContext, source: WarmCellVertex<V>, transform: V -> W, sourceComputed: V)
      returns (v: MappedAtCellVertex<V, W>)
      requires source.Valid() && context.Valid()
      modifies source.Repr, context
      ensures v.Valid() && context.Valid() && v.source == source && v.transform == transform
      ensures fresh(v) && fresh(v.vertex.Repr) && fresh(source.Repr - old(source.Repr))
      ensures v.vertex.retained == Some(transform(old(source.OldValue(sourceComputed))))
      ensures v.vertex.ongoingUpdate == MapOngoing(old(source.ongoingUpdate), transform)
      ensures v.vertex.observers.Elements() == []
      ensures source.observers.Elements() == [v] + old(source.observers.Elements())
      ensures v.vertex.isEnqueuedForCommitment <==> old(source.ongoingUpdate).Some?
      ensures context.verticesToCommit == old(context.verticesToCommit) + old(source.ReadEnqueues())
        + (if old(source.ongoingUpdate).Some? then [v.vertex] else [])
      ensures context.sideEffects == old(context.sideEffects)
    {
      v := new MappedAtCellVertex(context, source, transform, sourceComputed);
      v.Init(context);
    }

    /** `init`: registers with the source, then exposes its ongoing update, mapped, if there is one. */
    method Init(context: PropagationContext)
      requires Valid() && context.Valid() && vertex.ongoingUpdate.None?
      modifies source.Repr, vertex, context
      ensures Valid() && context.Valid() && context.sideEffects == old(context.sideEffects)
      ensures fresh(source.Repr - old(source.Repr))
      ensures vertex.ongoingUpdate == MapOngoing(old(source.ongoingUpdate), transform)
      ensures vertex.retained == old(vertex.retained) && vertex.observers.Elements() == old(vertex.observers.Elements())
      ensures source.observers.Elements() == [this] + old(source.observers.Elements())
      ensures old(source.ongoingUpdate).None? ==>
        vertex.isEnqueuedForCommitment == old(vertex.isEnqueuedForCommitment) && context.verticesToCommit == old(context.verticesToCommit)
      ensures old(source.ongoingUpdate).Some? ==>
        vertex.isEnqueuedForCommitment && context.verticesToCommit == old(context.verticesToCommit) + (if old(vertex.isEnqueuedForCommitment) then [] else [vertex])
    {
      source.ContextOutside(context);
      vertex.ContextOutside(context);
      ObserveSource();
      ExposeInitialUpdate(context);
    }

    /** The `init` registration with the source. */
    method ObserveSource()
      requires Valid()
      modifies source.Repr
      ensures Valid() && fresh(source.Repr - old(source.Repr))
      ensures source.observers.Elements() == [this] + old(source.observers.Elements())
      ensures source.ongoingUpdate == old(source.ongoingUpdate)
      ensures vertex.isEnqueuedForCommitment == old(vertex.isEnqueuedForCommitment)
    {
      var handle, first := source.RegisterObserver(this);
    }

    /** The `init` exposure of the source's ongoing update, mapped; nothing happens without one. */
    method ExposeInitialUpdate(context: PropagationContext)
      requires Valid() && context.Valid() && vertex.ongoingUpdate.None?
      modifies vertex, context
      ensures Valid() && context.Valid() && context.sideEffects == old(context.sideEffects)
      ensures vertex.ongoingUpdate == MapOngoing(source.ongoingUpdate, transform)
      ensures vertex.retained == old(vertex.retained) && vertex.observers.Elements() == old(vertex.observers.Elements())
      ensures source.ongoingUpdate.None? ==>
        vertex.isEnqueuedForCommitment == old(vertex.isEnqueuedForCommitment) && context.verticesToCommit == old(context.verticesToCommit)
      ensures source.ongoingUpdate.Some? ==>
        vertex.isEnqueuedForCommitment && context.verticesToCommit == old(context.verticesToCommit) + (if old(vertex.isEnqueuedForCommitment) then [] else [vertex])
    {
      if source.ongoingUpdate.Some? {
        source.ContextOutside(context);
        vertex.ExposeUpdate(context, MapOngoing(source.ongoingUpdate, transform));
      }
    }

    /** `handleUpdate`: a source update is mapped, a revocation passed on; either is exposed and propagated. */
    method HandleUpdate(context: PropagationContext, update: Option<Update<V>>, unreachable: object -> bool)
      returns (notified: seq<object>)
      requires Valid() && context.Valid()
      modifies vertex.Repr, context
      ensures Valid() && context.Valid() && vertex.Repr == old(vertex.Repr)
      ensures vertex.ongoingUpdate == MapOngoing(update, transform)
      ensures vertex.retained == old(vertex.retained)
      ensures notified == old(vertex.observers.Elements())
      ensures context.verticesToCommit ==
        old(context.verticesToCommit) + (if old(vertex.isEnqueuedForCommitment) then [] else [vertex])
      ensures context.sideEffects == old(context.sideEffects)
    {
      source.ContextOutside(context);
      notified := vertex.ExposeAndPropagateUpdate(context, MapOngoing(update, transform), unreachable);
    }

    /** `getOldValue` of a stateful vertex: always the stable value, which changes nothing. */
    method GetOldValue(context: PropagationContext) returns (value: W)
      requires Valid() && context.Valid()
      modifies vertex, context
      ensures Valid() && context.Valid()
      ensures value == old(vertex.retained).value
      ensures vertex.retained == old(vertex.retained) && context.verticesToCommit == old(context.verticesToCommit)
    {
      source.ContextOutside(context);
      value := vertex.GetOldValue(context, vertex.retained.value);
    }
  }

  /**
   * Committing the vertex after a source update makes the mapped value its
   * new stable value; after a revocation the stable value is kept.
   */
  lemma CommitStoresMappedUpdate<V, W>(stable: W, update: Option<Update<V>>, transform: V -> W)
    ensures update.Some? ==> Persisted(Stateful, Some(stable), MapOngoing(update, transform)) == Some(transform(update.value.updatedValue))
    ensures update.None? ==> Persisted(Stateful, Some(stable), MapOngoing(update, transform)) == Some(stable)
  {
  }
}

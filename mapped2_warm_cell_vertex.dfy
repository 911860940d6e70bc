/**
 * `Mapped2WarmCellVertex`: a momentarily caching cell whose value is
 * `transform` of two source cells' values. Any notification from either
 * source rebuilds the combined update from both sources' current state, so
 * the result does not depend on which source notified first.
 */
module Mapped2WarmCells {
  import opened Wrappers
  import opened Transactions
  import opened CellVertices
  import opened WarmCells

  /**
   * `buildTransformedUpdate`, given the sources' ongoing updates and old
   * values: no update when neither source has one, otherwise `transform` of
   * the two new values.
   */
  function TransformedUpdate<A, B, W>(update1: Option<Update<A>>, update2: Option<Update<B>>, old1: A, old2: B, transform: (A, B) -> W)
    : (r: Option<Update<W>>)
    ensures r.None? <==> update1.None? && update2.None?
    ensures r.Some? ==> r.value.updatedValue == transform(NewValue(update1, old1), NewValue(update2, old2))
  {
    if update1.None? && update2.None? then None
    else Some(Update(transform(NewValue(update1, old1), NewValue(update2, old2))))
  }

  /**
   * The combined cell's new value is `transform` of the sources' new values,
   * whichever of them updated (its old value being `computeOldValue`,
   * `transform` of the old values).
   */
  lemma TransformedNewValue<A, B, W>(update1: Option<Update<A>>, update2: Option<Update<B>>, old1: A, old2: B, transform: (A, B) -> W)
    ensures NewValue(TransformedUpdate(update1, update2, old1, old2, transform), transform(old1, old2)) ==
      transform(NewValue(update1, old1), NewValue(update2, old2))
  {
  }

  /** With only the first source updating, `map2` behaves as `map` of that source with the second held fixed. */
  lemma TransformedUpdateOfFirst<A, B, W>(update1: Option<Update<A>>, old1: A, old2: B, transform: (A, B) -> W)
    ensures TransformedUpdate(update1, None, old1, old2, transform) == MapOngoing(update1, (a: A) => transform(a, old2))
  {
  }

  /** With only the second source updating, `map2` behaves as `map` of that source with the first held fixed. */
  lemma TransformedUpdateOfSecond<A, B, W>(update2: Option<Update<B>>, old1: A, old2: B, transform: (A, B) -> W)
    ensures TransformedUpdate(None, update2, old1, old2, transform) == MapOngoing(update2, (b: B) => transform(old1, b))
  {
  }

  /**
   * What rebuilding the combined update adds to the commit queue, given the
   * sources' ongoing updates and what a read of each source's old value
   * would enqueue: only the one source whose old value is read can add
   * itself.
   */
  function RebuildEnqueues<A, B>(update1: Option<Update<A>>, update2: Option<Update<B>>, reads1: seq<object>, reads2: seq<object>)
    : (r: seq<object>)
    ensures update1.None? == update2.None? ==> r == []
  {
    (if update1.None? && update2.Some? then reads1 else []) + (if update2.None? && update1.Some? then reads2 else [])
  }

  class Mapped2WarmCellVertex<A, B, W> {
    /** The inherited warm-cell state. */
    const vertex: WarmCellVertex<W>
    const source1: WarmCellVertex<A>
    const source2: WarmCellVertex<B>
    const transform: (A, B) -> W
    var upstreamObserverHandle1: Option<ObserverHandle>
    var upstreamObserverHandle2: Option<ObserverHandle>

    ghost predicate Valid()
      reads this, vertex, source1, source2, vertex.Repr, source1.Repr, source2.Repr
    {
      && this !in vertex.Repr && this !in source1.Repr && this !in source2.Repr
      && vertex.Repr !! source1.Repr && vertex.Repr !! source2.Repr && source1.Repr !! source2.Repr
      && vertex.Valid() && source1.Valid() && source2.Valid()
      && vertex.persistence == Caching(Momentary)
      && (upstreamObserverHandle1.Some? ==> source1.Issued(upstreamObserverHandle1.value))
      && (upstreamObserverHandle2.Some? ==> source2.Issued(upstreamObserverHandle2.value))
    }

    constructor (source1: WarmCellVertex<A>, source2: WarmCellVertex<B>, transform: (A, B) -> W)
      requires source1.Valid() && source2.Valid() && source1.Repr !! source2.Repr
      ensures Valid() && this.source1 == source1 && this.source2 == source2 && this.transform == transform
      ensures fresh(vertex.Repr) && upstreamObserverHandle1.None? && upstreamObserverHandle2.None?
      ensures vertex.ongoingUpdate.None? && vertex.retained.None? && vertex.observers.Elements() == []
    {
      vertex := new WarmCellVertex.WithCache(Momentary);
      this.source1 := source1;
      this.source2 := source2;
      this.transform := transform;
      upstreamObserverHandle1 := None;
      upstreamObserverHandle2 := None;
    }

    /**
     * `buildTransformedUpdate`: reads a source's old value (`computed1`,
     * `computed2` standing for the sources' own computations) only when
     * that source has no ongoing update, and only when one of them has.
     */
    method BuildTransformedUpdate(context: PropagationContext, computed1: A, computed2: B) returns (r: Option<Update<W>>)
      requires Valid() && context.Valid()
      modifies source1, source2, context
      ensures Valid() && context.Valid() && context.sideEffects == old(context.sideEffects)
      ensures r == TransformedUpdate(old(source1.ongoingUpdate), old(source2.ongoingUpdate),
        old(source1.OldValue(computed1)), old(source2.OldValue(computed2)), transform)
      ensures source1.ongoingUpdate == old(source1.ongoingUpdate) && source2.ongoingUpdate == old(source2.ongoingUpdate)
      ensures context.verticesToCommit == old(context.verticesToCommit) + old(RebuildEnqueues(source1.ongoingUpdate, source2.ongoingUpdate, source1.ReadEnqueues(), source2.ReadEnqueues()))
    {
      source1.ContextOutside(context);
      source2.ContextOutside(context);
      vertex.ContextOutside(context);
      var update1 := source1.ongoingUpdate;
      var update2 := source2.ongoingUpdate;
      if update1.None? && update2.None? {
        return None;
      }
      var value1, value2;
      if update1.Some? {
        value1 := update1.value.updatedValue;
      } else {
        value1 := source1.GetOldValue(context, computed1);
      }
      if update2.Some? {
        value2 := update2.value.updatedValue;
      } else {
        value2 := source2.GetOldValue(context, computed2);
      }
      r := Some(Update(transform(value1, value2)));
    }

    /**
     * `handleUpdate`: whatever the notifying source sent, the combined
     * update is rebuilt from both sources and exposed and propagated.
     */
    method HandleUpdate(context: PropagationContext, computed1: A, computed2: B, unreachable: object -> bool)
      returns (notified: seq<object>)
      requires Valid() && context.Valid()
      modifies vertex.Repr, source1, source2, context
      ensures Valid() && context.Valid() && vertex.Repr == old(vertex.Repr)
      ensures vertex.ongoingUpdate == TransformedUpdate(old(source1.ongoingUpdate), old(source2.ongoingUpdate),
        old(source1.OldValue(computed1)), old(source2.OldValue(computed2)), transform)
      ensures notified == old(vertex.observers.Elements())
      ensures vertex.isEnqueuedForCommitment
      ensures context.verticesToCommit == old(context.verticesToCommit) + old(RebuildEnqueues(source1.ongoingUpdate, source2.ongoingUpdate, source1.ReadEnqueues(), source2.ReadEnqueues()))
        + (if old(vertex.isEnqueuedForCommitment) then [] else [vertex])
      ensures context.sideEffects == old(context.sideEffects)
    {
      var update := BuildTransformedUpdate(context, computed1, computed2);
      notified := vertex.ExposeAndPropagateUpdate(context, update, unreachable);
    }

    /** Registers this vertex as an observer of the first source. */
    method ObserveSource1()
      requires Valid()
      modifies this, source1.Repr
      ensures Valid() && fresh(source1.Repr - old(source1.Repr))
      ensures upstreamObserverHandle1.Some? && upstreamObserverHandle2 == old(upstreamObserverHandle2)
      ensures source1.observers.Holds(upstreamObserverHandle1.value.internalHandle)
      ensures source1.observers.Elements() == [this] + old(source1.observers.Elements())
      ensures source1.ongoingUpdate == old(source1.ongoingUpdate) && source1.retained == old(source1.retained)
      ensures source1.isEnqueuedForCommitment == old(source1.isEnqueuedForCommitment)
      ensures source1.ReadEnqueues() == old(source1.ReadEnqueues())
    {
      var handle, first := source1.RegisterObserver(this);
      upstreamObserverHandle1 := Some(handle);
    }

    /** Registers this vertex as an observer of the second source. */
    method ObserveSource2()
      requires Valid()
      modifies this, source2.Repr
      ensures Valid() && fresh(source2.Repr - old(source2.Repr))
      ensures upstreamObserverHandle2.Some? && upstreamObserverHandle1 == old(upstreamObserverHandle1)
      ensures source2.observers.Holds(upstreamObserverHandle2.value.internalHandle)
      ensures source2.observers.Elements() == [this] + old(source2.observers.Elements())
      ensures source2.ongoingUpdate == old(source2.ongoingUpdate) && source2.retained == old(source2.retained)
      ensures source2.isEnqueuedForCommitment == old(source2.isEnqueuedForCommitment)
      ensures source2.ReadEnqueues() == old(source2.ReadEnqueues())
    {
      var handle, first := source2.RegisterObserver(this);
      upstreamObserverHandle2 := Some(handle);
    }

    /** Registers this vertex as an observer of both sources, first then second. */
    method ObserveSources()
      requires Valid()
      modifies this, source1.Repr, source2.Repr
      ensures Valid() && fresh(source1.Repr - old(source1.Repr)) && fresh(source2.Repr - old(source2.Repr))
      ensures upstreamObserverHandle1.Some? && upstreamObserverHandle2.Some?
      ensures source1.observers.Holds(upstreamObserverHandle1.value.internalHandle)
      ensures source2.observers.Holds(upstreamObserverHandle2.value.internalHandle)
      ensures source1.observers.Elements() == [this] + old(source1.observers.Elements())
      ensures source2.observers.Elements() == [this] + old(source2.observers.Elements())
      ensures source1.ongoingUpdate == old(source1.ongoingUpdate) && source1.retained == old(source1.retained)
      ensures source2.ongoingUpdate == old(source2.ongoingUpdate) && source2.retained == old(source2.retained)
      ensures source1.isEnqueuedForCommitment == old(source1.isEnqueuedForCommitment)
      ensures source2.isEnqueuedForCommitment == old(source2.isEnqueuedForCommitment)
      ensures source1.ReadEnqueues() == old(source1.ReadEnqueues()) && source2.ReadEnqueues() == old(source2.ReadEnqueues())
      ensures unchanged(vertex)
    {
      ObserveSource1();
      ObserveSource2();
    }

    /**
     * `activate`: refused while either handle is held; otherwise observes
     * both sources, first then second, and yields the combined update.
     */
    method Activate(context: PropagationContext, computed1: A, computed2: B) returns (r: Result<Option<Update<W>>>)
      requires Valid() && context.Valid()
      modifies this, source1.Repr, source2.Repr, context
      ensures Valid() && context.Valid() && context.sideEffects == old(context.sideEffects)
      ensures fresh(source1.Repr - old(source1.Repr)) && fresh(source2.Repr - old(source2.Repr))
      ensures old(upstreamObserverHandle1).Some? || old(upstreamObserverHandle2).Some? ==>
        && r == Failure(AlreadyActive)
        && upstreamObserverHandle1 == old(upstreamObserverHandle1) && upstreamObserverHandle2 == old(upstreamObserverHandle2)
        && context.verticesToCommit == old(context.verticesToCommit)
      ensures old(upstreamObserverHandle1).None? && old(upstreamObserverHandle2).None? ==>
        && r == Success(TransformedUpdate(old(source1.ongoingUpdate), old(source2.ongoingUpdate),
             old(source1.OldValue(computed1)), old(source2.OldValue(computed2)), transform))
        && upstreamObserverHandle1.Some? && upstreamObserverHandle2.Some?
        && source1.observers.Holds(upstreamObserverHandle1.value.internalHandle)
        && source2.observers.Holds(upstreamObserverHandle2.value.internalHandle)
        && source1.observers.Elements() == [this] + old(source1.observers.Elements())
        && source2.observers.Elements() == [this] + old(source2.observers.Elements())
        && context.verticesToCommit == old(context.verticesToCommit) + old(RebuildEnqueues(source1.ongoingUpdate, source2.ongoingUpdate, source1.ReadEnqueues(), source2.ReadEnqueues()))
      ensures unchanged(vertex)
    {
      if upstreamObserverHandle1.Some? || upstreamObserverHandle2.Some? {
        return Failure(AlreadyActive);
      }
      var update := ObserveAndBuild(context, computed1, computed2);
      r := Success(update);
    }

    /** The body of `activate` past its check: observe both sources, then build the combined update. */
    method ObserveAndBuild(context: PropagationContext, computed1: A, computed2: B) returns (update: Option<Update<W>>)
      requires Valid() && context.Valid()
      modifies this, source1.Repr, source2.Repr, context
      ensures Valid() && context.Valid() && context.sideEffects == old(context.sideEffects)
      ensures fresh(source1.Repr - old(source1.Repr)) && fresh(source2.Repr - old(source2.Repr))
      ensures update == TransformedUpdate(old(source1.ongoingUpdate), old(source2.ongoingUpdate),
        old(source1.OldValue(computed1)), old(source2.OldValue(computed2)), transform)
      ensures upstreamObserverHandle1.Some? && upstreamObserverHandle2.Some?
      ensures source1.observers.Holds(upstreamObserverHandle1.value.internalHandle)
      ensures source2.observers.Holds(upstreamObserverHandle2.value.internalHandle)
      ensures source1.observers.Elements() == [this] + old(source1.observers.Elements())
      ensures source2.observers.Elements() == [this] + old(source2.observers.Elements())
      ensures context.verticesToCommit == old(context.verticesToCommit) + old(RebuildEnqueues(source1.ongoingUpdate, source2.ongoingUpdate, source1.ReadEnqueues(), source2.ReadEnqueues()))
      ensures unchanged(vertex)
    {
      source1.ContextOutside(context);
      source2.ContextOutside(context);
      ghost var old1, old2 := source1.OldValue(computed1), source2.OldValue(computed2);
      ghost var queued := RebuildEnqueues(source1.ongoingUpdate, source2.ongoingUpdate, source1.ReadEnqueues(), source2.ReadEnqueues());
      ObserveSources();
      assert source1.OldValue(computed1) == old1 && source2.OldValue(computed2) == old2;
      assert RebuildEnqueues(source1.ongoingUpdate, source2.ongoingUpdate, source1.ReadEnqueues(), source2.ReadEnqueues()) == queued;
      update := BuildTransformedUpdate(context, computed1, computed2);
    }

    /**
     * `deactivate`: stops observing each source whose handle is held, and
     * forgets the handles; a source refusing its handle stops it there.
     */
    method Deactivate() returns (status: Status)
      requires Valid()
      modifies this, source1.Repr, source2.Repr
      ensures Valid() && source1.Repr == old(source1.Repr) && source2.Repr == old(source2.Repr)
      ensures status == Done ==> upstreamObserverHandle1.None? && upstreamObserverHandle2.None?
      ensures old(upstreamObserverHandle1).Some? && old(source1.observers.Holds(upstreamObserverHandle1.value.internalHandle))
        && (old(upstreamObserverHandle2).Some? ==> old(source2.observers.Holds(upstreamObserverHandle2.value.internalHandle)))
        ==> status == Done
      ensures old(upstreamObserverHandle1).None? && old(upstreamObserverHandle2).None? ==> status == Done
      ensures old(upstreamObserverHandle1).Some? ==> !source1.observers.Holds(old(upstreamObserverHandle1).value.internalHandle)
      ensures old(upstreamObserverHandle2).Some? && status == Done ==>
        !source2.observers.Holds(old(upstreamObserverHandle2).value.internalHandle)
      ensures source1.ongoingUpdate == old(source1.ongoingUpdate) && source2.ongoingUpdate == old(source2.ongoingUpdate)
    {
      status := StopObservingSource1();
      if status.Failed? {
        return;
      }
      status := StopObservingSource2();
    }

    /** Unregisters from the first source if its handle is held, then forgets that handle. */
    method StopObservingSource1() returns (status: Status)
      requires Valid()
      modifies this, source1.Repr
      ensures Valid() && source1.Repr == old(source1.Repr)
      ensures upstreamObserverHandle2 == old(upstreamObserverHandle2)
      ensures status == Done ==> upstreamObserverHandle1.None?
      ensures old(upstreamObserverHandle1).Some? && old(source1.observers.Holds(upstreamObserverHandle1.value.internalHandle))
        ==> status == Done
      ensures old(upstreamObserverHandle1).None? ==> status == Done
      ensures old(upstreamObserverHandle1).Some? ==> !source1.observers.Holds(old(upstreamObserverHandle1).value.internalHandle)
      ensures source1.ongoingUpdate == old(source1.ongoingUpdate)
    {
      status := Done;
      if upstreamObserverHandle1.Some? {
        var last1;
        status, last1 := source1.UnregisterObserver(upstreamObserverHandle1.value);
        if status.Failed? {
          return;
        }
      }
      upstreamObserverHandle1 := None;
    }

    /** Unregisters from the second source if its handle is held, then forgets that handle. */
    method StopObservingSource2() returns (status: Status)
      requires Valid()
      modifies this, source2.Repr
      ensures Valid() && source2.Repr == old(source2.Repr)
      ensures upstreamObserverHandle1 == old(upstreamObserverHandle1)
      ensures status == Done ==> upstreamObserverHandle2.None?
      ensures old(upstreamObserverHandle2).Some? && old(source2.observers.Holds(upstreamObserverHandle2.value.internalHandle))
        ==> status == Done
      ensures old(upstreamObserverHandle2).None? ==> status == Done
      ensures old(upstreamObserverHandle2).Some? ==> !source2.observers.Holds(old(upstreamObserverHandle2).value.internalHandle)
      ensures source2.ongoingUpdate == old(source2.ongoingUpdate)
    {
      status := Done;
      if upstreamObserverHandle2.Some? {
        var last2;
        status, last2 := source2.UnregisterObserver(upstreamObserverHandle2.value);
        if status.Failed? {
          return;
        }
      }
      upstreamObserverHandle2 := None;
    }

    /** `onFirstObserverRegistered` of a stateless vertex: activates, and exposes the activation update. */
    method OnFirstObserverRegistered(context: PropagationContext, computed1: A, computed2: B) returns (status: Status)
      requires Valid() && context.Valid()
      modifies this, vertex, source1.Repr, source2.Repr, context
      ensures Valid() && context.Valid() && context.sideEffects == old(context.sideEffects)
      ensures fresh(source1.Repr - old(source1.Repr)) && fresh(source2.Repr - old(source2.Repr))
      ensures old(upstreamObserverHandle1).Some? || old(upstreamObserverHandle2).Some? ==>
        && status == Failed(AlreadyActive) && vertex.ongoingUpdate == old(vertex.ongoingUpdate)
        && context.verticesToCommit == old(context.verticesToCommit)
      ensures old(upstreamObserverHandle1).None? && old(upstreamObserverHandle2).None? ==>
        && status == Done
        && vertex.ongoingUpdate == TransformedUpdate(old(source1.ongoingUpdate), old(source2.ongoingUpdate),
             old(source1.OldValue(computed1)), old(source2.OldValue(computed2)), transform)
        && vertex.isEnqueuedForCommitment
        && context.verticesToCommit == old(context.verticesToCommit) + old(RebuildEnqueues(source1.ongoingUpdate, source2.ongoingUpdate, source1.ReadEnqueues(), source2.ReadEnqueues()))
             + (if old(vertex.isEnqueuedForCommitment) then [] else [vertex])
    {
      vertex.ContextOutside(context);
      var activation := Activate(context, computed1, computed2);
      if activation.Failure? {
        return Failed(activation.fault);
      }
      ExposeActivation(context, activation.value);
      status := Done;
    }

    /** The exposure half of `onFirstObserverRegistered`: `exposeUpdate` of the activation update. */
    method ExposeActivation(context: PropagationContext, update: Option<Update<W>>)
      requires Valid() && context.Valid()
      modifies vertex, context
      ensures Valid() && context.Valid() && context.sideEffects == old(context.sideEffects)
      ensures vertex.ongoingUpdate == update && vertex.isEnqueuedForCommitment
      ensures context.verticesToCommit ==
        old(context.verticesToCommit) + (if old(vertex.isEnqueuedForCommitment) then [] else [vertex])
      ensures unchanged(this, source1, source2)
    {
      source1.ContextOutside(context);
      source2.ContextOutside(context);
      vertex.ContextOutside(context);
      vertex.ExposeUpdate(context, update);
    }

    /** `onLastObserverUnregistered` of a stateless vertex: deactivates, then clears the exposed update. */
    method OnLastObserverUnregistered() returns (status: Status)
      requires Valid()
      modifies this, vertex, source1.Repr, source2.Repr
      ensures Valid() && source1.Repr == old(source1.Repr) && source2.Repr == old(source2.Repr)
      ensures status == Done ==> vertex.ongoingUpdate.None? && upstreamObserverHandle1.None? && upstreamObserverHandle2.None?
      ensures status.Failed? ==> vertex.ongoingUpdate == old(vertex.ongoingUpdate)
    {
      status := Deactivate();
      if status == Done {
        vertex.ClearExposedUpdate();
      }
    }

    /**
     * `getOldValue`: the cached value; on a cache miss `computeOldValue`,
     * `transform` of both sources' old values, which is then cached.
     */
    method GetOldValue(context: PropagationContext, computed1: A, computed2: B) returns (value: W)
      requires Valid() && context.Valid()
      modifies vertex, source1, source2, context
      ensures Valid() && context.Valid() && context.sideEffects == old(context.sideEffects)
      ensures value == if old(vertex.retained).Some? then old(vertex.retained).value
        else transform(old(source1.OldValue(computed1)), old(source2.OldValue(computed2)))
      ensures vertex.retained == Some(value)
      ensures old(vertex.retained).Some? ==> context.verticesToCommit == old(context.verticesToCommit)
      ensures old(vertex.retained).None? ==>
        && vertex.isEnqueuedForCommitment
        && context.verticesToCommit == old(context.verticesToCommit)
             + old(source1.ReadEnqueues()) + old(source2.ReadEnqueues())
             + (if old(vertex.isEnqueuedForCommitment) then [] else [vertex])
    {
      source1.ContextOutside(context);
      source2.ContextOutside(context);
      vertex.ContextOutside(context);
      if vertex.retained.Some? {
        value := vertex.retained.value;
      } else {
        var value1, value2 := SourceOldValues(context, computed1, computed2);
        value := vertex.GetOldValue(context, transform(value1, value2));
      }
    }

    /** Both sources' old values, read first then second. */
    method SourceOldValues(context: PropagationContext, computed1: A, computed2: B) returns (value1: A, value2: B)
      requires Valid() && context.Valid()
      modifies source1, source2, context
      ensures Valid() && context.Valid() && context.sideEffects == old(context.sideEffects)
      ensures value1 == old(source1.OldValue(computed1)) && value2 == old(source2.OldValue(computed2))
      ensures vertex.retained == old(vertex.retained) && vertex.isEnqueuedForCommitment == old(vertex.isEnqueuedForCommitment)
      ensures context.verticesToCommit ==
        old(context.verticesToCommit) + old(source1.ReadEnqueues()) + old(source2.ReadEnqueues())
    {
      source1.ContextOutside(context);
      source2.ContextOutside(context);
      vertex.ContextOutside(context);
      value1 := source1.GetOldValue(context, computed1);
      value2 := source2.GetOldValue(context, computed2);
    }
  }
}

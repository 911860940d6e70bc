/**
 * `ValuesEventStreamVertex`: a stateless stream emitting the values of a
 * warm source cell. In its spawning transaction it emits the cell's new
 * value, whether updated or not; once spawned it emits updated values only.
 */
module ValuesStreams {
  import opened Wrappers
  import opened Transactions
  import opened CellVertices
  import opened WarmCells
  import opened LiveStreams

  /** `InternalState`: whether the spawning transaction is over. */
  datatype InternalState = Spawning | Spawned

  /**
   * What the vertex emits when the source's update in the ongoing
   * transaction is `ongoing` and the source's old value is `oldValue`: while
   * spawning, the source's new value, always; once spawned, the updated value
   * if there is an update, and nothing otherwise.
   */
  function ValuesEmission<V>(state: InternalState, ongoing: Option<Update<V>>, oldValue: V): (r: Option<Emission<V>>)
    ensures state == Spawning ==> r == Some(Emission(NewValue(ongoing, oldValue)))
    ensures state == Spawned ==> (r.Some? <==> ongoing.Some?)
    ensures r.Some? && ongoing.Some? ==> r.value.emittedEvent == ongoing.value.updatedValue
  {
    match state
    case Spawning => Some(Emission(NewValue(ongoing, oldValue)))
    case Spawned => if ongoing.Some? then Some(Emission(ongoing.value.updatedValue)) else None
  }

  class ValuesEventStreamVertex<V> {
    /** The inherited live-stream state. */
    const vertex: LiveEventStreamVertex<V>
    const source: WarmCellVertex<V>
    var internalState: InternalState
    /** `upstreamObserverHandle`: set exactly while the vertex is active. */
    var upstreamObserverHandle: Option<ObserverHandle>

    ghost predicate Valid()
      reads this, vertex, source, vertex.Repr, source.Repr
    {
      && this !in vertex.Repr && this !in source.Repr
      && vertex.Repr !! source.Repr
      && vertex.Valid() && source.Valid()
      && (upstreamObserverHandle.Some? ==> source.Issued(upstreamObserverHandle.value))
    }

    /**
     * `start`: the vertex is spawning, and enqueues itself for commitment so
     * that committing the spawning transaction can find it.
     */
    constructor (context: PropagationContext, source: WarmCellVertex<V>)
      requires source.Valid() && context.Valid()
      modifies context
      ensures Valid() && context.Valid() && this.source == source && fresh(vertex.Repr)
      ensures internalState == Spawning && upstreamObserverHandle.None?
      ensures vertex.ongoingEmission.None? && vertex.isEnqueuedForCommitment
      ensures vertex.subscribers.Elements() == [] && vertex.subscribers.size == 0
      ensures context.verticesToCommit == old(context.verticesToCommit) + [vertex]
      ensures context.sideEffects == old(context.sideEffects)
    {
      vertex := new LiveEventStreamVertex();
      this.source := source;
      internalState := Spawning;
      upstreamObserverHandle := None;
      new;
      source.ContextOutside(context);
      vertex.EnsureEnqueued(context);
    }

    /**
     * The emission for the source update `ongoing`, reading the source's old
     * value only when it is needed (a spawning vertex without an update).
     */
    method EmissionFor(context: PropagationContext, ongoing: Option<Update<V>>, sourceComputed: V)
      returns (emission: Option<Emission<V>>)
      requires Valid() && context.Valid()
      modifies source, context
      ensures Valid() && context.Valid() && source.Repr == old(source.Repr)
      ensures emission == ValuesEmission(internalState, ongoing, old(source.OldValue(sourceComputed)))
      ensures source.ongoingUpdate == old(source.ongoingUpdate)
      ensures context.verticesToCommit == old(context.verticesToCommit) + (if internalState == Spawning && ongoing.None? then old(source.ReadEnqueues()) else [])
      ensures context.sideEffects == old(context.sideEffects)
    {
      if internalState == Spawning && ongoing.None? {
        vertex.ContextOutside(context);
        var oldValue := source.GetOldValue(context, sourceComputed);
        emission := Some(Emission(oldValue));
      } else {
        emission := ValuesEmission(internalState, ongoing, sourceComputed);
      }
    }

    /**
     * `handleUpdate`: an update is emitted; a revocation falls back to the
     * source's old value while spawning and revokes the emission once
     * spawned. Either way the result is exposed and propagated.
     */
    method HandleUpdate(context: PropagationContext, update: Option<Update<V>>, sourceComputed: V, unreachable: object -> bool)
      returns (notified: seq<object>)
      requires Valid() && context.Valid()
      modifies source, vertex.Repr, context
      ensures Valid() && context.Valid() && vertex.Repr == old(vertex.Repr) && source.Repr == old(source.Repr)
      ensures vertex.ongoingEmission == ValuesEmission(internalState, update, old(source.OldValue(sourceComputed)))
      ensures internalState == old(internalState)
      ensures notified == old(vertex.subscribers.Elements())
      ensures vertex.isEnqueuedForCommitment
      ensures context.verticesToCommit == old(context.verticesToCommit) + (if internalState == Spawning && update.None? then old(source.ReadEnqueues()) else []) + (if old(vertex.isEnqueuedForCommitment) then [] else [vertex])
      ensures context.sideEffects == old(context.sideEffects)
    {
      var emission := EmissionFor(context, update, sourceComputed);
      source.ContextOutside(context);
      notified := vertex.ExposeAndPropagateEmission(context, emission, unreachable);
    }

    /** The `activate` registration with the source. */
    method ObserveSource()
      requires Valid() && upstreamObserverHandle.None?
      modifies this, source.Repr
      ensures Valid() && fresh(source.Repr - old(source.Repr))
      ensures upstreamObserverHandle.Some? && source.observers.Holds(upstreamObserverHandle.value.internalHandle)
      ensures source.observers.Elements() == [this] + old(source.observers.Elements())
      ensures source.ongoingUpdate == old(source.ongoingUpdate) && source.retained == old(source.retained)
      ensures source.ReadEnqueues() == old(source.ReadEnqueues())
      ensures internalState == old(internalState)
    {
      var handle, first := source.RegisterObserver(this);
      upstreamObserverHandle := Some(handle);
    }

    /**
     * `activate`: refused while already active; otherwise observes the
     * source and yields the emission for the source's ongoing update.
     */
    method Activate(context: PropagationContext, sourceComputed: V) returns (r: Result<Option<Emission<V>>>)
      requires Valid() && context.Valid()
      modifies this, source.Repr, context
      ensures Valid() && context.Valid() && fresh(source.Repr - old(source.Repr))
      ensures old(upstreamObserverHandle).Some? ==>
        && r == Failure(AlreadyActive) && upstreamObserverHandle == old(upstreamObserverHandle)
        && context.verticesToCommit == old(context.verticesToCommit)
      ensures old(upstreamObserverHandle).None? ==>
        && r == Success(ValuesEmission(internalState, old(source.ongoingUpdate), old(source.OldValue(sourceComputed))))
        && upstreamObserverHandle.Some?
        && source.observers.Elements() == [this] + old(source.observers.Elements())
        && context.verticesToCommit == old(context.verticesToCommit) + (if internalState == Spawning && old(source.ongoingUpdate).None? then old(source.ReadEnqueues()) else [])
      ensures internalState == old(internalState)
      ensures context.sideEffects == old(context.sideEffects)
    {
      if upstreamObserverHandle.Some? {
        return Failure(AlreadyActive);
      }
      ObserveSource();
      var emission := EmissionFor(context, source.ongoingUpdate, sourceComputed);
      r := Success(emission);
    }

    /**
     * `deactivate`: refused while inactive; otherwise stops observing the
     * source and forgets the handle (unless the source refuses it).
     */
    method Deactivate() returns (status: Status)
      requires Valid()
      modifies this, source.Repr
      ensures Valid() && source.Repr == old(source.Repr)
      ensures old(upstreamObserverHandle).None? ==> status == Failed(NotActive)
      ensures status == Done ==> upstreamObserverHandle.None?
      ensures old(upstreamObserverHandle).Some? && old(source.observers.Holds(upstreamObserverHandle.value.internalHandle)) ==>
        status == Done && !source.observers.Holds(old(upstreamObserverHandle).value.internalHandle)
      ensures status.Failed? ==> upstreamObserverHandle == old(upstreamObserverHandle)
      ensures internalState == old(internalState)
    {
      match upstreamObserverHandle
      case None =>
        status := Failed(NotActive);
      case Some(handle) =>
        var sourceLast;
        status, sourceLast := source.UnregisterObserver(handle);
        if status == Done {
          upstreamObserverHandle := None;
        }
    }

    /** `onFirstSubscriberRegistered` of a stateless stream: activates, and exposes the activation emission. */
    method OnFirstSubscriberRegistered(context: PropagationContext, sourceComputed: V) returns (status: Status)
      requires Valid() && context.Valid()
      modifies this, vertex, source.Repr, context
      ensures Valid() && context.Valid() && fresh(source.Repr - old(source.Repr))
      ensures old(upstreamObserverHandle).Some? ==>
        && status == Failed(AlreadyActive) && vertex.ongoingEmission == old(vertex.ongoingEmission)
        && context.verticesToCommit == old(context.verticesToCommit)
      ensures old(upstreamObserverHandle).None? ==>
        && status == Done
        && upstreamObserverHandle.Some?
        && vertex.ongoingEmission == ValuesEmission(internalState, old(source.ongoingUpdate), old(source.OldValue(sourceComputed)))
        && vertex.isEnqueuedForCommitment
        && context.verticesToCommit == old(context.verticesToCommit) + (if internalState == Spawning && old(source.ongoingUpdate).None? then old(source.ReadEnqueues()) else []) + (if old(vertex.isEnqueuedForCommitment) then [] else [vertex])
      ensures context.sideEffects == old(context.sideEffects)
    {
      vertex.ContextOutside(context);
      source.ContextOutside(context);
      var activation := Activate(context, sourceComputed);
      if activation.Failure? {
        return Failed(activation.fault);
      }
      source.ContextOutside(context);
      vertex.ExposeEmission(context, activation.value);
      status := Done;
    }

    /** `onLastSubscriberUnregistered` of a stateless stream: deactivates, then clears the exposed emission. */
    method OnLastSubscriberUnregistered() returns (status: Status)
      requires Valid()
      modifies this, vertex, source.Repr
      ensures Valid() && source.Repr == old(source.Repr)
      ensures old(upstreamObserverHandle).None? ==> status == Failed(NotActive)
      ensures status == Done ==> vertex.ongoingEmission.None? && upstreamObserverHandle.None?
      ensures status.Failed? ==> vertex.ongoingEmission == old(vertex.ongoingEmission)
    {
      status := Deactivate();
      if status == Done {
        vertex.ClearExposedEmission();
      }
    }

    /**
     * `commit` with `transit` as written: the live stream runs `transit`
     * only when an emission is ongoing, so a spawning transaction in which
     * the vertex emitted nothing leaves it spawning.
     */
    method CommitAsWritten()
      requires Valid()
      modifies this, vertex
      ensures Valid()
      ensures vertex.ongoingEmission.None? && !vertex.isEnqueuedForCommitment
      ensures internalState == if old(vertex.ongoingEmission).Some? then Spawned else old(internalState)
      ensures upstreamObserverHandle == old(upstreamObserverHandle)
    {
      var transit := vertex.Commit();
      if transit {
        internalState := Spawned;
      }
    }

    /**
     * `commit` as the enqueueing at construction intends it: whatever was
     * emitted, committing ends the spawning state.
     */
    method Commit()
      requires Valid()
      modifies this, vertex
      ensures Valid()
      ensures vertex.ongoingEmission.None? && !vertex.isEnqueuedForCommitment
      ensures internalState == Spawned
      ensures upstreamObserverHandle == old(upstreamObserverHandle)
    {
      var transit := vertex.Commit();
      internalState := Spawned;
    }
  }

  /**
   * With the commit as written: a vertex spawned while nobody subscribed
   * emits nothing in its spawning transaction, so it stays spawning; when
   * it is later activated with no update under way, it still emits the
   * source's value, an event no transaction of the source caused.
   */
  method SilentSpawnAsWritten<V>(spawning: PropagationContext, later: PropagationContext, source: WarmCellVertex<V>, sourceComputed: V)
    returns (v: ValuesEventStreamVertex<V>, activation: Result<Option<Emission<V>>>)
    requires source.Valid() && spawning.Valid() && later.Valid() && source.ongoingUpdate.None?
    modifies source.Repr, spawning, later
    ensures v.internalState == Spawning
    ensures activation == Success(Some(Emission(old(source.OldValue(sourceComputed)))))
  {
    v := new ValuesEventStreamVertex(spawning, source);
    v.CommitAsWritten();
    activation := v.Activate(later, sourceComputed);
  }

  /**
   * With the corrected commit the same sequence ends the spawning state, and
   * the later activation emits nothing, as no update is under way.
   */
  method SilentSpawn<V>(spawning: PropagationContext, later: PropagationContext, source: WarmCellVertex<V>, sourceComputed: V)
    returns (v: ValuesEventStreamVertex<V>, activation: Result<Option<Emission<V>>>)
    requires source.Valid() && spawning.Valid() && later.Valid() && source.ongoingUpdate.None?
    modifies source.Repr, spawning, later
    ensures v.internalState == Spawned
    ensures activation == Success(None)
  {
    v := new ValuesEventStreamVertex(spawning, source);
    v.Commit();
    activation := v.Activate(later, sourceComputed);
  }
}

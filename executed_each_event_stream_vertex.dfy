/**
 * `ExecutedEachEventStreamVertex`: a stream that executes every action
 * emitted by a live source stream, in the transaction that emits it, and
 * emits the action's result. A correction of the source's emission revokes
 * what the previously executed action queued; a revocation revokes it and
 * revokes the emission. The vertex can be aborted and restarted.
 */
module ExecutedEachStreams {
  import opened Wrappers
  import opened Transactions
  import opened Actions
  import opened LiveStreams

  /** The side-effect list once the previously executed action's handle, if any, has been revoked. */
  function Withdrawn(q: SideEffectQueue, previous: Option<RevocationHandle>): (r: SideEffectQueue)
    ensures previous.None? ==> r == q
    ensures previous.Some? ==> r == q.(entries := Drop(q.entries, Targets(previous.value, q.owner)))
  {
    if previous.Some? then Revoked(q, previous.value) else q
  }

  /** Withdrawing the same handle twice is withdrawing it once. */
  lemma WithdrawnTwice(q: SideEffectQueue, previous: Option<RevocationHandle>)
    ensures Withdrawn(Withdrawn(q, previous), previous) == Withdrawn(q, previous)
  {
    if previous.Some? {
      RevokeIdempotent(q, previous.value);
    }
  }

  /**
   * A revoked emission leaves its revocation handle in place, so the next
   * emission revokes it again. That second revocation changes nothing: the
   * handle's entries are gone already, and whatever was queued since has
   * identifiers beyond those the handle targets.
   */
  lemma {:induction false} StaleRevocationHarmless(entries: seq<Entry>, later: seq<Entry>, ids: set<nat>, bound: nat)
    requires forall n | n in ids :: n < bound
    requires forall i | 0 <= i < |later| :: bound <= later[i].id
    ensures Drop(Drop(entries, ids) + later, ids) == Drop(entries, ids) + later
  {
    if later == [] {
      DropDrop(entries, ids, ids);
      assert ids + ids == ids;
      assert Drop(entries, ids) + later == Drop(entries, ids);
    } else {
      var init := later[..|later| - 1];
      var last := later[|later| - 1];
      StaleRevocationHarmless(entries, init, ids, bound);
      assert Drop(entries, ids) + later == (Drop(entries, ids) + init) + [last];
      DropAppend(Drop(entries, ids) + init, last, ids);
    }
  }

  class ExecutedEachEventStreamVertex<E> {
    /** The inherited live-stream state. */
    const vertex: LiveEventStreamVertex<E>
    const source: LiveEventStreamVertex<Action<E>>
    /** `upstreamSubscriberHandle`: the subscription to the source. */
    var upstreamSubscriberHandle: Option<SubscriberHandle>
    /** `executedActionRevocationHandle`: the handle of the last executed action. */
    var executedActionRevocationHandle: Option<RevocationHandle>

    ghost predicate Valid()
      reads this, vertex, source, vertex.Repr, source.Repr
    {
      && this !in vertex.Repr && this !in source.Repr
      && vertex.Repr !! source.Repr
      && vertex.Valid() && source.Valid()
      && (upstreamSubscriberHandle.Some? ==> source.Issued(upstreamSubscriberHandle.value))
    }

    /** The constructor's field initialisers: nothing subscribed, nothing executed. */
    constructor (source: LiveEventStreamVertex<Action<E>>)
      requires source.Valid()
      ensures Valid() && this.source == source && fresh(vertex.Repr)
      ensures upstreamSubscriberHandle.None? && executedActionRevocationHandle.None?
      ensures vertex.ongoingEmission.None? && !vertex.isEnqueuedForCommitment
      ensures vertex.subscribers.Elements() == [] && vertex.subscribers.size == 0
    {
      vertex := new LiveEventStreamVertex();
      this.source := source;
      upstreamSubscriberHandle := None;
      executedActionRevocationHandle := None;
    }

    /**
     * `start`: constructs the vertex, which subscribes to the source and, if
     * the source emits an action in this transaction, executes it and
     * exposes its result.
     */
    static method Start(context: PropagationContext, source: LiveEventStreamVertex<Action<E>>)
      returns (v: ExecutedEachEventStreamVertex<E>)
      requires source.Valid() && context.Valid()
      requires source.ongoingEmission.Some? ==> WellBehaved(source.ongoingEmission.value.emittedEvent, context)
      modifies source.Repr, context
      ensures v.Valid() && context.Valid() && v.source == source
      ensures fresh(v) && fresh(v.vertex.Repr) && fresh(source.Repr - old(source.Repr))
      ensures v.upstreamSubscriberHandle.Some? && source.subscribers.Holds(v.upstreamSubscriberHandle.value.internalHandle)
      ensures source.subscribers.Elements() == [v] + old(source.subscribers.Elements())
      ensures source.ongoingEmission == old(source.ongoingEmission)
      ensures old(source.ongoingEmission).None? ==>
        && v.vertex.ongoingEmission.None? && v.executedActionRevocationHandle.None?
        && context.sideEffects == old(context.sideEffects)
      ensures old(source.ongoingEmission).Some? ==>
        var x := old(source.ongoingEmission).value.emittedEvent(old(context.sideEffects));
        && v.vertex.ongoingEmission == Some(Emission(x.result))
        && v.executedActionRevocationHandle == Some(x.handle)
        && context.sideEffects == x.queue
      ensures v.vertex.isEnqueuedForCommitment <==> old(source.ongoingEmission).Some?
      ensures context.verticesToCommit ==
        old(context.verticesToCommit) + (if old(source.ongoingEmission).Some? then [v.vertex] else [])
    {
      v := new ExecutedEachEventStreamVertex(source);
      v.Init(context);
    }

    /**
     * `init`, and `restart` once its precondition is checked: subscribe, then
     * run the source's ongoing action; without one, the executed action's
     * handle and the exposed emission stay as they were.
     */
    method Init(context: PropagationContext)
      requires Valid() && context.Valid() && upstreamSubscriberHandle.None?
      requires source.ongoingEmission.Some? ==> WellBehaved(source.ongoingEmission.value.emittedEvent, context)
      modifies this, vertex, source.Repr, context
      ensures Valid() && context.Valid() && fresh(source.Repr - old(source.Repr))
      ensures upstreamSubscriberHandle.Some? && source.subscribers.Holds(upstreamSubscriberHandle.value.internalHandle)
      ensures source.subscribers.Elements() == [this] + old(source.subscribers.Elements())
      ensures source.ongoingEmission == old(source.ongoingEmission)
      ensures old(source.ongoingEmission).None? ==>
        && vertex.ongoingEmission == old(vertex.ongoingEmission)
        && executedActionRevocationHandle == old(executedActionRevocationHandle)
        && vertex.isEnqueuedForCommitment == old(vertex.isEnqueuedForCommitment)
        && context.sideEffects == old(context.sideEffects)
        && context.verticesToCommit == old(context.verticesToCommit)
      ensures old(source.ongoingEmission).Some? ==>
        var x := old(source.ongoingEmission).value.emittedEvent(old(context.sideEffects));
        && vertex.ongoingEmission == Some(Emission(x.result))
        && executedActionRevocationHandle == Some(x.handle)
        && context.sideEffects == x.queue
        && vertex.isEnqueuedForCommitment
        && context.verticesToCommit == old(context.verticesToCommit) + (if old(vertex.isEnqueuedForCommitment) then [] else [vertex])
    {
      source.ContextOutside(context);
      vertex.ContextOutside(context);
      Subscribe();
      if source.ongoingEmission.Some? {
        ExecuteOngoing(context);
      }
    }

    /** The subscription to the source. */
    method Subscribe()
      requires Valid() && upstreamSubscriberHandle.None?
      modifies this, source.Repr
      ensures Valid() && fresh(source.Repr - old(source.Repr))
      ensures upstreamSubscriberHandle.Some? && source.subscribers.Holds(upstreamSubscriberHandle.value.internalHandle)
      ensures source.subscribers.Elements() == [this] + old(source.subscribers.Elements())
      ensures source.ongoingEmission == old(source.ongoingEmission)
      ensures executedActionRevocationHandle == old(executedActionRevocationHandle)
      ensures unchanged(vertex)
    {
      var handle, first := source.RegisterSubscriber(this);
      upstreamSubscriberHandle := Some(handle);
    }

    /** Executes the source's ongoing action, keeps its handle and exposes its result. */
    method ExecuteOngoing(context: PropagationContext)
      requires Valid() && context.Valid() && source.ongoingEmission.Some?
      requires WellBehaved(source.ongoingEmission.value.emittedEvent, context)
      modifies this, vertex, context
      ensures Valid() && context.Valid()
      ensures var x := source.ongoingEmission.value.emittedEvent(old(context.sideEffects));
        && vertex.ongoingEmission == Some(Emission(x.result))
        && executedActionRevocationHandle == Some(x.handle)
        && context.sideEffects == x.queue
      ensures vertex.isEnqueuedForCommitment && context.verticesToCommit == old(context.verticesToCommit) + (if old(vertex.isEnqueuedForCommitment) then [] else [vertex])
      ensures upstreamSubscriberHandle == old(upstreamSubscriberHandle)
    {
      source.ContextOutside(context);
      vertex.ContextOutside(context);
      var result := ExecuteAction(context, source.ongoingEmission.value.emittedEvent);
      vertex.ExposeEmission(context, Some(Emission(result)));
    }

    /** `executeInternally`, keeping the handle as the executed action's. */
    method ExecuteAction(context: PropagationContext, action: Action<E>) returns (result: E)
      requires Valid() && context.Valid() && WellBehaved(action, context)
      modifies this, context
      ensures Valid() && context.Valid()
      ensures var x := action(old(context.sideEffects));
        result == x.result && executedActionRevocationHandle == Some(x.handle) && context.sideEffects == x.queue
      ensures context.verticesToCommit == old(context.verticesToCommit)
      ensures upstreamSubscriberHandle == old(upstreamSubscriberHandle)
    {
      source.ContextOutside(context);
      vertex.ContextOutside(context);
      var handle;
      result, handle := Execute(context, action);
      executedActionRevocationHandle := Some(handle);
    }

    /** `executedActionRevocationHandle?.revoke()`; the handle itself is kept. */
    method RevokeExecuted(context: PropagationContext)
      requires Valid() && context.Valid()
      modifies context
      ensures Valid() && context.Valid()
      ensures context.sideEffects == Withdrawn(old(context.sideEffects), executedActionRevocationHandle)
      ensures context.verticesToCommit == old(context.verticesToCommit)
    {
      if executedActionRevocationHandle.Some? {
        source.ContextOutside(context);
        vertex.ContextOutside(context);
        context.Revoke(executedActionRevocationHandle.value);
      }
    }

    /**
     * `handleEmission` as written: a revocation needs the handle of an
     * executed action (it fails without one), revokes it and revokes the
     * emission, but keeps the handle; a new or corrected action first revokes
     * the previously executed one, then is executed, and its result is
     * emitted. Either way it is exposed and propagated. `revoked` is the
     * handle this call revoked, if any.
     */
    method HandleEmissionAsWritten(context: PropagationContext, emission: Option<Emission<Action<E>>>, unreachable: object -> bool)
      returns (status: Status, notified: seq<object>, revoked: Option<RevocationHandle>)
      requires Valid() && context.Valid()
      requires emission.Some? ==> WellBehaved(emission.value.emittedEvent, context)
      modifies this, vertex.Repr, context
      ensures Valid() && context.Valid() && vertex.Repr == old(vertex.Repr)
      ensures upstreamSubscriberHandle == old(upstreamSubscriberHandle)
      ensures emission.None? && old(executedActionRevocationHandle).None? ==>
        && status == Failed(MissingRevocationHandle) && notified == [] && revoked.None?
        && vertex.ongoingEmission == old(vertex.ongoingEmission)
        && context.sideEffects == old(context.sideEffects)
        && context.verticesToCommit == old(context.verticesToCommit)
      ensures emission.None? && old(executedActionRevocationHandle).Some? ==>
        && status == Done && notified == old(vertex.subscribers.Elements())
        && vertex.ongoingEmission.None?
        && revoked == old(executedActionRevocationHandle)
        && executedActionRevocationHandle == old(executedActionRevocationHandle)
        && context.sideEffects == Revoked(old(context.sideEffects), old(executedActionRevocationHandle).value)
      ensures emission.Some? ==>
        var x := emission.value.emittedEvent(Withdrawn(old(context.sideEffects), old(executedActionRevocationHandle)));
        && status == Done && notified == old(vertex.subscribers.Elements())
        && revoked == old(executedActionRevocationHandle)
        && vertex.ongoingEmission == Some(Emission(x.result))
        && executedActionRevocationHandle == Some(x.handle)
        && context.sideEffects == x.queue
      ensures status == Done ==>
        vertex.isEnqueuedForCommitment && context.verticesToCommit == old(context.verticesToCommit) + (if old(vertex.isEnqueuedForCommitment) then [] else [vertex])
    {
      revoked := executedActionRevocationHandle;
      if emission.None? {
        if executedActionRevocationHandle.None? {
          return Failed(MissingRevocationHandle), [], None;
        }
        RevokeExecuted(context);
        notified := ExposeAndPropagate(context, None, unreachable);
      } else {
        notified := ReplaceExecuted(context, emission.value.emittedEvent, unreachable);
      }
      status := Done;
    }

    /**
     * `handleEmission` with the revoked action's handle forgotten, as `abort`
     * forgets it, so that no later emission or abort revokes it again.
     */
    method HandleEmission(context: PropagationContext, emission: Option<Emission<Action<E>>>, unreachable: object -> bool)
      returns (status: Status, notified: seq<object>, revoked: Option<RevocationHandle>)
      requires Valid() && context.Valid()
      requires emission.Some? ==> WellBehaved(emission.value.emittedEvent, context)
      modifies this, vertex.Repr, context
      ensures Valid() && context.Valid() && vertex.Repr == old(vertex.Repr)
      ensures upstreamSubscriberHandle == old(upstreamSubscriberHandle)
      ensures emission.None? && old(executedActionRevocationHandle).None? ==>
        && status == Failed(MissingRevocationHandle) && notified == [] && revoked.None?
        && vertex.ongoingEmission == old(vertex.ongoingEmission)
        && context.sideEffects == old(context.sideEffects)
        && context.verticesToCommit == old(context.verticesToCommit)
      ensures emission.None? && old(executedActionRevocationHandle).Some? ==>
        && status == Done && notified == old(vertex.subscribers.Elements())
        && vertex.ongoingEmission.None?
        && revoked == old(executedActionRevocationHandle)
        && executedActionRevocationHandle.None?
        && context.sideEffects == Revoked(old(context.sideEffects), old(executedActionRevocationHandle).value)
      ensures emission.Some? ==>
        var x := emission.value.emittedEvent(Withdrawn(old(context.sideEffects), old(executedActionRevocationHandle)));
        && status == Done && notified == old(vertex.subscribers.Elements())
        && revoked == old(executedActionRevocationHandle)
        && vertex.ongoingEmission == Some(Emission(x.result))
        && executedActionRevocationHandle == Some(x.handle)
        && context.sideEffects == x.queue
      ensures status == Done ==>
        vertex.isEnqueuedForCommitment && context.verticesToCommit == old(context.verticesToCommit) + (if old(vertex.isEnqueuedForCommitment) then [] else [vertex])
    {
      revoked := executedActionRevocationHandle;
      if emission.None? {
        if executedActionRevocationHandle.None? {
          return Failed(MissingRevocationHandle), [], None;
        }
        RevokeExecuted(context);
        executedActionRevocationHandle := None;
        notified := ExposeAndPropagate(context, None, unreachable);
      } else {
        notified := ReplaceExecuted(context, emission.value.emittedEvent, unreachable);
      }
      status := Done;
    }

    /** The emission branch of `handleEmission`: revoke the previous action, execute `action`, emit its result. */
    method ReplaceExecuted(context: PropagationContext, action: Action<E>, unreachable: object -> bool)
      returns (notified: seq<object>)
      requires Valid() && context.Valid() && WellBehaved(action, context)
      modifies this, vertex.Repr, context
      ensures Valid() && context.Valid() && vertex.Repr == old(vertex.Repr)
      ensures upstreamSubscriberHandle == old(upstreamSubscriberHandle)
      ensures var x := action(Withdrawn(old(context.sideEffects), old(executedActionRevocationHandle)));
        && notified == old(vertex.subscribers.Elements())
        && vertex.ongoingEmission == Some(Emission(x.result))
        && executedActionRevocationHandle == Some(x.handle)
        && context.sideEffects == x.queue
      ensures vertex.isEnqueuedForCommitment && context.verticesToCommit == old(context.verticesToCommit) + (if old(vertex.isEnqueuedForCommitment) then [] else [vertex])
    {
      RevokeExecuted(context);
      var result := ExecuteAction(context, action);
      notified := ExposeAndPropagate(context, Some(Emission(result)), unreachable);
    }

    /** `exposeAndPropagateEmission` of the inherited live-stream state. */
    method ExposeAndPropagate(context: PropagationContext, emission: Option<Emission<E>>, unreachable: object -> bool)
      returns (notified: seq<object>)
      requires Valid() && context.Valid()
      modifies vertex.Repr, context
      ensures Valid() && context.Valid() && vertex.Repr == old(vertex.Repr)
      ensures vertex.ongoingEmission == emission
      ensures notified == old(vertex.subscribers.Elements())
      ensures vertex.isEnqueuedForCommitment && context.verticesToCommit == old(context.verticesToCommit) + (if old(vertex.isEnqueuedForCommitment) then [] else [vertex])
      ensures context.sideEffects == old(context.sideEffects)
    {
      source.ContextOutside(context);
      notified := vertex.ExposeAndPropagateEmission(context, emission, unreachable);
    }

    /**
     * `abort` as written: revokes and forgets the executed action, fails if
     * there is no subscription, and cancels the subscription, but keeps its
     * handle, so that a later `restart` finds the vertex still active.
     */
    method AbortAsWritten(context: PropagationContext) returns (status: Status)
      requires Valid() && context.Valid()
      modifies this, source.Repr, context
      ensures Valid() && context.Valid() && source.Repr == old(source.Repr)
      ensures executedActionRevocationHandle.None?
      ensures context.sideEffects == Withdrawn(old(context.sideEffects), old(executedActionRevocationHandle))
      ensures old(upstreamSubscriberHandle).None? ==> status == Failed(AlreadyAborted)
      ensures old(upstreamSubscriberHandle).Some? && old(source.subscribers.Holds(upstreamSubscriberHandle.value.internalHandle)) ==>
        status == Done && !source.subscribers.Holds(old(upstreamSubscriberHandle).value.internalHandle)
      ensures upstreamSubscriberHandle == old(upstreamSubscriberHandle)
      ensures source.ongoingEmission == old(source.ongoingEmission)
    {
      RevokeExecuted(context);
      executedActionRevocationHandle := None;
      if upstreamSubscriberHandle.None? {
        return Failed(AlreadyAborted);
      }
      var sourceLast;
      status, sourceLast := source.UnregisterSubscriber(upstreamSubscriberHandle.value);
    }

    /**
     * `abort` as `restart` evidently expects it: the canceled subscription's
     * handle is forgotten as well.
     */
    method Abort(context: PropagationContext) returns (status: Status)
      requires Valid() && context.Valid()
      modifies this, source.Repr, context
      ensures Valid() && context.Valid() && source.Repr == old(source.Repr)
      ensures executedActionRevocationHandle.None?
      ensures context.sideEffects == Withdrawn(old(context.sideEffects), old(executedActionRevocationHandle))
      ensures old(upstreamSubscriberHandle).None? ==> status == Failed(AlreadyAborted)
      ensures old(upstreamSubscriberHandle).Some? && old(source.subscribers.Holds(upstreamSubscriberHandle.value.internalHandle)) ==>
        status == Done && !source.subscribers.Holds(old(upstreamSubscriberHandle).value.internalHandle)
      ensures status == Done ==> upstreamSubscriberHandle.None?
      ensures status.Failed? ==> upstreamSubscriberHandle == old(upstreamSubscriberHandle)
      ensures source.ongoingEmission == old(source.ongoingEmission)
    {
      RevokeExecuted(context);
      executedActionRevocationHandle := None;
      status := CancelSubscription();
    }

    /** Cancels the subscription to the source and forgets its handle. */
    method CancelSubscription() returns (status: Status)
      requires Valid()
      modifies this, source.Repr
      ensures Valid() && source.Repr == old(source.Repr)
      ensures old(upstreamSubscriberHandle).None? ==> status == Failed(AlreadyAborted)
      ensures old(upstreamSubscriberHandle).Some? && old(source.subscribers.Holds(upstreamSubscriberHandle.value.internalHandle)) ==>
        status == Done && !source.subscribers.Holds(old(upstreamSubscriberHandle).value.internalHandle)
      ensures status == Done ==> upstreamSubscriberHandle.None?
      ensures status.Failed? ==> upstreamSubscriberHandle == old(upstreamSubscriberHandle)
      ensures executedActionRevocationHandle == old(executedActionRevocationHandle)
      ensures source.ongoingEmission == old(source.ongoingEmission)
    {
      match upstreamSubscriberHandle
      case None =>
        status := Failed(AlreadyAborted);
      case Some(handle) =>
        var sourceLast;
        status, sourceLast := source.UnregisterSubscriber(handle);
        if status == Done {
          upstreamSubscriberHandle := None;
        }
    }

    /**
     * `restart`: refused while subscribed; otherwise subscribes again and
     * runs the source's ongoing action, as at construction, overwriting the
     * handle and the emission; without an ongoing action both are left as
     * they were.
     */
    method Restart(context: PropagationContext) returns (status: Status)
      requires Valid() && context.Valid()
      requires source.ongoingEmission.Some? ==> WellBehaved(source.ongoingEmission.value.emittedEvent, context)
      modifies this, vertex, source.Repr, context
      ensures Valid() && context.Valid() && fresh(source.Repr - old(source.Repr))
      ensures old(upstreamSubscriberHandle).Some? ==>
        && status == Failed(AlreadyActive) && upstreamSubscriberHandle == old(upstreamSubscriberHandle)
        && context.sideEffects == old(context.sideEffects)
      ensures old(upstreamSubscriberHandle).None? ==>
        && status == Done
        && upstreamSubscriberHandle.Some? && source.subscribers.Holds(upstreamSubscriberHandle.value.internalHandle)
        && source.subscribers.Elements() == [this] + old(source.subscribers.Elements())
      ensures old(upstreamSubscriberHandle).None? && old(source.ongoingEmission).Some? ==>
        var x := old(source.ongoingEmission).value.emittedEvent(old(context.sideEffects));
        && vertex.ongoingEmission == Some(Emission(x.result))
        && executedActionRevocationHandle == Some(x.handle)
        && context.sideEffects == x.queue
        && vertex.isEnqueuedForCommitment
        && context.verticesToCommit == old(context.verticesToCommit) + (if old(vertex.isEnqueuedForCommitment) then [] else [vertex])
      ensures old(upstreamSubscriberHandle).None? && old(source.ongoingEmission).None? ==>
        && vertex.ongoingEmission == old(vertex.ongoingEmission)
        && executedActionRevocationHandle == old(executedActionRevocationHandle)
        && context.sideEffects == old(context.sideEffects)
        && context.verticesToCommit == old(context.verticesToCommit)
      ensures old(upstreamSubscriberHandle).Some? ==> context.verticesToCommit == old(context.verticesToCommit)
    {
      if upstreamSubscriberHandle.Some? {
        return Failed(AlreadyActive);
      }
      Init(context);
      status := Done;
    }
  }

  /**
   * With `abort` as written, canceling a started vertex and then revoking the
   * cancellation fails: `restart` still sees the old subscription handle.
   */
  method RestartAfterAbortAsWritten<E>(context: PropagationContext, source: LiveEventStreamVertex<Action<E>>)
    returns (v: ExecutedEachEventStreamVertex<E>, aborted: Status, restarted: Status)
    requires source.Valid() && context.Valid()
    requires source.ongoingEmission.Some? ==> WellBehaved(source.ongoingEmission.value.emittedEvent, context)
    modifies source.Repr, context
    ensures aborted == Done
    ensures restarted == Failed(AlreadyActive)
  {
    v := ExecutedEachEventStreamVertex.Start(context, source);
    aborted := v.AbortAsWritten(context);
    restarted := v.Restart(context);
  }

  /** With the corrected `abort`, the same sequence subscribes the vertex to the source again. */
  method RestartAfterAbort<E>(context: PropagationContext, source: LiveEventStreamVertex<Action<E>>)
    returns (v: ExecutedEachEventStreamVertex<E>, aborted: Status, restarted: Status)
    requires source.Valid() && context.Valid()
    requires source.ongoingEmission.Some? ==> WellBehaved(source.ongoingEmission.value.emittedEvent, context)
    modifies source.Repr, context
    ensures aborted == Done
    ensures restarted == Done
    ensures v.Valid() && v.upstreamSubscriberHandle.Some? && source.subscribers.Holds(v.upstreamSubscriberHandle.value.internalHandle)
  {
    v := ExecutedEachEventStreamVertex.Start(context, source);
    aborted := v.Abort(context);
    restarted := v.Restart(context);
  }

  /**
   * With `handleEmission` as written, a revoked emission followed by a new
   * one revokes the executed action's handle twice: once for the revocation
   * and again, for the same handle, before executing the new action.
   */
  method RevokeThenEmitAsWritten<E>(context: PropagationContext, v: ExecutedEachEventStreamVertex<E>, action: Action<E>, unreachable: object -> bool)
    returns (first: Option<RevocationHandle>, second: Option<RevocationHandle>)
    requires v.Valid() && context.Valid() && v.executedActionRevocationHandle.Some? && WellBehaved(action, context)
    modifies v, v.vertex.Repr, context
    ensures first == second == old(v.executedActionRevocationHandle)
  {
    var status, notified;
    status, notified, first := v.HandleEmissionAsWritten(context, None, unreachable);
    status, notified, second := v.HandleEmissionAsWritten(context, Some(Emission(action)), unreachable);
  }

  /** With the corrected `handleEmission`, the new emission finds no handle left to revoke. */
  method RevokeThenEmit<E>(context: PropagationContext, v: ExecutedEachEventStreamVertex<E>, action: Action<E>, unreachable: object -> bool)
    returns (first: Option<RevocationHandle>, second: Option<RevocationHandle>)
    requires v.Valid() && context.Valid() && v.executedActionRevocationHandle.Some? && WellBehaved(action, context)
    modifies v, v.vertex.Repr, context
    ensures first == old(v.executedActionRevocationHandle) && second.None?
  {
    var status, notified;
    status, notified, first := v.HandleEmission(context, None, unreachable);
    status, notified, second := v.HandleEmission(context, Some(Emission(action)), unreachable);
  }
}

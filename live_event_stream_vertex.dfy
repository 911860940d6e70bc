/**
 * The live event stream vertex: a stream that keeps a bag of subscribers,
 * the emission it exposes in the ongoing transaction and an "already
 * enqueued for commitment" flag. Its commit runs the subclass's `transit`
 * exactly when an emission was ongoing.
 *
 * As for warm cells, the subclass hooks are not dispatched here:
 * registration and unregistration report the first and last subscriber,
 * and `Commit` reports whether `transit` is due.
 */
module LiveStreams {
  import opened Wrappers
  import opened RawLinkedLists
  import opened MutableBags
  import opened Transactions

  /** `EventStreamVertex.Emission`: exactly one payload, the emitted event. */
  datatype Emission<E> = Emission(emittedEvent: E)

  /** `emission?.map(transform)`: a present emission is transformed, an absent (revoked) one stays absent. */
  function MapEmission<E, F>(emission: Option<Emission<E>>, transform: E -> F): (r: Option<Emission<F>>)
    ensures r.None? <==> emission.None?
    ensures emission.Some? ==> r.value.emittedEvent == transform(emission.value.emittedEvent)
  {
    match emission
    case None => None
    case Some(e) => Some(Emission(transform(e.emittedEvent)))
  }

  /** Mapping an emission by `g` after `f` is mapping it once by their composition. */
  lemma MapEmissionComposes<E, F, G>(emission: Option<Emission<E>>, f: E -> F, g: F -> G)
    ensures MapEmission(MapEmission(emission, f), g) == MapEmission(emission, x => g(f(x)))
  {
  }

  /** `LiveSubscriberHandle`, or a handle of some other type. */
  datatype SubscriberHandle = LiveSubscriberHandle(internalHandle: Handle<object>) | ForeignHandle

  class LiveEventStreamVertex<E> {
    /** `_registeredSubscribers`: subscribers are identified by object. */
    const subscribers: MutableBag<object>
    /** `_ongoingEmission`. */
    var ongoingEmission: Option<Emission<E>>
    /** `_isEnqueuedForCommitment`. */
    var isEnqueuedForCommitment: bool
    ghost var Repr: set<object>

    ghost predicate Valid()
      reads this, Repr
    {
      && subscribers in Repr
      && Repr == {this} + subscribers.Repr
      && this !in subscribers.Repr
      && subscribers.Valid()
    }

    /** A transaction's context is never part of a vertex's representation. */
    lemma ContextOutside(context: PropagationContext)
      requires Valid()
      ensures context !in Repr
    {
    }

    /** `handle` was handed out by this vertex (its subscriber may since have been removed). */
    ghost predicate Issued(handle: SubscriberHandle)
      reads this, subscribers, subscribers.list
    {
      handle.LiveSubscriberHandle? && subscribers.Owns(handle.internalHandle)
    }

    /** The vertex is enqueued in `context` once while its flag is set, and not at all otherwise. */
    ghost predicate TrackedBy(context: PropagationContext)
      reads this, context
    {
      multiset(context.verticesToCommit)[this] == if isEnqueuedForCommitment then 1 else 0
    }

    constructor ()
      ensures Valid() && fresh(Repr)
      ensures ongoingEmission.None? && !isEnqueuedForCommitment
      ensures subscribers.Elements() == [] && subscribers.size == 0 && subscribers.list.created == {}
    {
      subscribers := new MutableBag();
      ongoingEmission := None;
      isEnqueuedForCommitment := false;
      new;
      Repr := {this} + subscribers.Repr;
    }

    /**
     * `registerSubscriber`: adds the subscriber and hands out a handle to
     * it; `first` reports that the counter became 1, which is when
     * `onFirstSubscriberRegistered` runs.
     */
    method RegisterSubscriber(subscriber: object) returns (handle: SubscriberHandle, first: bool)
      requires Valid()
      modifies Repr
      ensures Valid() && fresh(Repr - old(Repr))
      ensures handle.LiveSubscriberHandle? && subscribers.Holds(handle.internalHandle)
      ensures subscribers.Elements() == [subscriber] + old(subscribers.Elements())
      ensures subscribers.list.created == old(subscribers.list.created) + {handle.internalHandle.node}
      ensures subscribers.size == old(subscribers.size) + 1
      ensures first <==> subscribers.size == 1
      ensures ongoingEmission == old(ongoingEmission) && isEnqueuedForCommitment == old(isEnqueuedForCommitment)
    {
      var internalHandle := subscribers.Add(subscriber);
      Repr := Repr + {internalHandle.node};
      handle := LiveSubscriberHandle(internalHandle);
      first := subscribers.size == 1;
    }

    /**
     * `unregisterSubscriber`: a handle of a foreign type is refused, so is
     * one whose subscriber is already gone; otherwise the subscriber is
     * removed and `last` reports that the counter reached 0, which is when
     * `onLastSubscriberUnregistered` runs.
     */
    method UnregisterSubscriber(handle: SubscriberHandle) returns (status: Status, last: bool)
      requires Valid()
      requires handle.LiveSubscriberHandle? ==> subscribers.Owns(handle.internalHandle)
      modifies Repr
      ensures Valid() && Repr == old(Repr)
      ensures subscribers.list.created == old(subscribers.list.created)
      ensures handle.ForeignHandle? ==> status == Failed(InvalidHandle)
      ensures handle.LiveSubscriberHandle? && !old(subscribers.Holds(handle.internalHandle)) ==> status == Failed(NodeAlreadyRemoved)
      ensures status.Failed? ==> !last && subscribers.list.nodes == old(subscribers.list.nodes) && subscribers.size == old(subscribers.size)
      ensures status == Done <==> handle.LiveSubscriberHandle? && old(subscribers.Holds(handle.internalHandle))
      ensures status == Done ==>
        && subscribers.size == old(subscribers.size) - 1
        && (last <==> subscribers.size == 0)
        && var i := IndexOf(old(subscribers.list.nodes), handle.internalHandle.node);
           subscribers.list.nodes == old(subscribers.list.nodes)[..i] + old(subscribers.list.nodes)[i + 1..]
      ensures handle.LiveSubscriberHandle? ==> !subscribers.Holds(handle.internalHandle)
      ensures ongoingEmission == old(ongoingEmission) && isEnqueuedForCommitment == old(isEnqueuedForCommitment)
    {
      last := false;
      match handle
      case ForeignHandle =>
        status := Failed(InvalidHandle);
      case LiveSubscriberHandle(internalHandle) =>
        status := subscribers.Remove(internalHandle);
        if status == Done {
          last := subscribers.size == 0;
        }
    }

    /** `ensureEnqueuedForCommitment`. */
    method EnsureEnqueued(context: PropagationContext)
      requires Valid() && context.Valid()
      modifies this, context
      ensures Valid() && Repr == old(Repr) && context.Valid() && isEnqueuedForCommitment
      ensures context.verticesToCommit ==
        old(context.verticesToCommit) + (if old(isEnqueuedForCommitment) then [] else [this])
      ensures context.sideEffects == old(context.sideEffects)
      ensures old(TrackedBy(context)) ==> TrackedBy(context)
      ensures ongoingEmission == old(ongoingEmission)
    {
      if !isEnqueuedForCommitment {
        context.EnqueueForCommitment(this);
        isEnqueuedForCommitment := true;
      }
    }

    /** `exposeEmission`: the emission becomes the ongoing one and the vertex is enqueued for commitment. */
    method ExposeEmission(context: PropagationContext, emission: Option<Emission<E>>)
      requires Valid() && context.Valid()
      modifies this, context
      ensures Valid() && Repr == old(Repr) && context.Valid()
      ensures ongoingEmission == emission && isEnqueuedForCommitment
      ensures context.verticesToCommit ==
        old(context.verticesToCommit) + (if old(isEnqueuedForCommitment) then [] else [this])
      ensures context.sideEffects == old(context.sideEffects)
      ensures old(TrackedBy(context)) ==> TrackedBy(context)
    {
      ongoingEmission := emission;
      EnsureEnqueued(context);
    }

    /** `clearExposedEmission`. */
    method ClearExposedEmission()
      requires Valid()
      modifies this
      ensures Valid() && Repr == old(Repr) && ongoingEmission.None? && isEnqueuedForCommitment == old(isEnqueuedForCommitment)
    {
      ongoingEmission := None;
    }

    /**
     * `propagateEmission`: every registered subscriber, in bag order, is
     * handed `emission`; those that report themselves unreachable are
     * dropped. Returns the subscribers notified.
     */
    method PropagateEmission(emission: Option<Emission<E>>, unreachable: object -> bool) returns (notified: seq<object>)
      requires Valid()
      modifies Repr
      ensures Valid() && Repr == old(Repr)
      ensures notified == old(subscribers.Elements())
      ensures subscribers.list.nodes == Kept(old(subscribers.list.nodes), unreachable)
      ensures subscribers.list.created == old(subscribers.list.created)
      ensures subscribers.size == old(subscribers.size)
      ensures ongoingEmission == old(ongoingEmission) && isEnqueuedForCommitment == old(isEnqueuedForCommitment)
    {
      notified := subscribers.ForEach(unreachable);
    }

    /** `exposeAndPropagateEmission`. */
    method ExposeAndPropagateEmission(context: PropagationContext, emission: Option<Emission<E>>, unreachable: object -> bool)
      returns (notified: seq<object>)
      requires Valid() && context.Valid()
      modifies Repr, context
      ensures Valid() && context.Valid() && Repr == old(Repr)
      ensures ongoingEmission == emission && isEnqueuedForCommitment
      ensures context.verticesToCommit ==
        old(context.verticesToCommit) + (if old(isEnqueuedForCommitment) then [] else [this])
      ensures context.sideEffects == old(context.sideEffects)
      ensures notified == old(subscribers.Elements())
      ensures subscribers.list.nodes == Kept(old(subscribers.list.nodes), unreachable)
      ensures subscribers.list.created == old(subscribers.list.created)
      ensures subscribers.size == old(subscribers.size)
    {
      ExposeEmission(context, emission);
      notified := PropagateEmission(emission, unreachable);
    }

    /**
     * `commit`: `transit` is due exactly when an emission was ongoing; the
     * emission and the enqueued flag are then cleared.
     */
    method Commit() returns (transit: bool)
      requires Valid()
      modifies this
      ensures Valid() && Repr == old(Repr)
      ensures transit <==> old(ongoingEmission).Some?
      ensures ongoingEmission.None? && !isEnqueuedForCommitment
    {
      transit := ongoingEmission.Some?;
      ongoingEmission := None;
      isEnqueuedForCommitment := false;
    }
  }
}

/**
 * `SwitchedCellVertex`: a stateless cell whose value is the value of the
 * inner cell that an outer cell currently holds. While active it observes
 * the outer cell and the "new" inner cell (the updated inner cell if the
 * outer cell has an update in the ongoing transaction, the stable one
 * otherwise), and rewires that second subscription whenever the outer cell
 * switches. Resolving an outer value to its vertex (`Cell.getVertex`) is
 * the identity here: the outer cell holds inner vertices directly.
 */
module SwitchedCells {
  import opened Wrappers
  import opened Transactions
  import opened CellVertices
  import opened WarmCells

  /** Two inner cells are the same cell or share no state. */
  ghost predicate Separate<V>(a: WarmCellVertex<V>, b: WarmCellVertex<V>)
    reads a, b
  {
    a == b || a.Repr !! b.Repr
  }

  /**
   * What reading the new value of `cell`, whose ongoing update, cache and
   * enqueued flag are `ongoing`, `retained` and `enqueued`, adds to the
   * commit queue: `cell` itself when it has neither an update nor a cached
   * value to answer with, caches, and is not enqueued yet.
   */
  function SwitchEnqueues<V>(cell: WarmCellVertex<V>, ongoing: Option<Update<V>>, retained: Option<V>, enqueued: bool): (r: seq<object>)
    ensures r == [] || r == [cell]
    ensures r == [cell] <==> ongoing.None? && retained.None? && !cell.persistence.Uncached? && !enqueued
  {
    if ongoing.None? && retained.None? && !cell.persistence.Uncached? && !enqueued then [cell] else []
  }

  /** `innerSourceObserver`: the object the vertex registers with its inner cells. */
  class InnerSourceObserver {
    constructor ()
    {
    }
  }

  /**
   * The three fields of the switched vertex that track its inner cells:
   * `stableInnerSourceVertex`, `updatedInnerSourceVertex` and
   * `upstreamNewInnerObserverHandle`, kept in one object with the
   * representations of the linked cells as its footprint.
   */
  class InnerLinks<V> {
    /** The inner cell of the outer cell's old value, while active. */
    var stableInnerSourceVertex: Option<WarmCellVertex<V>>
    /** The inner cell of the outer cell's ongoing update, if there is one. */
    var updatedInnerSourceVertex: Option<WarmCellVertex<V>>
    /** The registration with the new inner cell. */
    var upstreamNewInnerObserverHandle: Option<ObserverHandle>
    ghost var Repr: set<object>

    /** The new inner cell: the updated one, else the stable one. */
    function NewInner(): Option<WarmCellVertex<V>>
      reads this
    {
      if updatedInnerSourceVertex.Some? then updatedInnerSourceVertex else stableInnerSourceVertex
    }

    /** The new inner cell is the stable one: nothing is updated, or the update is back to the stable cell. */
    predicate NewIsStable()
      reads this
    {
      stableInnerSourceVertex.Some? && NewInner() == stableInnerSourceVertex
    }

    /** The new inner cell is an updated cell other than the stable one. */
    predicate NewIsApart()
      reads this
    {
      && stableInnerSourceVertex.Some? && updatedInnerSourceVertex.Some?
      && updatedInnerSourceVertex.value != stableInnerSourceVertex.value
    }

    /** The footprint the links have while their fields are as they are: this object and the linked cells. */
    ghost function Footprint(): set<object>
      reads this, Inners()
    {
      {this}
      + (if stableInnerSourceVertex.Some? then stableInnerSourceVertex.value.Repr else {})
      + (if updatedInnerSourceVertex.Some? then updatedInnerSourceVertex.value.Repr else {})
    }

    /** The linked cells. */
    ghost function Inners(): set<WarmCellVertex<V>>
      reads this
    {
      (if stableInnerSourceVertex.Some? then {stableInnerSourceVertex.value} else {})
      + (if updatedInnerSourceVertex.Some? then {updatedInnerSourceVertex.value} else {})
    }

    ghost predicate Valid()
      reads this, Repr
    {
      && this in Repr
      && (updatedInnerSourceVertex.Some? ==> stableInnerSourceVertex.Some?)
      && (stableInnerSourceVertex.Some? ==>
            var stable := stableInnerSourceVertex.value;
            stable in Repr && stable.Repr <= Repr && this !in stable.Repr && stable.Valid())
      && (updatedInnerSourceVertex.Some? ==>
            var updated := updatedInnerSourceVertex.value;
            updated in Repr && updated.Repr <= Repr && this !in updated.Repr && updated.Valid())
      && (NewIsApart() ==> stableInnerSourceVertex.value.Repr !! updatedInnerSourceVertex.value.Repr)
      && (upstreamNewInnerObserverHandle.Some? ==>
            stableInnerSourceVertex.Some? && NewInner().value.Issued(upstreamNewInnerObserverHandle.value))
      && Repr == Footprint()
    }

    /** A transaction's context is none of the linked state. */
    lemma ContextOutside(context: PropagationContext)
      requires Valid()
      ensures context !in Repr
    {
      if stableInnerSourceVertex.Some? {
        stableInnerSourceVertex.value.ContextOutside(context);
      }
      if updatedInnerSourceVertex.Some? {
        updatedInnerSourceVertex.value.ContextOutside(context);
      }
    }

    /** Unlinked, the links are their own representation. */
    lemma Unlinked()
      requires Valid() && stableInnerSourceVertex.None?
      ensures Repr == {this} && updatedInnerSourceVertex.None? && upstreamNewInnerObserverHandle.None?
    {
    }

    /** The links stay valid while nothing in their representation changes. */
    twostate lemma Framed()
      requires old(Valid()) && unchanged(this) && unchanged(old(Repr))
      ensures Valid() && Repr == old(Repr)
    {
    }

    /** `inner` may be linked: a valid cell apart from this object, and each linked cell or apart from it. */
    ghost predicate Admits(inner: WarmCellVertex<V>)
      reads this, Repr, inner, inner.Repr
    {
      && inner.Valid() && this !in inner.Repr
      && (stableInnerSourceVertex.Some? && stableInnerSourceVertex.value in Repr ==>
            Separate(stableInnerSourceVertex.value, inner))
      && (updatedInnerSourceVertex.Some? && updatedInnerSourceVertex.value in Repr ==>
            Separate(updatedInnerSourceVertex.value, inner))
    }

    /** Unlinked. */
    constructor ()
      ensures Valid() && fresh(Repr)
      ensures stableInnerSourceVertex.None? && updatedInnerSourceVertex.None? && upstreamNewInnerObserverHandle.None?
    {
      stableInnerSourceVertex := None;
      updatedInnerSourceVertex := None;
      upstreamNewInnerObserverHandle := None;
      Repr := {this};
    }

    /** Unregisters from the stable inner cell, the new one, and forgets the handle (unless refused). */
    method DetachStable() returns (status: Status)
      requires Valid() && upstreamNewInnerObserverHandle.Some? && NewIsStable()
      modifies this, stableInnerSourceVertex.value.Repr
      ensures stableInnerSourceVertex == old(stableInnerSourceVertex) && updatedInnerSourceVertex == old(updatedInnerSourceVertex)
      ensures Valid() && Repr == old(Repr) && stableInnerSourceVertex.value.Repr == old(stableInnerSourceVertex.value.Repr)
      ensures status == Done <==> old(stableInnerSourceVertex.value.observers.Holds(upstreamNewInnerObserverHandle.value.internalHandle))
      ensures var h := old(upstreamNewInnerObserverHandle.value);
        h.WarmObserverHandle? && !stableInnerSourceVertex.value.observers.Holds(h.internalHandle)
      ensures status == Done ==> upstreamNewInnerObserverHandle.None?
      ensures status.Failed? ==> upstreamNewInnerObserverHandle == old(upstreamNewInnerObserverHandle)
      ensures stableInnerSourceVertex.value.ongoingUpdate == old(stableInnerSourceVertex.value.ongoingUpdate)
      ensures stableInnerSourceVertex.value.retained == old(stableInnerSourceVertex.value.retained)
    {
      var inner := stableInnerSourceVertex.value;
      var innerLast;
      status, innerLast := inner.UnregisterObserver(upstreamNewInnerObserverHandle.value);
      if status == Done {
        upstreamNewInnerObserverHandle := None;
      }
    }

    /** Unregisters from the updated inner cell, the new one, and forgets the handle (unless refused). */
    method DetachUpdated() returns (status: Status)
      requires Valid() && upstreamNewInnerObserverHandle.Some? && NewIsApart()
      modifies this, updatedInnerSourceVertex.value.Repr
      ensures stableInnerSourceVertex == old(stableInnerSourceVertex) && updatedInnerSourceVertex == old(updatedInnerSourceVertex)
      ensures Valid() && Repr == old(Repr) && updatedInnerSourceVertex.value.Repr == old(updatedInnerSourceVertex.value.Repr)
      ensures status == Done <==> old(updatedInnerSourceVertex.value.observers.Holds(upstreamNewInnerObserverHandle.value.internalHandle))
      ensures var h := old(upstreamNewInnerObserverHandle.value);
        h.WarmObserverHandle? && !updatedInnerSourceVertex.value.observers.Holds(h.internalHandle)
      ensures status == Done ==> upstreamNewInnerObserverHandle.None?
      ensures status.Failed? ==> upstreamNewInnerObserverHandle == old(upstreamNewInnerObserverHandle)
      ensures updatedInnerSourceVertex.value.ongoingUpdate == old(updatedInnerSourceVertex.value.ongoingUpdate)
      ensures updatedInnerSourceVertex.value.retained == old(updatedInnerSourceVertex.value.retained)
    {
      var inner := updatedInnerSourceVertex.value;
      var innerLast;
      status, innerLast := inner.UnregisterObserver(upstreamNewInnerObserverHandle.value);
      if status == Done {
        upstreamNewInnerObserverHandle := None;
      }
    }

    /** Registers `observer` with the stable inner cell, the new one. */
    method AttachStable(observer: object)
      requires Valid() && upstreamNewInnerObserverHandle.None? && NewIsStable()
      modifies this, stableInnerSourceVertex.value.Repr
      ensures Valid() && fresh(Repr - old(Repr))
      ensures stableInnerSourceVertex == old(stableInnerSourceVertex) && updatedInnerSourceVertex == old(updatedInnerSourceVertex)
      ensures fresh(stableInnerSourceVertex.value.Repr - old(stableInnerSourceVertex.value.Repr))
      ensures upstreamNewInnerObserverHandle.Some?
      ensures stableInnerSourceVertex.value.observers.Holds(upstreamNewInnerObserverHandle.value.internalHandle)
      ensures stableInnerSourceVertex.value.observers.Elements() == [observer] + old(stableInnerSourceVertex.value.observers.Elements())
      ensures stableInnerSourceVertex.value.ongoingUpdate == old(stableInnerSourceVertex.value.ongoingUpdate)
      ensures stableInnerSourceVertex.value.retained == old(stableInnerSourceVertex.value.retained)
      ensures stableInnerSourceVertex.value.isEnqueuedForCommitment == old(stableInnerSourceVertex.value.isEnqueuedForCommitment)
    {
      var inner := stableInnerSourceVertex.value;
      var handle, innerFirst := inner.RegisterObserver(observer);
      upstreamNewInnerObserverHandle := Some(handle);
      Repr := Footprint();
    }

    /** Registers `observer` with the updated inner cell, the new one. */
    method AttachUpdated(observer: object)
      requires Valid() && upstreamNewInnerObserverHandle.None? && NewIsApart()
      modifies this, updatedInnerSourceVertex.value.Repr
      ensures Valid() && fresh(Repr - old(Repr))
      ensures stableInnerSourceVertex == old(stableInnerSourceVertex) && updatedInnerSourceVertex == old(updatedInnerSourceVertex)
      ensures fresh(updatedInnerSourceVertex.value.Repr - old(updatedInnerSourceVertex.value.Repr))
      ensures upstreamNewInnerObserverHandle.Some?
      ensures updatedInnerSourceVertex.value.observers.Holds(upstreamNewInnerObserverHandle.value.internalHandle)
      ensures updatedInnerSourceVertex.value.observers.Elements() == [observer] + old(updatedInnerSourceVertex.value.observers.Elements())
      ensures updatedInnerSourceVertex.value.ongoingUpdate == old(updatedInnerSourceVertex.value.ongoingUpdate)
      ensures updatedInnerSourceVertex.value.retained == old(updatedInnerSourceVertex.value.retained)
      ensures updatedInnerSourceVertex.value.isEnqueuedForCommitment == old(updatedInnerSourceVertex.value.isEnqueuedForCommitment)
    {
      var inner := updatedInnerSourceVertex.value;
      var handle, innerFirst := inner.RegisterObserver(observer);
      upstreamNewInnerObserverHandle := Some(handle);
      Repr := Footprint();
    }

    /** Unregisters from the new inner cell, whichever that is. */
    method DetachNewInner() returns (status: Status)
      requires Valid() && upstreamNewInnerObserverHandle.Some?
      modifies this, NewInner().value.Repr
      ensures stableInnerSourceVertex == old(stableInnerSourceVertex) && updatedInnerSourceVertex == old(updatedInnerSourceVertex)
      ensures Valid() && Repr == old(Repr) && NewInner().value.Repr == old(NewInner().value.Repr)
      ensures status == Done <==> old(NewInner().value.observers.Holds(upstreamNewInnerObserverHandle.value.internalHandle))
      ensures var h := old(upstreamNewInnerObserverHandle.value);
        h.WarmObserverHandle? && !NewInner().value.observers.Holds(h.internalHandle)
      ensures status == Done ==> upstreamNewInnerObserverHandle.None?
      ensures status.Failed? ==> upstreamNewInnerObserverHandle == old(upstreamNewInnerObserverHandle)
      ensures stableInnerSourceVertex.value.ongoingUpdate == old(stableInnerSourceVertex.value.ongoingUpdate)
      ensures stableInnerSourceVertex.value.retained == old(stableInnerSourceVertex.value.retained)
      ensures NewInner().value.ongoingUpdate == old(NewInner().value.ongoingUpdate)
    {
      if NewIsStable() {
        status := DetachStable();
      } else {
        status := DetachUpdated();
      }
    }

    /** `DetachNewInner` ahead of a switch to `handled`, another cell than the new one, which it leaves as it was. */
    method DetachBefore(handled: WarmCellVertex<V>, ghost innerComputed: V) returns (status: Status)
      requires Valid() && upstreamNewInnerObserverHandle.Some? && Admits(handled) && NewInner() != Some(handled)
      modifies this, NewInner().value.Repr
      ensures stableInnerSourceVertex == old(stableInnerSourceVertex) && updatedInnerSourceVertex == old(updatedInnerSourceVertex)
      ensures Valid() && Repr == old(Repr)
      ensures status == Done <==> old(NewInner().value.observers.Holds(upstreamNewInnerObserverHandle.value.internalHandle))
      ensures status == Done ==> upstreamNewInnerObserverHandle.None?
      ensures status.Failed? ==> upstreamNewInnerObserverHandle == old(upstreamNewInnerObserverHandle)
      ensures Admits(handled) && handled.Repr == old(handled.Repr)
      ensures handled.ongoingUpdate == old(handled.ongoingUpdate) && handled.OldValue(innerComputed) == old(handled.OldValue(innerComputed))
      ensures handled.retained == old(handled.retained) && handled.isEnqueuedForCommitment == old(handled.isEnqueuedForCommitment)
    {
      status := DetachNewInner();
    }

    /** Registers `observer` with the new inner cell, whichever that is. */
    method AttachNewInner(observer: object)
      requires Valid() && upstreamNewInnerObserverHandle.None? && stableInnerSourceVertex.Some?
      modifies this, NewInner().value.Repr
      ensures Valid() && fresh(Repr - old(Repr))
      ensures stableInnerSourceVertex == old(stableInnerSourceVertex) && updatedInnerSourceVertex == old(updatedInnerSourceVertex)
      ensures fresh(NewInner().value.Repr - old(NewInner().value.Repr))
      ensures upstreamNewInnerObserverHandle.Some?
      ensures NewInner().value.observers.Holds(upstreamNewInnerObserverHandle.value.internalHandle)
      ensures NewInner().value.observers.Elements() == [observer] + old(NewInner().value.observers.Elements())
      ensures NewInner().value.ongoingUpdate == old(NewInner().value.ongoingUpdate)
      ensures NewInner().value.retained == old(NewInner().value.retained)
      ensures NewInner().value.isEnqueuedForCommitment == old(NewInner().value.isEnqueuedForCommitment)
    {
      if NewIsStable() {
        AttachStable(observer);
      } else {
        AttachUpdated(observer);
      }
    }

    /** Links the stable and (if any) the updated inner cell of a newly active vertex. */
    method Link(stable: WarmCellVertex<V>, updated: Option<WarmCellVertex<V>>)
      requires Valid() && stableInnerSourceVertex.None? && upstreamNewInnerObserverHandle.None?
      requires stable.Valid() && this !in stable.Repr
      requires updated.Some? ==> updated.value.Valid() && this !in updated.value.Repr && Separate(stable, updated.value)
      modifies this
      ensures Valid() && Repr <= old(Repr) + stable.Repr + (if updated.Some? then updated.value.Repr else {})
      ensures stableInnerSourceVertex == Some(stable) && updatedInnerSourceVertex == updated
      ensures upstreamNewInnerObserverHandle.None?
    {
      stableInnerSourceVertex := Some(stable);
      updatedInnerSourceVertex := updated;
      Repr := Footprint();
    }

    /** Makes `handled` the updated inner cell, and registers `observer` with it. */
    method LinkUpdated(handled: WarmCellVertex<V>, observer: object)
      requires Valid() && upstreamNewInnerObserverHandle.None? && stableInnerSourceVertex.Some? && Admits(handled)
      modifies this, handled.Repr
      ensures Valid() && fresh(Repr - old(Repr) - old(handled.Repr)) && handled.Repr <= Repr
      ensures updatedInnerSourceVertex == Some(handled) && stableInnerSourceVertex == old(stableInnerSourceVertex)
      ensures fresh(handled.Repr - old(handled.Repr))
      ensures upstreamNewInnerObserverHandle.Some?
      ensures handled.observers.Holds(upstreamNewInnerObserverHandle.value.internalHandle)
      ensures handled.ongoingUpdate == old(handled.ongoingUpdate) && handled.retained == old(handled.retained)
      ensures handled.isEnqueuedForCommitment == old(handled.isEnqueuedForCommitment)
    {
      SetUpdated(handled);
      AttachNewInner(observer);
    }

    /** Links `handled` as the updated inner cell, touching no cell. */
    method SetUpdated(handled: WarmCellVertex<V>)
      requires Valid() && upstreamNewInnerObserverHandle.None? && stableInnerSourceVertex.Some? && Admits(handled)
      modifies this
      ensures Valid() && Repr <= old(Repr) + handled.Repr + {handled} && handled.Repr <= Repr
      ensures updatedInnerSourceVertex == Some(handled) && stableInnerSourceVertex == old(stableInnerSourceVertex)
      ensures upstreamNewInnerObserverHandle.None?
    {
      updatedInnerSourceVertex := Some(handled);
      Repr := Footprint();
    }

    /** Forgets the updated inner cell, and registers `observer` with the stable one again. */
    method RelinkStable(observer: object)
      requires Valid() && upstreamNewInnerObserverHandle.None? && stableInnerSourceVertex.Some?
      modifies this, stableInnerSourceVertex.value.Repr
      ensures Valid() && fresh(Repr - old(Repr))
      ensures updatedInnerSourceVertex.None? && stableInnerSourceVertex == old(stableInnerSourceVertex)
      ensures upstreamNewInnerObserverHandle.Some?
      ensures stableInnerSourceVertex.value.observers.Holds(upstreamNewInnerObserverHandle.value.internalHandle)
      ensures stableInnerSourceVertex.value.ongoingUpdate == old(stableInnerSourceVertex.value.ongoingUpdate)
    {
      updatedInnerSourceVertex := None;
      Repr := Footprint();
      AttachStable(observer);
    }

    /** The commitment hook: the updated inner cell, if any, becomes the stable one. */
    method Commit()
      requires Valid()
      modifies this
      ensures Valid() && Repr <= old(Repr)
      ensures stableInnerSourceVertex == old(NewInner()) && updatedInnerSourceVertex.None?
      ensures upstreamNewInnerObserverHandle == old(upstreamNewInnerObserverHandle)
    {
      if updatedInnerSourceVertex.Some? {
        stableInnerSourceVertex := updatedInnerSourceVertex;
        updatedInnerSourceVertex := None;
        Repr := Footprint();
      }
    }

    /** Forgets every link of a vertex that deactivates. */
    method Clear()
      requires Valid() && upstreamNewInnerObserverHandle.None?
      modifies this
      ensures Valid() && Repr <= old(Repr)
      ensures stableInnerSourceVertex.None? && updatedInnerSourceVertex.None? && upstreamNewInnerObserverHandle.None?
    {
      stableInnerSourceVertex := None;
      updatedInnerSourceVertex := None;
      Repr := {this};
    }

    /** `stableInnerSourceVertex.getOldValue`. */
    method StableOldValue(context: PropagationContext, innerComputed: V) returns (value: V)
      requires Valid() && context.Valid() && stableInnerSourceVertex.Some?
      modifies stableInnerSourceVertex.value, context
      ensures Valid() && context.Valid()
      ensures value == old(stableInnerSourceVertex.value.OldValue(innerComputed))
      ensures context.verticesToCommit == old(context.verticesToCommit) + old(stableInnerSourceVertex.value.ReadEnqueues())
      ensures context.sideEffects == old(context.sideEffects)
    {
      stableInnerSourceVertex.value.ContextOutside(context);
      value := stableInnerSourceVertex.value.GetOldValue(context, innerComputed);
    }

    /** `updatedInnerSourceVertex.getOldValue`. */
    method UpdatedOldValue(context: PropagationContext, innerComputed: V) returns (value: V)
      requires Valid() && context.Valid() && updatedInnerSourceVertex.Some?
      modifies updatedInnerSourceVertex.value, context
      ensures Valid() && context.Valid()
      ensures value == old(updatedInnerSourceVertex.value.OldValue(innerComputed))
      ensures context.verticesToCommit == old(context.verticesToCommit) + old(updatedInnerSourceVertex.value.ReadEnqueues())
      ensures context.sideEffects == old(context.sideEffects)
    {
      updatedInnerSourceVertex.value.ContextOutside(context);
      value := updatedInnerSourceVertex.value.GetOldValue(context, innerComputed);
    }

    /** `updatedInnerSourceVertex.getNewValue`. */
    method UpdatedNewValue(context: PropagationContext, innerComputed: V) returns (value: V)
      requires Valid() && context.Valid() && updatedInnerSourceVertex.Some?
      modifies updatedInnerSourceVertex.value, context
      ensures Valid() && context.Valid()
      ensures value == NewValue(old(updatedInnerSourceVertex.value.ongoingUpdate), old(updatedInnerSourceVertex.value.OldValue(innerComputed)))
      ensures context.verticesToCommit == old(context.verticesToCommit)
        + (if old(updatedInnerSourceVertex.value.ongoingUpdate).Some? then [] else old(updatedInnerSourceVertex.value.ReadEnqueues()))
      ensures context.sideEffects == old(context.sideEffects)
    {
      updatedInnerSourceVertex.value.ContextOutside(context);
      value := updatedInnerSourceVertex.value.GetNewValue(context, innerComputed);
    }
  }

  class SwitchedCellVertex<V> {
    /** The inherited stateless-cell state: a vertex that keeps no value between transactions. */
    const vertex: WarmCellVertex<V>
    const outerSourceVertex: WarmCellVertex<WarmCellVertex<V>>
    const innerSourceObserver: InnerSourceObserver
    /** The fields tracking the inner cells. */
    const links: InnerLinks<V>
    /** `upstreamOuterObserverHandle`: set while active. */
    var upstreamOuterObserverHandle: Option<ObserverHandle>

    ghost predicate Valid()
      reads this, vertex, outerSourceVertex, links, vertex.Repr, outerSourceVertex.Repr, links.Repr
    {
      && this !in vertex.Repr && this !in outerSourceVertex.Repr && this !in links.Repr
      && vertex.Repr !! outerSourceVertex.Repr && vertex.Repr !! links.Repr && outerSourceVertex.Repr !! links.Repr
      && vertex.Valid() && outerSourceVertex.Valid() && links.Valid()
      && vertex.persistence == Uncached
      && (upstreamOuterObserverHandle.Some? ==> outerSourceVertex.Issued(upstreamOuterObserverHandle.value))
    }

    /** `inner` may become an inner cell of this vertex: the links admit it, and it shares no state with the rest. */
    ghost predicate Fits(inner: WarmCellVertex<V>)
      reads this, vertex, outerSourceVertex, links, links.Repr, inner, inner.Repr
    {
      && links.Admits(inner)
      && this !in inner.Repr && inner.Repr !! vertex.Repr && inner.Repr !! outerSourceVertex.Repr
    }

    /** The inner cell an activation links as the new one: that of the outer update, else that of the outer old value. */
    ghost function NewCandidate(outerComputed: WarmCellVertex<V>): WarmCellVertex<V>
      reads outerSourceVertex
    {
      if outerSourceVertex.ongoingUpdate.Some? then outerSourceVertex.ongoingUpdate.value.updatedValue
      else outerSourceVertex.OldValue(outerComputed)
    }

    /** `inner` shares no state with the vertex, its outer cell or its (unlinked) links object. */
    ghost predicate Loose(inner: WarmCellVertex<V>)
      reads this, vertex, outerSourceVertex, inner, inner.Repr
    {
      && inner.Valid() && this !in inner.Repr && links !in inner.Repr
      && inner.Repr !! vertex.Repr && inner.Repr !! outerSourceVertex.Repr
    }

    /** `inner` stays loose while it, its representation and the representations it is apart from do not change. */
    twostate lemma LooseKept(inner: WarmCellVertex<V>)
      requires old(Loose(inner)) && unchanged(inner) && unchanged(old(inner.Repr))
      requires vertex.Repr == old(vertex.Repr) && outerSourceVertex.Repr == old(outerSourceVertex.Repr)
      ensures Loose(inner)
    {
      inner.Framed();
    }

    /** The inner cells that an activation resolves share no state with the rest, and are the same cell or apart. */
    ghost predicate Resolvable(outerComputed: WarmCellVertex<V>)
      reads this, vertex, outerSourceVertex, outerSourceVertex.OldValue(outerComputed),
        outerSourceVertex.OldValue(outerComputed).Repr, NewCandidate(outerComputed), NewCandidate(outerComputed).Repr
    {
      && Loose(outerSourceVertex.OldValue(outerComputed))
      && Loose(NewCandidate(outerComputed))
      && Separate(outerSourceVertex.OldValue(outerComputed), NewCandidate(outerComputed))
    }

    /** A transaction's context is part of no representation the vertex depends on. */
    lemma ContextApart(context: PropagationContext)
      requires Valid()
      ensures context !in vertex.Repr && context !in outerSourceVertex.Repr && context !in links.Repr
    {
      vertex.ContextOutside(context);
      outerSourceVertex.ContextOutside(context);
      links.ContextOutside(context);
    }

    /** The constructor: inactive, linked to nothing. */
    constructor (outerSourceVertex: WarmCellVertex<WarmCellVertex<V>>)
      requires outerSourceVertex.Valid()
      ensures Valid() && this.outerSourceVertex == outerSourceVertex && fresh(vertex.Repr) && fresh(links.Repr)
      ensures upstreamOuterObserverHandle.None? && links.upstreamNewInnerObserverHandle.None?
      ensures links.stableInnerSourceVertex.None? && links.updatedInnerSourceVertex.None?
      ensures vertex.ongoingUpdate.None? && vertex.observers.Elements() == []
    {
      vertex := new WarmCellVertex.WithoutCache();
      this.outerSourceVertex := outerSourceVertex;
      innerSourceObserver := new InnerSourceObserver();
      links := new InnerLinks();
      upstreamOuterObserverHandle := None;
    }

    /** `exposeAndPropagateUpdate` of the inherited cell state. */
    method ExposeAndPropagate(context: PropagationContext, update: Option<Update<V>>, unreachable: object -> bool)
      returns (notified: seq<object>)
      requires Valid() && context.Valid()
      modifies vertex.Repr, context
      ensures Valid() && context.Valid() && vertex.Repr == old(vertex.Repr)
      ensures vertex.ongoingUpdate == update
      ensures notified == old(vertex.observers.Elements())
      ensures vertex.isEnqueuedForCommitment && context.verticesToCommit == old(context.verticesToCommit) + (if old(vertex.isEnqueuedForCommitment) then [] else [vertex])
      ensures context.sideEffects == old(context.sideEffects)
    {
      ContextApart(context);
      notified := vertex.ExposeAndPropagateUpdate(context, update, unreachable);
    }

    /**
     * The inner observer's `handleUpdate`: an inner update is passed on; an
     * inner revocation by the updated inner cell falls back to that cell's
     * old value, and one by the stable inner cell revokes. Either way the
     * result is exposed and propagated.
     */
    method HandleInnerUpdate(context: PropagationContext, update: Option<Update<V>>, innerComputed: V, unreachable: object -> bool)
      returns (notified: seq<object>)
      requires Valid() && context.Valid()
      modifies vertex.Repr, links.Repr, context
      ensures Valid() && context.Valid() && vertex.Repr == old(vertex.Repr) && links.Repr == old(links.Repr)
      ensures update.Some? ==> vertex.ongoingUpdate == update
      ensures update.None? && old(links.updatedInnerSourceVertex).None? ==> vertex.ongoingUpdate.None?
      ensures update.None? && old(links.updatedInnerSourceVertex).Some? ==>
        vertex.ongoingUpdate == Some(Update(old(links.updatedInnerSourceVertex.value.OldValue(innerComputed))))
      ensures notified == old(vertex.observers.Elements())
      ensures vertex.isEnqueuedForCommitment
      ensures update.None? && old(links.updatedInnerSourceVertex).Some? ==>
        context.verticesToCommit == old(context.verticesToCommit) + old(links.updatedInnerSourceVertex.value.ReadEnqueues()) + (if old(vertex.isEnqueuedForCommitment) then [] else [vertex])
      ensures !(update.None? && old(links.updatedInnerSourceVertex).Some?) ==> context.verticesToCommit == old(context.verticesToCommit) + (if old(vertex.isEnqueuedForCommitment) then [] else [vertex])
      ensures context.sideEffects == old(context.sideEffects)
    {
      if update.None? && links.updatedInnerSourceVertex.Some? {
        notified := FallBackToUpdatedOldValue(context, innerComputed, unreachable);
      } else {
        notified := ExposeAndPropagate(context, update, unreachable);
      }
    }

    /** The correction for a revocation by the updated inner cell: its old value, exposed and propagated. */
    method FallBackToUpdatedOldValue(context: PropagationContext, innerComputed: V, unreachable: object -> bool)
      returns (notified: seq<object>)
      requires Valid() && context.Valid() && links.updatedInnerSourceVertex.Some?
      modifies vertex.Repr, links.updatedInnerSourceVertex.value, context
      ensures Valid() && context.Valid() && vertex.Repr == old(vertex.Repr)
      ensures vertex.ongoingUpdate == Some(Update(old(links.updatedInnerSourceVertex.value.OldValue(innerComputed))))
      ensures notified == old(vertex.observers.Elements())
      ensures vertex.isEnqueuedForCommitment
      ensures context.verticesToCommit == old(context.verticesToCommit) + old(links.updatedInnerSourceVertex.value.ReadEnqueues()) + (if old(vertex.isEnqueuedForCommitment) then [] else [vertex])
      ensures context.sideEffects == old(context.sideEffects)
    {
      ContextApart(context);
      var oldValue := links.UpdatedOldValue(context, innerComputed);
      notified := ExposeAndPropagate(context, Some(Update(oldValue)), unreachable);
    }

    /**
     * `handleUpdate` for an outer revocation: fails unless the outer cell had
     * updated; otherwise moves the subscription back from the updated inner
     * cell to the stable one and exposes the stable cell's ongoing update,
     * which is a revocation if it has none.
     */
    method RevokeOuterUpdate(context: PropagationContext, unreachable: object -> bool)
      returns (status: Status, notified: seq<object>)
      requires Valid() && context.Valid()
      modifies vertex.Repr, links.Repr, context
      ensures Valid() && context.Valid() && vertex.Repr == old(vertex.Repr)
      ensures links.stableInnerSourceVertex == old(links.stableInnerSourceVertex)
      ensures old(links.updatedInnerSourceVertex).None? ==> status == Failed(OuterNotUpdated)
      ensures old(links.updatedInnerSourceVertex).Some? ==>
        (status == Done <==>
           (&& old(links.upstreamNewInnerObserverHandle).Some?
            && old(links.updatedInnerSourceVertex.value.observers.Holds(links.upstreamNewInnerObserverHandle.value.internalHandle))))
      ensures status.Failed? ==> vertex.ongoingUpdate == old(vertex.ongoingUpdate) && notified == []
      ensures status == Done ==>
        && links.updatedInnerSourceVertex.None?
        && links.upstreamNewInnerObserverHandle.Some?
        && links.stableInnerSourceVertex.value.observers.Holds(links.upstreamNewInnerObserverHandle.value.internalHandle)
        && vertex.ongoingUpdate == old(links.stableInnerSourceVertex.value.ongoingUpdate)
        && notified == old(vertex.observers.Elements())
        && vertex.isEnqueuedForCommitment && context.verticesToCommit == old(context.verticesToCommit) + (if old(vertex.isEnqueuedForCommitment) then [] else [vertex])
      ensures status.Failed? ==> context.verticesToCommit == old(context.verticesToCommit)
      ensures context.sideEffects == old(context.sideEffects)
    {
      if links.updatedInnerSourceVertex.None? {
        return Failed(OuterNotUpdated), [];
      }
      if links.upstreamNewInnerObserverHandle.None? {
        return Failed(NotActive), [];
      }
      ContextApart(context);
      status := links.DetachNewInner();
      if status.Failed? {
        return status, [];
      }
      notified := ReturnToStable(context, unreachable);
    }

    /** Registers with the stable inner cell again and exposes its ongoing update. */
    method ReturnToStable(context: PropagationContext, unreachable: object -> bool) returns (notified: seq<object>)
      requires Valid() && context.Valid()
      requires links.stableInnerSourceVertex.Some? && links.upstreamNewInnerObserverHandle.None?
      modifies vertex.Repr, links.Repr, context
      ensures Valid() && context.Valid() && vertex.Repr == old(vertex.Repr)
      ensures links.stableInnerSourceVertex == old(links.stableInnerSourceVertex) && links.updatedInnerSourceVertex.None?
      ensures links.upstreamNewInnerObserverHandle.Some?
      ensures links.stableInnerSourceVertex.value.observers.Holds(links.upstreamNewInnerObserverHandle.value.internalHandle)
      ensures vertex.ongoingUpdate == old(links.stableInnerSourceVertex.value.ongoingUpdate)
      ensures notified == old(vertex.observers.Elements())
      ensures vertex.isEnqueuedForCommitment && context.verticesToCommit == old(context.verticesToCommit) + (if old(vertex.isEnqueuedForCommitment) then [] else [vertex])
      ensures context.sideEffects == old(context.sideEffects)
    {
      ContextApart(context);
      links.RelinkStable(innerSourceObserver);
      notified := ExposeAndPropagate(context, links.stableInnerSourceVertex.value.ongoingUpdate, unreachable);
    }

    /**
     * `handleUpdate` for an outer update carrying the inner cell `handled`:
     * fails while inactive; ignored if `handled` already is the new inner
     * cell; otherwise the subscription moves from the previous new inner
     * cell to `handled`, which becomes the updated inner cell, and its new
     * value is exposed and propagated.
     */
    method SwitchTo(context: PropagationContext, handled: WarmCellVertex<V>, innerComputed: V, unreachable: object -> bool)
      returns (status: Status, notified: seq<object>)
      requires Valid() && context.Valid() && Fits(handled)
      modifies vertex.Repr, links.Repr, handled.Repr, context
      ensures Valid() && context.Valid() && vertex.Repr == old(vertex.Repr)
      ensures links.stableInnerSourceVertex == old(links.stableInnerSourceVertex)
      ensures old(links.stableInnerSourceVertex).None? ==>
        status == Failed(NotActive) && vertex.ongoingUpdate == old(vertex.ongoingUpdate) && notified == []
      ensures old(links.stableInnerSourceVertex).Some? && old(links.NewInner()).value == handled ==>
        && status == Done && notified == []
        && vertex.ongoingUpdate == old(vertex.ongoingUpdate)
        && links.updatedInnerSourceVertex == old(links.updatedInnerSourceVertex)
        && links.upstreamNewInnerObserverHandle == old(links.upstreamNewInnerObserverHandle)
      ensures old(links.stableInnerSourceVertex).Some? && old(links.NewInner()).value != handled ==>
        (status == Done <==>
           (&& old(links.upstreamNewInnerObserverHandle).Some?
            && old(links.NewInner().value.observers.Holds(links.upstreamNewInnerObserverHandle.value.internalHandle))))
      ensures status.Failed? ==> vertex.ongoingUpdate == old(vertex.ongoingUpdate) && notified == []
      ensures status == Done && old(links.NewInner()) != Some(handled) ==>
        && links.updatedInnerSourceVertex == Some(handled)
        && links.upstreamNewInnerObserverHandle.Some?
        && handled.observers.Holds(links.upstreamNewInnerObserverHandle.value.internalHandle)
        && vertex.ongoingUpdate == Some(Update(NewValue(old(handled.ongoingUpdate), old(handled.OldValue(innerComputed)))))
        && notified == old(vertex.observers.Elements())
        && vertex.isEnqueuedForCommitment && context.verticesToCommit == old(context.verticesToCommit) + SwitchEnqueues(handled, old(handled.ongoingUpdate), old(handled.retained), old(handled.isEnqueuedForCommitment)) + (if old(vertex.isEnqueuedForCommitment) then [] else [vertex])
      ensures status.Failed? || old(links.NewInner()) == Some(handled) ==> context.verticesToCommit == old(context.verticesToCommit)
      ensures context.sideEffects == old(context.sideEffects)
    {
      if links.stableInnerSourceVertex.None? {
        return Failed(NotActive), [];
      }
      if links.NewInner().value == handled {
        return Done, [];
      }
      if links.upstreamNewInnerObserverHandle.None? {
        return Failed(NotActive), [];
      }
      status, notified := Rewire(context, handled, innerComputed, unreachable);
    }

    /** Moves the subscription from the new inner cell to `handled`, another cell, unless the new one refuses the handle. */
    method Rewire(context: PropagationContext, handled: WarmCellVertex<V>, innerComputed: V, unreachable: object -> bool)
      returns (status: Status, notified: seq<object>)
      requires Valid() && context.Valid() && Fits(handled)
      requires links.upstreamNewInnerObserverHandle.Some? && links.NewInner() != Some(handled)
      modifies vertex.Repr, links.Repr, handled.Repr, context
      ensures Valid() && context.Valid() && vertex.Repr == old(vertex.Repr)
      ensures links.stableInnerSourceVertex == old(links.stableInnerSourceVertex)
      ensures status == Done <==> old(links.NewInner().value.observers.Holds(links.upstreamNewInnerObserverHandle.value.internalHandle))
      ensures status.Failed? ==> vertex.ongoingUpdate == old(vertex.ongoingUpdate) && notified == []
      ensures status == Done ==>
        && links.updatedInnerSourceVertex == Some(handled)
        && links.upstreamNewInnerObserverHandle.Some?
        && handled.observers.Holds(links.upstreamNewInnerObserverHandle.value.internalHandle)
        && vertex.ongoingUpdate == Some(Update(NewValue(old(handled.ongoingUpdate), old(handled.OldValue(innerComputed)))))
        && notified == old(vertex.observers.Elements())
        && vertex.isEnqueuedForCommitment && context.verticesToCommit == old(context.verticesToCommit) + SwitchEnqueues(handled, old(handled.ongoingUpdate), old(handled.retained), old(handled.isEnqueuedForCommitment)) + (if old(vertex.isEnqueuedForCommitment) then [] else [vertex])
      ensures status.Failed? ==> context.verticesToCommit == old(context.verticesToCommit)
      ensures context.sideEffects == old(context.sideEffects)
    {
      ContextApart(context);
      status := DetachFor(handled, innerComputed);
      if status.Failed? {
        return status, [];
      }
      notified := MoveTo(context, handled, innerComputed, unreachable);
    }

    /** Unregisters from the new inner cell ahead of a switch to `handled`, which stays as it was. */
    method DetachFor(handled: WarmCellVertex<V>, ghost innerComputed: V) returns (status: Status)
      requires Valid() && Fits(handled)
      requires links.upstreamNewInnerObserverHandle.Some? && links.NewInner() != Some(handled)
      modifies links.Repr
      ensures Valid() && Fits(handled) && vertex.Repr == old(vertex.Repr)
      ensures links.Repr == old(links.Repr) && handled.Repr == old(handled.Repr)
      ensures links.stableInnerSourceVertex == old(links.stableInnerSourceVertex)
      ensures status == Done <==> old(links.NewInner().value.observers.Holds(links.upstreamNewInnerObserverHandle.value.internalHandle))
      ensures status == Done ==> links.upstreamNewInnerObserverHandle.None?
      ensures handled.ongoingUpdate == old(handled.ongoingUpdate) && handled.OldValue(innerComputed) == old(handled.OldValue(innerComputed))
      ensures handled.retained == old(handled.retained) && handled.isEnqueuedForCommitment == old(handled.isEnqueuedForCommitment)
      ensures vertex.ongoingUpdate == old(vertex.ongoingUpdate) && vertex.observers.Elements() == old(vertex.observers.Elements())
      ensures vertex.isEnqueuedForCommitment == old(vertex.isEnqueuedForCommitment)
    {
      status := links.DetachBefore(handled, innerComputed);
    }

    /** Links `handled` as the updated inner cell, registers with it and exposes its new value. */
    method MoveTo(context: PropagationContext, handled: WarmCellVertex<V>, innerComputed: V, unreachable: object -> bool)
      returns (notified: seq<object>)
      requires Valid() && context.Valid() && Fits(handled)
      requires links.stableInnerSourceVertex.Some? && links.upstreamNewInnerObserverHandle.None?
      modifies vertex.Repr, links.Repr, handled.Repr, context
      ensures Valid() && context.Valid() && vertex.Repr == old(vertex.Repr)
      ensures links.stableInnerSourceVertex == old(links.stableInnerSourceVertex)
      ensures links.updatedInnerSourceVertex == Some(handled)
      ensures links.upstreamNewInnerObserverHandle.Some?
      ensures handled.observers.Holds(links.upstreamNewInnerObserverHandle.value.internalHandle)
      ensures vertex.ongoingUpdate == Some(Update(NewValue(old(handled.ongoingUpdate), old(handled.OldValue(innerComputed)))))
      ensures notified == old(vertex.observers.Elements())
      ensures vertex.isEnqueuedForCommitment && context.verticesToCommit == old(context.verticesToCommit) + SwitchEnqueues(handled, old(handled.ongoingUpdate), old(handled.retained), old(handled.isEnqueuedForCommitment)) + (if old(vertex.isEnqueuedForCommitment) then [] else [vertex])
      ensures context.sideEffects == old(context.sideEffects)
    {
      ContextApart(context);
      handled.ContextOutside(context);
      LinkHandled(handled, innerComputed);
      notified := ExposeNewValue(context, innerComputed, unreachable);
    }

    /** Links `handled` as the updated inner cell and registers with it. */
    method LinkHandled(handled: WarmCellVertex<V>, ghost innerComputed: V)
      requires Valid() && Fits(handled)
      requires links.stableInnerSourceVertex.Some? && links.upstreamNewInnerObserverHandle.None?
      modifies links.Repr, handled.Repr
      ensures Valid() && vertex.Repr == old(vertex.Repr)
      ensures links.stableInnerSourceVertex == old(links.stableInnerSourceVertex)
      ensures links.updatedInnerSourceVertex == Some(handled)
      ensures links.upstreamNewInnerObserverHandle.Some?
      ensures handled.observers.Holds(links.upstreamNewInnerObserverHandle.value.internalHandle)
      ensures handled.ongoingUpdate == old(handled.ongoingUpdate) && handled.OldValue(innerComputed) == old(handled.OldValue(innerComputed))
      ensures handled.retained == old(handled.retained) && handled.isEnqueuedForCommitment == old(handled.isEnqueuedForCommitment)
      ensures vertex.isEnqueuedForCommitment == old(vertex.isEnqueuedForCommitment)
    {
      links.LinkUpdated(handled, innerSourceObserver);
    }

    /** `getNewValue` of the updated inner cell, exposed and propagated as an update. */
    method ExposeNewValue(context: PropagationContext, innerComputed: V, unreachable: object -> bool)
      returns (notified: seq<object>)
      requires Valid() && context.Valid() && links.updatedInnerSourceVertex.Some?
      modifies vertex.Repr, links.updatedInnerSourceVertex.value, context
      ensures Valid() && context.Valid() && vertex.Repr == old(vertex.Repr)
      ensures vertex.ongoingUpdate == Some(Update(NewValue(old(links.updatedInnerSourceVertex.value.ongoingUpdate),
                                                           old(links.updatedInnerSourceVertex.value.OldValue(innerComputed)))))
      ensures links.updatedInnerSourceVertex.value.observers.list.nodes == old(links.updatedInnerSourceVertex.value.observers.list.nodes)
      ensures notified == old(vertex.observers.Elements())
      ensures vertex.isEnqueuedForCommitment
      ensures context.verticesToCommit == old(context.verticesToCommit)
        + SwitchEnqueues(links.updatedInnerSourceVertex.value, old(links.updatedInnerSourceVertex.value.ongoingUpdate),
                         old(links.updatedInnerSourceVertex.value.retained), old(links.updatedInnerSourceVertex.value.isEnqueuedForCommitment))
        + (if old(vertex.isEnqueuedForCommitment) then [] else [vertex])
      ensures context.sideEffects == old(context.sideEffects)
    {
      ContextApart(context);
      links.updatedInnerSourceVertex.value.BagInRepr();
      var newValue := links.UpdatedNewValue(context, innerComputed);
      notified := ExposeAndPropagate(context, Some(Update(newValue)), unreachable);
    }

    /**
     * `handleUpdate` of the outer observer: a revocation returns to the
     * stable inner cell, an update switches to the inner cell it carries.
     */
    method HandleUpdate(context: PropagationContext, update: Option<Update<WarmCellVertex<V>>>, innerComputed: V, unreachable: object -> bool)
      returns (status: Status, notified: seq<object>)
      requires Valid() && context.Valid()
      requires update.Some? ==> Fits(update.value.updatedValue)
      modifies vertex.Repr, links.Repr, if update.Some? then update.value.updatedValue.Repr else {}, context
      ensures Valid() && context.Valid() && vertex.Repr == old(vertex.Repr)
      ensures links.stableInnerSourceVertex == old(links.stableInnerSourceVertex)
      ensures update.None? && old(links.updatedInnerSourceVertex).None? ==> status == Failed(OuterNotUpdated)
      ensures update.None? && status == Done ==>
        && links.updatedInnerSourceVertex.None?
        && vertex.ongoingUpdate == old(links.stableInnerSourceVertex.value.ongoingUpdate)
      ensures update.Some? && status == Done && old(links.NewInner()) != Some(update.value.updatedValue) ==>
        && links.updatedInnerSourceVertex == Some(update.value.updatedValue)
        && vertex.ongoingUpdate == Some(Update(NewValue(old(update.value.updatedValue.ongoingUpdate),
                                                        old(update.value.updatedValue.OldValue(innerComputed)))))
      ensures status.Failed? ==> vertex.ongoingUpdate == old(vertex.ongoingUpdate) && notified == []
      ensures status == Done && notified != [] ==> notified == old(vertex.observers.Elements())
      ensures update.None? && status == Done ==> vertex.isEnqueuedForCommitment && context.verticesToCommit == old(context.verticesToCommit) + (if old(vertex.isEnqueuedForCommitment) then [] else [vertex])
      ensures update.Some? && status == Done && old(links.NewInner()) != Some(update.value.updatedValue) ==>
        && vertex.isEnqueuedForCommitment
        && context.verticesToCommit == old(context.verticesToCommit)
           + SwitchEnqueues(update.value.updatedValue, old(update.value.updatedValue.ongoingUpdate), old(update.value.updatedValue.retained),
                            old(update.value.updatedValue.isEnqueuedForCommitment))
           + (if old(vertex.isEnqueuedForCommitment) then [] else [vertex])
      ensures status.Failed? || (update.Some? && old(links.NewInner()) == Some(update.value.updatedValue)) ==> context.verticesToCommit == old(context.verticesToCommit)
      ensures context.sideEffects == old(context.sideEffects)
    {
      match update
      case None =>
        status, notified := RevokeOuterUpdate(context, unreachable);
      case Some(u) =>
        status, notified := SwitchTo(context, u.updatedValue, innerComputed, unreachable);
    }

    /**
     * `activate`: refused if any link is already set; otherwise registers
     * with the outer cell, links the inner cell of its old value as the
     * stable one and that of its ongoing update, if any, as the updated
     * one, registers with the new inner cell and returns that cell's
     * ongoing update. `outerComputed` stands for the outer cell's own
     * computation of its old value.
     */
    method Activate(context: PropagationContext, outerComputed: WarmCellVertex<V>) returns (r: Result<Option<Update<V>>>)
      requires Valid() && context.Valid() && Resolvable(outerComputed)
      modifies this, outerSourceVertex.Repr, links.Repr, NewCandidate(outerComputed).Repr, context
      ensures Valid() && context.Valid() && vertex.Repr == old(vertex.Repr)
      ensures (|| old(upstreamOuterObserverHandle).Some? || old(links.stableInnerSourceVertex).Some?
               || old(links.upstreamNewInnerObserverHandle).Some?) ==>
        && r == Failure(AlreadyActive)
        && upstreamOuterObserverHandle == old(upstreamOuterObserverHandle)
        && links.stableInnerSourceVertex == old(links.stableInnerSourceVertex)
        && links.upstreamNewInnerObserverHandle == old(links.upstreamNewInnerObserverHandle)
        && context.verticesToCommit == old(context.verticesToCommit)
      ensures (&& old(upstreamOuterObserverHandle).None? && old(links.stableInnerSourceVertex).None?
               && old(links.upstreamNewInnerObserverHandle).None?) ==>
        && r == Success(old(NewCandidate(outerComputed).ongoingUpdate))
        && context.verticesToCommit == old(context.verticesToCommit) + old(outerSourceVertex.ReadEnqueues())
        && upstreamOuterObserverHandle.Some?
        && outerSourceVertex.observers.Holds(upstreamOuterObserverHandle.value.internalHandle)
        && links.stableInnerSourceVertex == Some(old(outerSourceVertex.OldValue(outerComputed)))
        && links.NewInner() == Some(old(NewCandidate(outerComputed)))
        && (links.updatedInnerSourceVertex.Some? <==> old(outerSourceVertex.ongoingUpdate).Some?)
        && links.upstreamNewInnerObserverHandle.Some?
        && links.NewInner().value.observers.Holds(links.upstreamNewInnerObserverHandle.value.internalHandle)
      ensures vertex.ongoingUpdate == old(vertex.ongoingUpdate)
      ensures vertex.isEnqueuedForCommitment == old(vertex.isEnqueuedForCommitment)
      ensures context.sideEffects == old(context.sideEffects)
    {
      if upstreamOuterObserverHandle.Some? || links.stableInnerSourceVertex.Some? || links.upstreamNewInnerObserverHandle.Some? {
        return Failure(AlreadyActive);
      }
      var stable, updated := ResolveInners(context, outerComputed);
      var activation := LinkAndRegister(context, stable, updated);
      r := Success(activation);
    }

    /** Links the resolved inner cells, registers with the new one and with the outer cell, and returns the new one's ongoing update. */
    method LinkAndRegister(context: PropagationContext, stable: WarmCellVertex<V>, updated: Option<WarmCellVertex<V>>)
      returns (activation: Option<Update<V>>)
      requires Valid() && context.Valid() && upstreamOuterObserverHandle.None?
      requires links.stableInnerSourceVertex.None? && links.upstreamNewInnerObserverHandle.None?
      requires Loose(stable) && (updated.Some? ==> Loose(updated.value) && Separate(stable, updated.value))
      modifies this, outerSourceVertex.Repr, links.Repr, if updated.Some? then updated.value.Repr else stable.Repr
      ensures Valid() && context.Valid() && context.sideEffects == old(context.sideEffects)
      ensures vertex.Repr == old(vertex.Repr) && vertex.ongoingUpdate == old(vertex.ongoingUpdate)
      ensures vertex.isEnqueuedForCommitment == old(vertex.isEnqueuedForCommitment) && context.verticesToCommit == old(context.verticesToCommit)
      ensures activation == old(if updated.Some? then updated.value.ongoingUpdate else stable.ongoingUpdate)
      ensures upstreamOuterObserverHandle.Some?
      ensures outerSourceVertex.observers.Holds(upstreamOuterObserverHandle.value.internalHandle)
      ensures links.stableInnerSourceVertex == Some(stable) && links.updatedInnerSourceVertex == updated
      ensures links.upstreamNewInnerObserverHandle.Some?
      ensures links.NewInner().value.observers.Holds(links.upstreamNewInnerObserverHandle.value.internalHandle)
    {
      ContextApart(context);
      stable.ContextOutside(context);
      if updated.Some? {
        updated.value.ContextOutside(context);
      }
      LinkInners(stable, updated);
      activation := links.NewInner().value.ongoingUpdate;
      RegisterOuter(context);
    }

    /** Registers with the outer cell. */
    method RegisterOuter(context: PropagationContext)
      requires Valid() && context.Valid() && upstreamOuterObserverHandle.None?
      modifies this, outerSourceVertex.Repr
      ensures Valid() && fresh(outerSourceVertex.Repr - old(outerSourceVertex.Repr))
      ensures context.Valid() && context.sideEffects == old(context.sideEffects)
      ensures upstreamOuterObserverHandle.Some?
      ensures outerSourceVertex.observers.Holds(upstreamOuterObserverHandle.value.internalHandle)
      ensures outerSourceVertex.ongoingUpdate == old(outerSourceVertex.ongoingUpdate)
      ensures outerSourceVertex.retained == old(outerSourceVertex.retained)
      ensures vertex.Repr == old(vertex.Repr) && vertex.ongoingUpdate == old(vertex.ongoingUpdate)
      ensures links.stableInnerSourceVertex == old(links.stableInnerSourceVertex)
      ensures links.updatedInnerSourceVertex == old(links.updatedInnerSourceVertex)
      ensures links.upstreamNewInnerObserverHandle == old(links.upstreamNewInnerObserverHandle)
      ensures (&& links.upstreamNewInnerObserverHandle.Some? && links.stableInnerSourceVertex.Some?
               && old(links.NewInner().value.observers.Holds(links.upstreamNewInnerObserverHandle.value.internalHandle))) ==>
        links.NewInner().value.observers.Holds(links.upstreamNewInnerObserverHandle.value.internalHandle)
    {
      ContextApart(context);
      var handle, outerFirst := outerSourceVertex.RegisterObserver(this);
      upstreamOuterObserverHandle := Some(handle);
      links.Framed();
      vertex.Framed();
    }

    /** The outer cell's old value and the inner cell of its ongoing update, if any. */
    method ResolveInners(context: PropagationContext, outerComputed: WarmCellVertex<V>)
      returns (stable: WarmCellVertex<V>, updated: Option<WarmCellVertex<V>>)
      requires Valid() && context.Valid() && Resolvable(outerComputed)
      requires links.stableInnerSourceVertex.None?
      modifies outerSourceVertex, context
      ensures Valid() && context.Valid() && outerSourceVertex.Repr == old(outerSourceVertex.Repr)
      ensures links.stableInnerSourceVertex.None?
      ensures stable == old(outerSourceVertex.OldValue(outerComputed))
      ensures updated.Some? <==> outerSourceVertex.ongoingUpdate.Some?
      ensures updated.Some? ==> updated.value == outerSourceVertex.ongoingUpdate.value.updatedValue
      ensures old(NewCandidate(outerComputed)) == if updated.Some? then updated.value else stable
      ensures (if updated.Some? then updated.value else stable).ongoingUpdate == old(NewCandidate(outerComputed).ongoingUpdate)
      ensures vertex.Repr == old(vertex.Repr) && vertex.ongoingUpdate == old(vertex.ongoingUpdate)
      ensures Loose(stable) && (updated.Some? ==> Loose(updated.value) && Separate(stable, updated.value))
      ensures outerSourceVertex.ongoingUpdate == old(outerSourceVertex.ongoingUpdate)
      ensures outerSourceVertex.observers.list.nodes == old(outerSourceVertex.observers.list.nodes)
      ensures vertex.isEnqueuedForCommitment == old(vertex.isEnqueuedForCommitment)
      ensures context.verticesToCommit == old(context.verticesToCommit) + old(outerSourceVertex.ReadEnqueues())
      ensures context.sideEffects == old(context.sideEffects)
    {
      stable := ResolveOldCell(context, outerComputed, NewCandidate(outerComputed));
      updated := if outerSourceVertex.ongoingUpdate.Some? then Some(outerSourceVertex.ongoingUpdate.value.updatedValue) else None;
    }

    /** Links `stable` and `updated`, and registers with the new inner cell of the two. */
    method LinkInners(stable: WarmCellVertex<V>, updated: Option<WarmCellVertex<V>>)
      requires Valid() && links.stableInnerSourceVertex.None? && links.upstreamNewInnerObserverHandle.None?
      requires Loose(stable) && (updated.Some? ==> Loose(updated.value) && Separate(stable, updated.value))
      modifies links.Repr, if updated.Some? then updated.value.Repr else stable.Repr
      ensures Valid() && vertex.Repr == old(vertex.Repr) && outerSourceVertex.Repr == old(outerSourceVertex.Repr)
      ensures links.stableInnerSourceVertex == Some(stable) && links.updatedInnerSourceVertex == updated
      ensures links.upstreamNewInnerObserverHandle.Some?
      ensures links.NewInner().value.observers.Holds(links.upstreamNewInnerObserverHandle.value.internalHandle)
      ensures links.NewInner().value.ongoingUpdate == old(if updated.Some? then updated.value.ongoingUpdate else stable.ongoingUpdate)
    {
      LinkPair(stable, updated);
      AttachNew();
    }

    /** Links `stable` and `updated` as the stable and the updated inner cell. */
    method LinkPair(stable: WarmCellVertex<V>, updated: Option<WarmCellVertex<V>>)
      requires Valid() && links.stableInnerSourceVertex.None?
      requires Loose(stable) && (updated.Some? ==> Loose(updated.value) && Separate(stable, updated.value))
      modifies links
      ensures Valid() && vertex.Repr == old(vertex.Repr) && outerSourceVertex.Repr == old(outerSourceVertex.Repr)
      ensures links.stableInnerSourceVertex == Some(stable) && links.updatedInnerSourceVertex == updated
      ensures links.upstreamNewInnerObserverHandle.None?
    {
      links.Unlinked();
      links.Link(stable, updated);
      vertex.Framed();
      outerSourceVertex.Framed();
    }

    /** Registers with the new inner cell. */
    method AttachNew()
      requires Valid() && links.stableInnerSourceVertex.Some? && links.upstreamNewInnerObserverHandle.None?
      modifies links, links.NewInner().value.Repr
      ensures Valid() && vertex.Repr == old(vertex.Repr) && outerSourceVertex.Repr == old(outerSourceVertex.Repr)
      ensures links.stableInnerSourceVertex == old(links.stableInnerSourceVertex)
      ensures links.updatedInnerSourceVertex == old(links.updatedInnerSourceVertex)
      ensures links.upstreamNewInnerObserverHandle.Some?
      ensures links.NewInner().value.observers.Holds(links.upstreamNewInnerObserverHandle.value.internalHandle)
      ensures links.NewInner().value.ongoingUpdate == old(links.NewInner().value.ongoingUpdate)
    {
      links.AttachNewInner(innerSourceObserver);
      vertex.Framed();
      outerSourceVertex.Framed();
    }

    /**
     * `deactivate`: refused unless the outer handle, the stable inner cell
     * and the inner handle are all set; otherwise unregisters from the outer
     * cell and forgets that handle, then unregisters from the new inner cell
     * and forgets every link. A refused unregistration stops it there.
     */
    method Deactivate() returns (status: Status)
      requires Valid()
      modifies this, outerSourceVertex.Repr, links.Repr
      ensures Valid() && vertex.Repr == old(vertex.Repr) && outerSourceVertex.Repr == old(outerSourceVertex.Repr)
      ensures links.Repr <= old(links.Repr)
      ensures (|| old(upstreamOuterObserverHandle).None? || old(links.stableInnerSourceVertex).None?
               || old(links.upstreamNewInnerObserverHandle).None?) ==>
        && status == Failed(NotActive)
        && upstreamOuterObserverHandle == old(upstreamOuterObserverHandle)
        && links.upstreamNewInnerObserverHandle == old(links.upstreamNewInnerObserverHandle)
      ensures status == Done <==>
        (&& old(upstreamOuterObserverHandle).Some? && old(links.stableInnerSourceVertex).Some?
         && old(links.upstreamNewInnerObserverHandle).Some?
         && old(outerSourceVertex.observers.Holds(upstreamOuterObserverHandle.value.internalHandle))
         && old(links.NewInner().value.observers.Holds(links.upstreamNewInnerObserverHandle.value.internalHandle)))
      ensures status == Done ==>
        && upstreamOuterObserverHandle.None?
        && links.stableInnerSourceVertex.None? && links.updatedInnerSourceVertex.None?
        && links.upstreamNewInnerObserverHandle.None?
        && !outerSourceVertex.observers.Holds(old(upstreamOuterObserverHandle).value.internalHandle)
        && var h := old(links.upstreamNewInnerObserverHandle.value);
           h.WarmObserverHandle? && !old(links.NewInner()).value.observers.Holds(h.internalHandle)
      ensures outerSourceVertex.ongoingUpdate == old(outerSourceVertex.ongoingUpdate)
    {
      if upstreamOuterObserverHandle.None? || links.stableInnerSourceVertex.None? || links.upstreamNewInnerObserverHandle.None? {
        return Failed(NotActive);
      }
      status := DetachOuter();
      if status.Failed? {
        return;
      }
      status := Unlink();
    }

    /** Unregisters from the new inner cell and, unless refused, forgets every link. */
    method Unlink() returns (status: Status)
      requires Valid() && links.upstreamNewInnerObserverHandle.Some?
      modifies links.Repr
      ensures Valid() && vertex.Repr == old(vertex.Repr) && outerSourceVertex.Repr == old(outerSourceVertex.Repr)
      ensures links.Repr <= old(links.Repr)
      ensures status == Done <==> old(links.NewInner().value.observers.Holds(links.upstreamNewInnerObserverHandle.value.internalHandle))
      ensures status == Done ==>
        links.stableInnerSourceVertex.None? && links.updatedInnerSourceVertex.None? && links.upstreamNewInnerObserverHandle.None?
      ensures status.Failed? ==> links.upstreamNewInnerObserverHandle == old(links.upstreamNewInnerObserverHandle)
      ensures var h := old(links.upstreamNewInnerObserverHandle.value);
        h.WarmObserverHandle? && !old(links.NewInner()).value.observers.Holds(h.internalHandle)
      ensures outerSourceVertex.ongoingUpdate == old(outerSourceVertex.ongoingUpdate)
      ensures outerSourceVertex.observers.list.nodes == old(outerSourceVertex.observers.list.nodes)
    {
      outerSourceVertex.BagInRepr();
      status := links.DetachNewInner();
      if status == Done {
        links.Clear();
      }
      vertex.Framed();
      outerSourceVertex.Framed();
    }

    /** Unregisters from the outer cell and forgets the handle (unless refused). */
    method DetachOuter() returns (status: Status)
      requires Valid() && upstreamOuterObserverHandle.Some?
      modifies this, outerSourceVertex.Repr
      ensures Valid() && outerSourceVertex.Repr == old(outerSourceVertex.Repr)
      ensures status == Done <==> old(outerSourceVertex.observers.Holds(upstreamOuterObserverHandle.value.internalHandle))
      ensures var h := old(upstreamOuterObserverHandle.value);
        h.WarmObserverHandle? && !outerSourceVertex.observers.Holds(h.internalHandle)
      ensures status == Done ==> upstreamOuterObserverHandle.None?
      ensures status.Failed? ==> upstreamOuterObserverHandle == old(upstreamOuterObserverHandle)
      ensures outerSourceVertex.ongoingUpdate == old(outerSourceVertex.ongoingUpdate)
      ensures links.stableInnerSourceVertex == old(links.stableInnerSourceVertex)
      ensures links.updatedInnerSourceVertex == old(links.updatedInnerSourceVertex)
      ensures links.upstreamNewInnerObserverHandle == old(links.upstreamNewInnerObserverHandle)
      ensures links.upstreamNewInnerObserverHandle.Some? && links.stableInnerSourceVertex.Some? ==>
        (links.NewInner().value.observers.Holds(links.upstreamNewInnerObserverHandle.value.internalHandle)
         <==> old(links.NewInner().value.observers.Holds(links.upstreamNewInnerObserverHandle.value.internalHandle)))
    {
      var outerLast;
      status, outerLast := outerSourceVertex.UnregisterObserver(upstreamOuterObserverHandle.value);
      if status == Done {
        upstreamOuterObserverHandle := None;
      }
      links.Framed();
      vertex.Framed();
    }

    /**
     * `onFirstObserverRegistered` of a stateless vertex: activates, and
     * exposes (without propagating) the activation update.
     */
    method OnFirstObserverRegistered(context: PropagationContext, outerComputed: WarmCellVertex<V>) returns (status: Status)
      requires Valid() && context.Valid() && Resolvable(outerComputed)
      modifies this, vertex, outerSourceVertex.Repr, links.Repr, NewCandidate(outerComputed).Repr, context
      ensures Valid() && context.Valid() && vertex.Repr == old(vertex.Repr)
      ensures (|| old(upstreamOuterObserverHandle).Some? || old(links.stableInnerSourceVertex).Some?
               || old(links.upstreamNewInnerObserverHandle).Some?) ==>
        status == Failed(AlreadyActive) && vertex.ongoingUpdate == old(vertex.ongoingUpdate) && context.verticesToCommit == old(context.verticesToCommit)
      ensures (&& old(upstreamOuterObserverHandle).None? && old(links.stableInnerSourceVertex).None?
               && old(links.upstreamNewInnerObserverHandle).None?) ==>
        && status == Done
        && upstreamOuterObserverHandle.Some? && links.upstreamNewInnerObserverHandle.Some?
        && links.NewInner() == Some(old(NewCandidate(outerComputed)))
        && vertex.ongoingUpdate == old(NewCandidate(outerComputed).ongoingUpdate)
        && vertex.isEnqueuedForCommitment
        && context.verticesToCommit == old(context.verticesToCommit) + old(outerSourceVertex.ReadEnqueues()) + (if old(vertex.isEnqueuedForCommitment) then [] else [vertex])
      ensures context.sideEffects == old(context.sideEffects)
    {
      var activation := Activate(context, outerComputed);
      if activation.Failure? {
        return Failed(activation.fault);
      }
      Expose(context, activation.value);
      status := Done;
    }

    /** `exposeUpdate` of the inherited cell state, without propagation. */
    method Expose(context: PropagationContext, update: Option<Update<V>>)
      requires Valid() && context.Valid()
      modifies vertex, context
      ensures Valid() && context.Valid() && vertex.Repr == old(vertex.Repr)
      ensures vertex.ongoingUpdate == update
      ensures vertex.isEnqueuedForCommitment && context.verticesToCommit == old(context.verticesToCommit) + (if old(vertex.isEnqueuedForCommitment) then [] else [vertex])
      ensures context.sideEffects == old(context.sideEffects)
      ensures unchanged(this, links)
    {
      ContextApart(context);
      vertex.ExposeUpdate(context, update);
      links.Framed();
      outerSourceVertex.Framed();
    }

    /**
     * `onLastObserverUnregistered` of a stateless vertex: deactivates, and
     * clears the exposed update.
     */
    method OnLastObserverUnregistered() returns (status: Status)
      requires Valid()
      modifies this, vertex, outerSourceVertex.Repr, links.Repr
      ensures Valid() && vertex.Repr == old(vertex.Repr)
      ensures status == Done <==>
        (&& old(upstreamOuterObserverHandle).Some? && old(links.stableInnerSourceVertex).Some?
         && old(links.upstreamNewInnerObserverHandle).Some?
         && old(outerSourceVertex.observers.Holds(upstreamOuterObserverHandle.value.internalHandle))
         && old(links.NewInner().value.observers.Holds(links.upstreamNewInnerObserverHandle.value.internalHandle)))
      ensures status == Done ==>
        && upstreamOuterObserverHandle.None? && links.upstreamNewInnerObserverHandle.None?
        && links.stableInnerSourceVertex.None? && vertex.ongoingUpdate.None?
      ensures status.Failed? ==> vertex.ongoingUpdate == old(vertex.ongoingUpdate)
    {
      status := Deactivate();
      if status.Failed? {
        return;
      }
      vertex.ClearExposedUpdate();
    }

    /**
     * `getOldValue`: while active, the old value of the stable inner cell;
     * while inactive, that of the inner cell of the outer cell's old value
     * (`outerComputed` and `innerComputed` standing for the two cells' own
     * computations).
     */
    method GetOldValue(context: PropagationContext, outerComputed: WarmCellVertex<V>, innerComputed: V) returns (value: V)
      requires Valid() && context.Valid()
      requires links.stableInnerSourceVertex.None? ==> Loose(outerSourceVertex.OldValue(outerComputed))
      modifies outerSourceVertex, context,
        if links.stableInnerSourceVertex.Some? then links.stableInnerSourceVertex.value else outerSourceVertex.OldValue(outerComputed)
      ensures Valid() && context.Valid()
      ensures old(links.stableInnerSourceVertex).Some? ==>
        value == old(links.stableInnerSourceVertex.value.OldValue(innerComputed))
      ensures old(links.stableInnerSourceVertex).None? ==>
        value == old(outerSourceVertex.OldValue(outerComputed).OldValue(innerComputed))
      ensures old(links.stableInnerSourceVertex).Some? ==>
        context.verticesToCommit == old(context.verticesToCommit) + old(links.stableInnerSourceVertex.value.ReadEnqueues())
      ensures old(links.stableInnerSourceVertex).None? ==>
        context.verticesToCommit == old(context.verticesToCommit) + old(outerSourceVertex.ReadEnqueues()) + old(outerSourceVertex.OldValue(outerComputed).ReadEnqueues())
      ensures context.sideEffects == old(context.sideEffects)
    {
      if links.stableInnerSourceVertex.Some? {
        ContextApart(context);
        value := links.StableOldValue(context, innerComputed);
      } else {
        value := InactiveOldValue(context, outerComputed, innerComputed);
      }
    }

    /** `getOldValue` while inactive: the outer cell's old value resolved, then that cell's old value. */
    method InactiveOldValue(context: PropagationContext, outerComputed: WarmCellVertex<V>, innerComputed: V) returns (value: V)
      requires Valid() && context.Valid() && Loose(outerSourceVertex.OldValue(outerComputed))
      requires links.stableInnerSourceVertex.None?
      modifies outerSourceVertex, outerSourceVertex.OldValue(outerComputed), context
      ensures Valid() && context.Valid()
      ensures value == old(outerSourceVertex.OldValue(outerComputed).OldValue(innerComputed))
      ensures context.verticesToCommit == old(context.verticesToCommit) + old(outerSourceVertex.ReadEnqueues()) + old(outerSourceVertex.OldValue(outerComputed).ReadEnqueues())
      ensures context.sideEffects == old(context.sideEffects)
    {
      var cell := ResolveOldCell(context, outerComputed, outerSourceVertex.OldValue(outerComputed));
      value := CellOldValue(context, cell, innerComputed);
    }

    /**
     * `outerSourceVertex.getOldValue`, the inner cell of the outer cell's
     * old value, while inactive; `other`, another loose cell, stays as it was.
     */
    method ResolveOldCell(context: PropagationContext, outerComputed: WarmCellVertex<V>, ghost other: WarmCellVertex<V>)
      returns (cell: WarmCellVertex<V>)
      requires Valid() && context.Valid() && Loose(outerSourceVertex.OldValue(outerComputed)) && Loose(other)
      requires links.stableInnerSourceVertex.None?
      modifies outerSourceVertex, context
      ensures Valid() && context.Valid() && links.stableInnerSourceVertex.None?
      ensures vertex.Repr == old(vertex.Repr) && vertex.ongoingUpdate == old(vertex.ongoingUpdate)
      ensures outerSourceVertex.Repr == old(outerSourceVertex.Repr)
      ensures outerSourceVertex.ongoingUpdate == old(outerSourceVertex.ongoingUpdate)
      ensures outerSourceVertex.observers.list.nodes == old(outerSourceVertex.observers.list.nodes)
      ensures cell == old(outerSourceVertex.OldValue(outerComputed)) && Loose(cell)
      ensures cell.retained == old(cell.retained) && cell.ongoingUpdate == old(cell.ongoingUpdate)
      ensures cell.isEnqueuedForCommitment == old(cell.isEnqueuedForCommitment)
      ensures Loose(other) && other.retained == old(other.retained) && other.ongoingUpdate == old(other.ongoingUpdate)
      ensures context.verticesToCommit == old(context.verticesToCommit) + old(outerSourceVertex.ReadEnqueues())
      ensures context.sideEffects == old(context.sideEffects)
    {
      links.Unlinked();
      ContextApart(context);
      outerSourceVertex.BagInRepr();
      cell := outerSourceVertex.GetOldValue(context, outerComputed);
      links.Framed();
      vertex.Framed();
      LooseKept(cell);
      LooseKept(other);
    }

    /** `getOldValue` of an inner cell that shares no state with the vertex. */
    method CellOldValue(context: PropagationContext, cell: WarmCellVertex<V>, innerComputed: V) returns (value: V)
      requires Valid() && context.Valid() && Loose(cell)
      requires links.stableInnerSourceVertex.None?
      modifies cell, context
      ensures Valid() && context.Valid()
      ensures value == old(cell.OldValue(innerComputed))
      ensures context.verticesToCommit == old(context.verticesToCommit) + old(cell.ReadEnqueues())
      ensures context.sideEffects == old(context.sideEffects)
    {
      links.Unlinked();
      ContextApart(context);
      cell.ContextOutside(context);
      value := cell.GetOldValue(context, innerComputed);
    }

    /**
     * `commit` of the stateless vertex with this hook: the exposed update
     * is cleared and the updated inner cell, if any, becomes the stable
     * one, so the new inner cell, and the registration with it, stay.
     */
    method Commit()
      requires Valid()
      modifies vertex, links
      ensures Valid() && vertex.Repr == old(vertex.Repr)
      ensures vertex.ongoingUpdate.None? && !vertex.isEnqueuedForCommitment
      ensures links.stableInnerSourceVertex == old(links.NewInner()) && links.updatedInnerSourceVertex.None?
      ensures links.NewInner() == old(links.NewInner())
      ensures links.upstreamNewInnerObserverHandle == old(links.upstreamNewInnerObserverHandle)
    {
      vertex.Commit();
      links.Commit();
    }
  }
}

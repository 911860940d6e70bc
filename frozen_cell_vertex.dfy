/**
 * Frozen cells: vertices that never update. A pure cell holds a constant;
 * a derived frozen cell computes its value on the first read of a
 * transaction, keeps it until that transaction commits, and enqueues itself
 * so that the commit drops it.
 */
module FrozenCells {
  import opened Wrappers
  import opened Transactions

  /** `PureCellVertex`: its old (and new) value is the constant it holds. */
  datatype PureCellVertex<V> = PureCellVertex(value: V)

  class DerivedFrozenCellVertex<V> {
    /** `_frozenValueCache`. */
    var frozenValueCache: Option<V>

    constructor ()
      ensures frozenValueCache.None?
    {
      frozenValueCache := None;
    }

    /**
     * `getOldValue`: the cached value if there is one; otherwise `computed`
     * (what `computeFrozenValue` yields), which is cached, and the vertex is
     * enqueued for commitment.
     */
    method GetOldValue(context: PropagationContext, computed: V) returns (value: V)
      requires context.Valid()
      modifies this, context
      ensures context.Valid() && context.sideEffects == old(context.sideEffects)
      ensures old(frozenValueCache).Some? ==>
        value == old(frozenValueCache).value && context.verticesToCommit == old(context.verticesToCommit)
      ensures old(frozenValueCache).None? ==>
        value == computed && context.verticesToCommit == old(context.verticesToCommit) + [this]
      ensures frozenValueCache == Some(value)
    {
      match frozenValueCache
      case Some(cached) =>
        value := cached;
      case None =>
        frozenValueCache := Some(computed);
        context.EnqueueForCommitment(this);
        value := computed;
    }

    /** `commit`: drops the cache, so that the next transaction recomputes. */
    method Commit()
      modifies this
      ensures frozenValueCache.None?
    {
      frozenValueCache := None;
    }
  }

  /**
   * Two reads in one transaction: the second returns what the first did,
   * whatever it is offered, and the vertex is enqueued once.
   */
  method ReadTwice<V>(vertex: DerivedFrozenCellVertex<V>, context: PropagationContext, computed1: V, computed2: V)
    returns (first: V, second: V)
    requires context.Valid() && vertex.frozenValueCache.None?
    modifies vertex, context
    ensures first == computed1 && second == computed1
    ensures context.verticesToCommit == old(context.verticesToCommit) + [vertex]
  {
    first := vertex.GetOldValue(context, computed1);
    second := vertex.GetOldValue(context, computed2);
  }
}

/**
 * The value-level vocabulary of cell vertices: an `Update` carries the new
 * value of a cell within one transaction, "no update" (or a revoked update)
 * is `None`, and the new value of a cell is its update's value if there is
 * one and its old value otherwise.
 */
module CellVertices {
  import opened Wrappers

  /** `CellVertex.Update`: exactly one payload, the updated value. */
  datatype Update<V> = Update(updatedValue: V)

  /** `Update.map(transform)`. */
  function MapUpdate<V, W>(update: Update<V>, transform: V -> W): (r: Update<W>)
  {
    Update(transform(update.updatedValue))
  }

  /** `update?.map(transform)`: a present update is transformed, an absent (revoked) one stays absent. */
  function MapOngoing<V, W>(update: Option<Update<V>>, transform: V -> W): (r: Option<Update<W>>)
    ensures r.None? <==> update.None?
    ensures update.Some? ==> r.value.updatedValue == transform(update.value.updatedValue)
  {
    match update
    case None => None
    case Some(u) => Some(MapUpdate(u, transform))
  }

  /** `getNewValue`, given the vertex's old value. */
  function NewValue<V>(ongoing: Option<Update<V>>, oldValue: V): (r: V)
    ensures ongoing.Some? ==> r == ongoing.value.updatedValue
    ensures ongoing.None? ==> r == oldValue
  {
    if ongoing.Some? then ongoing.value.updatedValue else oldValue
  }

  /** Mapping an update by `g` after `f` is mapping it once by their composition. */
  lemma MapOngoingComposes<U, V, W>(update: Option<Update<U>>, f: U -> V, g: V -> W)
    ensures MapOngoing(MapOngoing(update, f), g) == MapOngoing(update, x => g(f(x)))
  {
  }

  /** The new value of a mapped cell is the mapped new value of its source. */
  lemma NewValueOfMapped<V, W>(ongoing: Option<Update<V>>, oldValue: V, transform: V -> W)
    ensures NewValue(MapOngoing(ongoing, transform), transform(oldValue)) == transform(NewValue(ongoing, oldValue))
  {
  }
}

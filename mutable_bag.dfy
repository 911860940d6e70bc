/**
 * The counting bag on top of the raw linked list: `add` prepends and counts,
 * `remove` unlinks through a handle and counts down, and `forEach` visits
 * every element and removes the ones its action selects, without touching the
 * counter. The counter therefore only bounds the number of elements from above.
 */
module MutableBags {
  import opened Wrappers
  import opened RawLinkedLists

  /** The handle `add` returns: the node that holds the added element. */
  datatype Handle<T> = Handle(node: Node<T>)

  class MutableBag<T> {
    const list: RawLinkedList<T>
    /** `_size`: incremented by `add`, decremented by `remove`, left alone by `forEach`. */
    var size: int
    ghost var Repr: set<object>

    ghost predicate Valid()
      reads this, Repr
    {
      && list in Repr
      && Repr == {this} + list.Repr
      && this !in list.Repr
      && list.Valid()
      && size >= |list.nodes|
    }

    /** The elements in iteration order (most recently added first). */
    ghost function Elements(): seq<T>
      reads this, list
    {
      list.Elements()
    }

    /** The number of elements actually stored. */
    ghost function Count(): nat
      reads this, list
    {
      |list.nodes|
    }

    /** `h` was returned by `add` on this bag (it may since have been removed). */
    ghost predicate Owns(h: Handle<T>)
      reads this, list
    {
      h.node in list.created
    }

    /** `h` still designates an element of this bag. */
    ghost predicate Holds(h: Handle<T>)
      reads this, list
    {
      h.node in list.nodes
    }

    constructor ()
      ensures Valid() && fresh(Repr)
      ensures size == 0 && Elements() == [] && list.created == {}
    {
      list := new RawLinkedList();
      size := 0;
      new;
      Repr := {this} + list.Repr;
    }

    method Add(element: T) returns (h: Handle<T>)
      requires Valid()
      modifies Repr
      ensures Valid() && fresh(h.node) && Repr == old(Repr) + {h.node}
      ensures size == old(size) + 1
      ensures Elements() == [element] + old(Elements())
      ensures list.nodes == [h.node] + old(list.nodes)
      ensures list.created == old(list.created) + {h.node}
    {
      var node := list.Prepend(element);
      size := size + 1;
      Repr := {this} + list.Repr;
      h := Handle(node);
    }

    method Remove(h: Handle<T>) returns (s: Status)
      requires Valid() && Owns(h)
      modifies Repr
      ensures Valid() && Repr == old(Repr) && list.created == old(list.created)
      ensures !old(Holds(h)) ==> s == Failed(NodeAlreadyRemoved) && size == old(size) && list.nodes == old(list.nodes)
      ensures old(Holds(h)) ==>
        && s == Done
        && size == old(size) - 1
        && var i := IndexOf(old(list.nodes), h.node);
           list.nodes == old(list.nodes)[..i] + old(list.nodes)[i + 1..]
      ensures !Holds(h)
    {
      list.ValidIffLinked(h.node);
      var r := list.Remove(h.node);
      if r.Failure? {
        return Failed(r.fault);
      }
      size := size - 1;
      s := Done;
    }

    /**
     * Visits every element head to tail, and removes those for which
     * `shouldRemove` holds; `size` stays what it was.
     */
    method ForEach(shouldRemove: T -> bool) returns (visited: seq<T>)
      requires Valid()
      modifies Repr
      ensures Valid() && Repr == old(Repr) && list.created == old(list.created)
      ensures visited == old(Elements())
      ensures list.nodes == Kept(old(list.nodes), shouldRemove)
      ensures size == old(size)
      ensures forall k | 0 <= k < |old(list.nodes)| :: shouldRemove(old(list.nodes)[k].element) ==> size > Count()
    {
      ghost var before := list.nodes;
      visited := list.ForEach(shouldRemove);
      forall k | 0 <= k < |before| && shouldRemove(before[k].element)
        ensures size > Count()
      {
        KeptShrinks(before, shouldRemove, k);
      }
    }
  }

  /**
   * After a `forEach` that removes elements, `size` overstates the number of
   * elements: it only bounds it from above.
   */
  lemma {:induction false} KeptShrinks<T>(ns: seq<Node<T>>, shouldRemove: T -> bool, k: nat)
    requires k < |ns| && shouldRemove(ns[k].element)
    ensures |Kept(ns, shouldRemove)| < |ns|
    decreases |ns|
  {
    if k + 1 == |ns| {
      KeptStep(ns, k, shouldRemove);
      assert ns[..k + 1] == ns;
    } else {
      var m := |ns| - 1;
      KeptStep(ns, m, shouldRemove);
      assert ns[..m + 1] == ns;
      KeptShrinks(ns[..m], shouldRemove, k);
    }
  }
}

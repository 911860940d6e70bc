/**
 * A handle-based doubly linked list: prepend in O(1), remove through the node
 * handed out by prepend in O(1), and a head-to-tail traversal that may unlink
 * the node it is visiting.
 *
 * The ghost sequence `nodes` is the abstract list, head first; `created` is
 * every node the list has ever handed out, so a node that was removed stays
 * recognisable (it is in `created` but no longer in `nodes`).
 */
module RawLinkedLists {
  import opened Wrappers

  class Node<T> {
    const element: T
    var previous: Node?<T>
    var next: Node?<T>
    /** Whether the node is still part of its list. */
    var isValid: bool

    constructor (element: T)
      ensures this.element == element
      ensures previous == null && next == null && isValid
    {
      this.element := element;
      previous := null;
      next := null;
      isValid := true;
    }
  }

  /** The elements held by a sequence of nodes, in the same order. */
  function ElementsOf<T>(ns: seq<Node<T>>): (es: seq<T>)
    ensures |es| == |ns|
    ensures forall i | 0 <= i < |ns| :: es[i] == ns[i].element
  {
    if ns == [] then [] else ElementsOf(ns[..|ns| - 1]) + [ns[|ns| - 1].element]
  }

  /** Prepending a node prepends its element. */
  lemma {:induction false} ElementsOfPrepend<T>(n: Node<T>, ns: seq<Node<T>>)
    ensures ElementsOf([n] + ns) == [n.element] + ElementsOf(ns)
  {
    if ns != [] {
      assert ([n] + ns)[..|ns|] == [n] + ns[..|ns| - 1];
      ElementsOfPrepend(n, ns[..|ns| - 1]);
    }
  }

  /** The nodes of `ns` whose element `shouldRemove` does not select, in order. */
  function Kept<T>(ns: seq<Node<T>>, shouldRemove: T -> bool): (ks: seq<Node<T>>)
    ensures |ks| <= |ns|
    ensures forall n {:trigger n in ks} | n in ks :: n in ns && !shouldRemove(n.element)
  {
    if ns == [] then []
    else
      var last := ns[|ns| - 1];
      Kept(ns[..|ns| - 1], shouldRemove) + (if shouldRemove(last.element) then [] else [last])
  }

  /** Extending a prefix by one node extends its elements by that node's element. */
  lemma ElementsOfStep<T>(ns: seq<Node<T>>, k: nat)
    requires k < |ns|
    ensures ElementsOf(ns[..k + 1]) == ElementsOf(ns[..k]) + [ns[k].element]
  {
    assert ns[..k + 1][..k] == ns[..k];
  }

  /** Extending a prefix by one node extends what is kept by that node, unless it is removed. */
  lemma KeptStep<T>(ns: seq<Node<T>>, k: nat, shouldRemove: T -> bool)
    requires k < |ns|
    ensures shouldRemove(ns[k].element) ==> Kept(ns[..k + 1], shouldRemove) == Kept(ns[..k], shouldRemove)
    ensures !shouldRemove(ns[k].element) ==> Kept(ns[..k + 1], shouldRemove) == Kept(ns[..k], shouldRemove) + [ns[k]]
  {
    assert ns[..k + 1][..k] == ns[..k];
  }

  /** Splitting a suffix into its first node and the rest, and the indices that follow. */
  lemma SplitAt<T>(done: seq<Node<T>>, ns: seq<Node<T>>, k: nat)
    requires k < |ns|
    ensures done + ns[k..] == done + [ns[k]] + ns[k + 1..]
    ensures |done + ns[k..]| == |done| + 1 + |ns[k + 1..]|
    ensures k + 1 < |ns| <==> ns[k + 1..] != []
    ensures k + 1 < |ns| ==> ns[k + 1..][0] == ns[k + 1]
    ensures (done + ns[k..])[|done|] == ns[k]
    ensures |done| + 1 < |done + ns[k..]| ==> (done + ns[k..])[|done| + 1] == ns[k + 1]
  {
  }

  /** Cutting the middle node out of `a + [n] + b` leaves `a + b`. */
  lemma RemoveMiddle<T>(a: seq<Node<T>>, n: Node<T>, b: seq<Node<T>>)
    ensures var s := a + [n] + b;
      && |s| == |a| + 1 + |b| && s[|a|] == n && s[..|a|] + s[|a| + 1..] == a + b
      && (b != [] ==> s[|a| + 1] == b[0])
  {
    var s := a + [n] + b;
    assert s[..|a|] == a;
    assert s[|a| + 1..] == b;
  }

  /** The full prefix is the sequence and the empty suffix contributes nothing. */
  lemma AtEnd<T>(a: seq<Node<T>>, ns: seq<Node<T>>)
    ensures ns[..|ns|] == ns && a + ns[|ns|..] == a
  {
  }

  /** The sequence facts behind one step of `forEach`, over the list `ns` as the loop leaves it. */
  lemma ForEachStep<T>(all: seq<Node<T>>, k: nat, ns: seq<Node<T>>, shouldRemove: T -> bool)
    requires k < |all| && ns == Kept(all[..k], shouldRemove) + all[k..]
    ensures var d := |Kept(all[..k], shouldRemove)|;
      && d < |ns| && ns[d] == all[k]
      && (if d + 1 < |ns| then ns[d + 1] else null) == (if k + 1 < |all| then all[k + 1] else null)
      && (shouldRemove(all[k].element) ==> ns[..d] + ns[d + 1..] == Kept(all[..k + 1], shouldRemove) + all[k + 1..])
      && (!shouldRemove(all[k].element) ==> ns == Kept(all[..k + 1], shouldRemove) + all[k + 1..])
  {
    var done := Kept(all[..k], shouldRemove);
    KeptStep(all, k, shouldRemove);
    SplitAt(done, all, k);
    RemoveMiddle(done, all[k], all[k + 1..]);
  }

  /** The position of `n` in `ns`. */
  function IndexOf<T>(ns: seq<Node<T>>, n: Node<T>): (i: nat)
    requires n in ns
    ensures i < |ns| && ns[i] == n
    ensures forall j | 0 <= j < i :: ns[j] != n
  {
    if ns[0] == n then 0 else 1 + IndexOf(ns[1..], n)
  }

  /** No node occurs twice in `ns`. */
  ghost predicate Distinct<T>(ns: seq<Node<T>>)
  {
    ns == [] || (ns[0] !in ns[1..] && Distinct(ns[1..]))
  }

  /** Two positions of a sequence without repetitions hold different nodes. */
  lemma {:induction false} DistinctAt<T>(ns: seq<Node<T>>, a: nat, b: nat)
    requires Distinct(ns) && a < |ns| && b < |ns| && a != b
    ensures ns[a] != ns[b]
  {
    if a == 0 {
      assert ns[b] == ns[1..][b - 1];
    } else if b == 0 {
      assert ns[a] == ns[1..][a - 1];
    } else {
      DistinctAt(ns[1..], a - 1, b - 1);
    }
  }

  /** A node that is not in `ns` can be put in front of it. */
  lemma DistinctPrepend<T>(n: Node<T>, ns: seq<Node<T>>)
    requires Distinct(ns) && n !in ns
    ensures Distinct([n] + ns)
  {
    assert ([n] + ns)[1..] == ns;
  }

  /** Dropping one position keeps a sequence without repetitions. */
  lemma {:induction false} DistinctRemove<T>(ns: seq<Node<T>>, i: nat)
    requires Distinct(ns) && i < |ns|
    ensures Distinct(ns[..i] + ns[i + 1..])
  {
    if i == 0 {
      assert ns[..0] + ns[1..] == ns[1..];
    } else {
      var rest := ns[1..];
      DistinctRemove(rest, i - 1);
      var r := rest[..i - 1] + rest[i..];
      assert ns[..i] + ns[i + 1..] == [ns[0]] + r;
      assert forall x | x in r :: x in rest;
      DistinctPrepend(ns[0], r);
    }
  }

  /** In a sequence without repetitions, a node sits at exactly one position. */
  lemma IndexOfDistinct<T>(ns: seq<Node<T>>, k: nat)
    requires k < |ns| && Distinct(ns)
    ensures IndexOf(ns, ns[k]) == k
  {
    var i := IndexOf(ns, ns[k]);
    if i != k {
      DistinctAt(ns, i, k);
    }
  }

  class RawLinkedList<T> {
    var head: Node?<T>
    /** The linked nodes, head first. */
    ghost var nodes: seq<Node<T>>
    /** Every node this list has handed out, linked or removed. */
    ghost var created: set<Node<T>>
    ghost var Repr: set<object>

    ghost predicate Valid()
      reads this, Repr
    {
      && Repr == {this} + created
      && (forall i | 0 <= i < |nodes| :: nodes[i] in created)
      && Distinct(nodes)
      && head == (if nodes == [] then null else nodes[0])
      && (forall i | 0 <= i < |nodes| :: nodes[i].isValid)
      && (forall i {:trigger nodes[i].next} | 0 <= i < |nodes| ::
            nodes[i].next == (if i + 1 < |nodes| then nodes[i + 1] else null))
      && (forall i {:trigger nodes[i].previous} | 0 <= i < |nodes| ::
            nodes[i].previous == (if i == 0 then null else nodes[i - 1]))
      && (forall n {:trigger n.isValid} | n in created && n !in nodes :: !n.isValid)
    }

    /** The elements of the list, head first. */
    ghost function Elements(): seq<T>
      reads this
    {
      ElementsOf(nodes)
    }

    constructor ()
      ensures Valid() && fresh(Repr)
      ensures nodes == [] && created == {}
    {
      head := null;
      nodes := [];
      created := {};
      Repr := {this};
    }

    /** A node handed out by this list is valid exactly while it is linked. */
    lemma ValidIffLinked(n: Node<T>)
      requires Valid() && n in created
      ensures n.isValid <==> n in nodes
    {
      if n in nodes {
        assert nodes[IndexOf(nodes, n)].isValid;
      }
    }

    /** Adds `element` to the front of the list and returns its node. */
    method Prepend(element: T) returns (node: Node<T>)
      requires Valid()
      modifies Repr
      ensures Valid() && fresh(node)
      ensures node.element == element
      ensures nodes == [node] + old(nodes)
      ensures Elements() == [element] + old(Elements())
      ensures created == old(created) + {node}
      ensures Repr == old(Repr) + {node}
    {
      ghost var oldHead := head;
      node := new Node(element);
      if head != null {
        head.previous := node;
        node.next := head;
      }
      head := node;
      nodes := [node] + nodes;
      created := created + {node};
      Repr := Repr + {node};
      PrependKeepsValid(oldHead, node);
      ElementsOfPrepend(node, old(nodes));
    }

    /** The links Prepend makes around the new head keep the list valid. */
    twostate lemma PrependKeepsValid(oldHead: Node?<T>, new node: Node<T>)
      requires old(Valid()) && !old(allocated(node))
      requires oldHead == old(head)
      requires head == node && nodes == [node] + old(nodes) && created == old(created) + {node}
      requires Repr == old(Repr) + {node}
      requires node.isValid && node.previous == null && node.next == oldHead
      requires oldHead != null ==> oldHead.previous == node && oldHead.next == old(oldHead.next) && oldHead.isValid
      requires forall n | n in old(created) && n != oldHead :: unchanged(n)
      ensures Valid()
    {
      DistinctPrepend(node, old(nodes));
    }

    /**
     * Unlinks `node`. Fails when the node was already removed; otherwise returns
     * the node that followed it (null for the last node), after clearing its links.
     */
    method Remove(node: Node<T>) returns (r: Result<Node?<T>>)
      requires Valid() && node in created
      modifies Repr
      ensures Valid() && Repr == old(Repr) && created == old(created)
      ensures !old(node.isValid) ==> r == Failure(NodeAlreadyRemoved) && unchanged(Repr)
      ensures old(node.isValid) ==> node in old(nodes)
      ensures old(node.isValid) ==>
        var i := IndexOf(old(nodes), node);
        && nodes == old(nodes)[..i] + old(nodes)[i + 1..]
        && r == Success(if i + 1 < |old(nodes)| then old(nodes)[i + 1] else null)
        && node.previous == null && node.next == null
      ensures !node.isValid
    {
      if !node.isValid {
        return Failure(NodeAlreadyRemoved);
      }
      ValidIffLinked(node);
      ghost var before := nodes;
      ghost var i := IndexOf(nodes, node);
      IndexOfDistinct(nodes, i);
      var previousNode := node.previous;
      var nextNode := node.next;
      assert previousNode == (if i == 0 then null else before[i - 1]);
      assert nextNode == (if i + 1 < |before| then before[i + 1] else null);
      if previousNode != null {
        previousNode.next := nextNode;
      } else {
        head := nextNode;
      }
      if nextNode != null {
        nextNode.previous := previousNode;
      }
      node.previous := null;
      node.next := null;
      node.isValid := false;
      nodes := before[..i] + before[i + 1..];
      r := Success(nextNode);
      UnlinkedKeepsValid(i);
    }

    /** How `Remove` leaves the list after unlinking the node at index `i` from between its two neighbours. */
    twostate predicate Unlinked(i: nat)
      reads this, Repr
    {
      && old(Valid()) && i < |old(nodes)|
      && var node := old(nodes[i]);
      && var previousNode := if i == 0 then null else old(nodes[i - 1]);
      && var nextNode := if i + 1 < |old(nodes)| then old(nodes[i + 1]) else null;
      && nodes == old(nodes[..i] + nodes[i + 1..])
      && head == (if previousNode == null then nextNode else old(head))
      && created == old(created) && Repr == old(Repr)
      && !node.isValid
      && (previousNode != null ==>
            previousNode.next == nextNode && previousNode.previous == old(previousNode.previous) && previousNode.isValid)
      && (nextNode != null ==>
            nextNode.previous == previousNode && nextNode.next == old(nextNode.next) && nextNode.isValid)
      && (forall n | n in old(created) && n != node && n != previousNode && n != nextNode :: unchanged(n))
    }

    /** Unlinking keeps every remaining link pointing at the neighbour in `nodes`. */
    twostate lemma UnlinkedKeepsLinks(i: nat)
      requires Unlinked(i)
      ensures forall k {:trigger nodes[k].next} | 0 <= k < |nodes| ::
        nodes[k].next == (if k + 1 < |nodes| then nodes[k + 1] else null)
      ensures forall k {:trigger nodes[k].previous} | 0 <= k < |nodes| ::
        nodes[k].previous == (if k == 0 then null else nodes[k - 1])
      ensures forall k | 0 <= k < |nodes| :: nodes[k].isValid
    {
      var before := old(nodes);
      forall k | 0 <= k < |nodes|
        ensures nodes[k] == before[if k < i then k else k + 1]
        ensures nodes[k] != before[i]
        ensures 0 < i && k != i - 1 ==> nodes[k] != before[i - 1]
        ensures i + 1 < |before| && k != i ==> nodes[k] != before[i + 1]
      {
        var j := if k < i then k else k + 1;
        DistinctAt(before, j, i);
        if 0 < i && k != i - 1 {
          DistinctAt(before, j, i - 1);
        }
        if i + 1 < |before| && k != i {
          DistinctAt(before, j, i + 1);
        }
      }
      forall k {:trigger nodes[k].next} | 0 <= k < |nodes|
        ensures nodes[k].next == (if k + 1 < |nodes| then nodes[k + 1] else null)
      {
        if k + 1 < |nodes| {
          assert nodes[k + 1] == before[if k + 1 < i then k + 1 else k + 2];
        }
      }
      forall k {:trigger nodes[k].previous} | 0 <= k < |nodes|
        ensures nodes[k].previous == (if k == 0 then null else nodes[k - 1])
      {
        if k > 0 {
          assert nodes[k - 1] == before[if k - 1 < i then k - 1 else k];
        }
      }
    }

    /** Unlinking keeps the list valid. */
    twostate lemma UnlinkedKeepsValid(i: nat)
      requires Unlinked(i)
      ensures Valid()
    {
      UnlinkedKeepsLinks(i);
      var before := old(nodes);
      forall k | 0 <= k < |nodes|
        ensures nodes[k] == before[if k < i then k else k + 1]
      {
      }
      DistinctRemove(before, i);
    }

    /**
     * One step of `forEach`: unlinks `current` (the node at index `at`) when
     * `shouldRemove` selects its element, and returns the node to visit next.
     */
    method Visit(current: Node<T>, ghost at: nat, shouldRemove: T -> bool) returns (next: Node?<T>)
      requires Valid() && at < |nodes| && nodes[at] == current
      modifies Repr
      ensures Valid() && Repr == old(Repr) && created == old(created)
      ensures shouldRemove(current.element) ==> nodes == old(nodes[..at] + nodes[at + 1..])
      ensures !shouldRemove(current.element) ==> nodes == old(nodes)
      ensures next == (if at + 1 < |old(nodes)| then old(nodes[at + 1]) else null)
    {
      IndexOfDistinct(nodes, at);
      if shouldRemove(current.element) {
        var r := Remove(current);
        next := r.value;
      } else {
        next := current.next;
      }
    }

    /** One loop step of `forEach`: `Visit` of the `k`-th node of `all`, with what was kept before it in front. */
    method Advance(current: Node<T>, ghost all: seq<Node<T>>, ghost k: nat, shouldRemove: T -> bool) returns (next: Node?<T>)
      requires Valid() && k < |all| && current == all[k] && nodes == Kept(all[..k], shouldRemove) + all[k..]
      modifies Repr
      ensures Valid() && Repr == old(Repr) && created == old(created)
      ensures nodes == Kept(all[..k + 1], shouldRemove) + all[k + 1..]
      ensures next == (if k + 1 < |all| then all[k + 1] else null)
    {
      ghost var d := |Kept(all[..k], shouldRemove)|;
      ghost var ns := nodes;
      ForEachStep(all, k, ns, shouldRemove);
      next := Visit(current, d, shouldRemove);
      assert nodes == (if shouldRemove(current.element) then ns[..d] + ns[d + 1..] else ns);
    }

    /**
     * Visits the elements head to tail; an element for which `shouldRemove`
     * holds is unlinked and the traversal continues from its successor.
     * Returns the visited elements, in visiting order.
     */
    method ForEach(shouldRemove: T -> bool) returns (visited: seq<T>)
      requires Valid()
      modifies Repr
      ensures Valid() && Repr == old(Repr) && created == old(created)
      ensures visited == old(Elements())
      ensures nodes == Kept(old(nodes), shouldRemove)
    {
      ghost var all := nodes;
      var current := head;
      ghost var k := 0;
      visited := [];
      while current != null
        invariant Valid() && Repr == old(Repr) && created == old(created)
        invariant 0 <= k <= |all|
        invariant current == (if k < |all| then all[k] else null)
        invariant nodes == Kept(all[..k], shouldRemove) + all[k..]
        invariant visited == ElementsOf(all[..k])
        decreases |all| - k
      {
        ElementsOfStep(all, k);
        visited := visited + [current.element];
        current := Advance(current, all, k, shouldRemove);
        k := k + 1;
      }
      AtEnd(Kept(all[..k], shouldRemove), all);
    }

    /** The elements of the list, head to tail, read by following the links. */
    method ToList() returns (list: seq<T>)
      requires Valid()
      ensures list == Elements()
    {
      list := [];
      var current := head;
      ghost var k := 0;
      while current != null
        invariant 0 <= k <= |nodes|
        invariant current == (if k < |nodes| then nodes[k] else null)
        invariant list == ElementsOf(nodes[..k])
        decreases |nodes| - k
      {
        assert nodes[..k + 1][..k] == nodes[..k];
        list := list + [current.element];
        current := current.next;
        k := k + 1;
      }
      assert nodes[..k] == nodes;
    }
  }
}

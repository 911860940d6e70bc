/**
 * The transaction protocol. While a transaction propagates, vertices are
 * queued for commitment and external side effects are queued for execution,
 * each side effect with a handle that can revoke it again. Once propagation
 * returns, every queued vertex is committed in queue order (a vertex queued
 * twice is committed twice), and then every side effect that was not revoked
 * runs, in queue order.
 */
module Transactions {
  /** An external side effect; running it is outside the model, only its identity matters. */
  type SideEffect = nat

  /** A queued side effect, with the identifier its revocation handle refers to. */
  datatype Entry = Entry(id: nat, effect: SideEffect)

  /**
   * The side-effect list of one transaction: `owner` identifies the
   * transaction, `nextId` is the identifier the next queued entry gets.
   */
  datatype SideEffectQueue = SideEffectQueue(owner: object, entries: seq<Entry>, nextId: nat)

  /**
   * `Action.RevocationHandle`: the no-op handle, the handle of one queued side
   * effect, the two-handle `combine` and the vararg `combine`.
   */
  datatype RevocationHandle =
    | Noop
    | EntryHandle(owner: object, id: nat)
    | Combined(first: RevocationHandle, second: RevocationHandle)
    | CombinedAll(subHandles: seq<RevocationHandle>)

  /** Identifiers strictly increase along `entries`. */
  ghost predicate Ascending(entries: seq<Entry>)
  {
    forall i, j | 0 <= i < j < |entries| :: entries[i].id < entries[j].id
  }

  /** Every identifier in `entries` is below `bound`. */
  ghost predicate IdsBelow(entries: seq<Entry>, bound: nat)
  {
    forall i | 0 <= i < |entries| :: entries[i].id < bound
  }

  /** Queued entries are in identifier order, and every identifier was handed out already. */
  ghost predicate WellFormed(q: SideEffectQueue)
  {
    Ascending(q.entries) && IdsBelow(q.entries, q.nextId)
  }

  /** The entries whose identifiers are not in `ids`, in their original order. */
  function Drop(entries: seq<Entry>, ids: set<nat>): (r: seq<Entry>)
    ensures forall e :: e in r <==> e in entries && e.id !in ids
  {
    if entries == [] then []
    else (if entries[0].id in ids then [] else [entries[0]]) + Drop(entries[1..], ids)
  }

  /** Dropping keeps identifier order. */
  lemma {:induction false} DropAscending(entries: seq<Entry>, ids: set<nat>)
    requires Ascending(entries)
    ensures Ascending(Drop(entries, ids))
  {
    if entries != [] {
      var rest := Drop(entries[1..], ids);
      DropAscending(entries[1..], ids);
      forall e | e in rest ensures entries[0].id < e.id {
        var k :| 0 <= k < |entries[1..]| && entries[1..][k] == e;
        assert entries[k + 1] == e;
      }
    }
  }

  /** Dropping keeps every identifier below a bound. */
  lemma DropIdsBelow(entries: seq<Entry>, ids: set<nat>, bound: nat)
    requires IdsBelow(entries, bound)
    ensures IdsBelow(Drop(entries, ids), bound)
  {
    var r := Drop(entries, ids);
    forall i | 0 <= i < |r| ensures r[i].id < bound {
      assert r[i] in entries;
    }
  }

  /** Dropping twice is dropping the union. */
  lemma {:induction false} DropDrop(entries: seq<Entry>, a: set<nat>, b: set<nat>)
    ensures Drop(Drop(entries, a), b) == Drop(entries, a + b)
  {
    if entries != [] {
      DropDrop(entries[1..], a, b);
      var d := Drop(entries, a);
      if entries[0].id in a {
        assert d == Drop(entries[1..], a);
      } else {
        assert d == [entries[0]] + Drop(entries[1..], a);
        assert d[0] == entries[0] && d[1..] == Drop(entries[1..], a);
        assert Drop(d, b) == (if entries[0].id in b then [] else [entries[0]]) + Drop(d[1..], b);
      }
    }
  }

  /** Dropping identifiers that do not occur changes nothing. */
  lemma {:induction false} DropAbsent(entries: seq<Entry>, ids: set<nat>, bound: nat)
    requires IdsBelow(entries, bound)
    requires forall n | n in ids :: bound <= n
    ensures Drop(entries, ids) == entries
  {
    if entries != [] {
      assert entries[0].id < bound;
      DropAbsent(entries[1..], ids, bound);
      assert [entries[0]] + entries[1..] == entries;
    }
  }

  /** Dropping no identifier changes nothing. */
  lemma {:induction false} DropNothing(entries: seq<Entry>)
    ensures Drop(entries, {}) == entries
  {
    if entries != [] {
      DropNothing(entries[1..]);
      assert [entries[0]] + entries[1..] == entries;
    }
  }

  /** `enqueueForExecution`'s effect on the list: the side effect is appended under the next identifier. */
  function Enqueued(q: SideEffectQueue, effect: SideEffect): (r: SideEffectQueue)
    ensures WellFormed(q) ==> WellFormed(r)
    ensures r.owner == q.owner && r.nextId == q.nextId + 1
  {
    SideEffectQueue(q.owner, q.entries + [Entry(q.nextId, effect)], q.nextId + 1)
  }

  /** Dropping from `entries + [e]` drops from `entries` and then `e`, if selected. */
  lemma {:induction false} DropAppend(entries: seq<Entry>, e: Entry, ids: set<nat>)
    ensures Drop(entries + [e], ids) == Drop(entries, ids) + (if e.id in ids then [] else [e])
  {
    if entries == [] {
      assert [] + [e] == [e];
    } else {
      var head := if entries[0].id in ids then [] else [entries[0]];
      var tail := if e.id in ids then [] else [e];
      assert (entries + [e])[0] == entries[0];
      assert (entries + [e])[1..] == entries[1..] + [e];
      DropAppend(entries[1..], e, ids);
      calc {
        Drop(entries + [e], ids);
        head + Drop(entries[1..] + [e], ids);
        head + (Drop(entries[1..], ids) + tail);
        (head + Drop(entries[1..], ids)) + tail;
        Drop(entries, ids) + tail;
      }
    }
  }

  /** The identifiers of the queue owned by `owner` that `h` revokes. */
  function Targets(h: RevocationHandle, owner: object): set<nat>
    decreases h, 1
  {
    match h
    case Noop => {}
    case EntryHandle(o, id) => if o == owner then {id} else {}
    case Combined(first, second) => Targets(first, owner) + Targets(second, owner)
    case CombinedAll(hs) => TargetsAll(hs, owner)
  }

  /** The identifiers revoked by any handle of `hs`. */
  function TargetsAll(hs: seq<RevocationHandle>, owner: object): set<nat>
    decreases hs, 0
  {
    if hs == [] then {} else TargetsAll(hs[..|hs| - 1], owner) + Targets(hs[|hs| - 1], owner)
  }

  /**
   * The queue after `h.revoke()`: an entry handle removes its entry from the
   * list it was queued in (a handle from another transaction leaves this one
   * alone); `combine(first, second)` revokes `first`, then `second`; the vararg
   * `combine` revokes its sub-handles in order. Whatever the order, the result
   * is the queue without the entries `h` targets.
   */
  function Revoked(q: SideEffectQueue, h: RevocationHandle): (r: SideEffectQueue)
    ensures r == q.(entries := Drop(q.entries, Targets(h, q.owner)))
    decreases h, 1
  {
    match h
    case Noop =>
      DropNothing(q.entries);
      q
    case EntryHandle(owner, id) =>
      if owner == q.owner then q.(entries := Drop(q.entries, {id}))
      else
        DropNothing(q.entries);
        q
    case Combined(first, second) =>
      DropDrop(q.entries, Targets(first, q.owner), Targets(second, q.owner));
      Revoked(Revoked(q, first), second)
    case CombinedAll(hs) => RevokedAll(q, hs)
  }

  /** The queue after revoking each handle of `hs`, first to last. */
  function RevokedAll(q: SideEffectQueue, hs: seq<RevocationHandle>): (r: SideEffectQueue)
    ensures r == q.(entries := Drop(q.entries, TargetsAll(hs, q.owner)))
    decreases hs, 0
  {
    if hs == [] then
      DropNothing(q.entries);
      q
    else
      var init := hs[..|hs| - 1];
      DropDrop(q.entries, TargetsAll(init, q.owner), Targets(hs[|hs| - 1], q.owner));
      Revoked(RevokedAll(q, init), hs[|hs| - 1])
  }

  /** Revoking the handle of the entry just queued restores the list. */
  lemma EnqueueThenRevoke(q: SideEffectQueue, effect: SideEffect)
    requires WellFormed(q)
    ensures Revoked(Enqueued(q, effect), EntryHandle(q.owner, q.nextId)).entries == q.entries
  {
    assert Targets(EntryHandle(q.owner, q.nextId), q.owner) == {q.nextId};
    DropAbsent(q.entries, {q.nextId}, q.nextId);
    DropAppend(q.entries, Entry(q.nextId, effect), {q.nextId});
  }

  /** The order in which two handles are revoked does not matter. */
  lemma RevokeCommutes(q: SideEffectQueue, a: RevocationHandle, b: RevocationHandle)
    ensures Revoked(Revoked(q, a), b) == Revoked(Revoked(q, b), a)
  {
    DropDrop(q.entries, Targets(a, q.owner), Targets(b, q.owner));
    DropDrop(q.entries, Targets(b, q.owner), Targets(a, q.owner));
    assert Targets(a, q.owner) + Targets(b, q.owner) == Targets(b, q.owner) + Targets(a, q.owner);
  }

  /** Revoking a handle a second time changes nothing. */
  lemma RevokeIdempotent(q: SideEffectQueue, h: RevocationHandle)
    ensures Revoked(Revoked(q, h), h) == Revoked(q, h)
  {
    var t := Targets(h, q.owner);
    DropDrop(q.entries, t, t);
    assert t + t == t;
  }

  /**
   * The context a transaction hands to propagation: the commit queue
   * (`verticesToCommit`) and the side-effect list (`sideEffectsToExecute`).
   */
  class PropagationContext {
    /** The vertices to commit, in enqueue order; duplicates are kept. */
    var verticesToCommit: seq<object>
    /** The queued side effects that were not revoked. */
    var sideEffects: SideEffectQueue

    ghost predicate Valid()
      reads this
    {
      sideEffects.owner == this && WellFormed(sideEffects)
    }

    constructor ()
      ensures Valid() && verticesToCommit == [] && sideEffects.entries == [] && sideEffects.nextId == 0
    {
      verticesToCommit := [];
      sideEffects := SideEffectQueue(this, [], 0);
    }

    /** `enqueueForCommitment`: appends, with no deduplication. */
    method EnqueueForCommitment(vertex: object)
      requires Valid()
      modifies this
      ensures Valid()
      ensures verticesToCommit == old(verticesToCommit) + [vertex]
      ensures sideEffects == old(sideEffects)
    {
      verticesToCommit := verticesToCommit + [vertex];
    }

    /** `enqueueForExecution`: appends the side effect and returns the handle that revokes it. */
    method EnqueueForExecution(effect: SideEffect) returns (h: RevocationHandle)
      requires Valid()
      modifies this
      ensures Valid()
      ensures sideEffects == Enqueued(old(sideEffects), effect)
      ensures h == EntryHandle(this, old(sideEffects.nextId))
      ensures verticesToCommit == old(verticesToCommit)
    {
      h := EntryHandle(this, sideEffects.nextId);
      sideEffects := Enqueued(sideEffects, effect);
    }

    /** `h.revoke()`, followed through the combinations it was built from. */
    method Revoke(h: RevocationHandle)
      requires Valid()
      modifies this
      ensures Valid()
      ensures sideEffects == Revoked(old(sideEffects), h)
      ensures verticesToCommit == old(verticesToCommit)
      decreases h
    {
      match h
      case Noop =>
      case EntryHandle(owner, id) =>
        if owner == this {
          DropAscending(sideEffects.entries, {id});
          DropIdsBelow(sideEffects.entries, {id}, sideEffects.nextId);
          sideEffects := sideEffects.(entries := Drop(sideEffects.entries, {id}));
        }
      case Combined(first, second) =>
        Revoke(first);
        Revoke(second);
      case CombinedAll(hs) =>
        for i := 0 to |hs|
          invariant Valid()
          invariant sideEffects == RevokedAll(old(sideEffects), hs[..i])
          invariant verticesToCommit == old(verticesToCommit)
        {
          assert hs[..i + 1][..i] == hs[..i];
          Revoke(hs[i]);
        }
        assert hs[..|hs|] == hs;
    }
  }

  /**
   * One call the propagation makes on its context, in order: queue a vertex
   * for commitment, queue a side effect, or revoke the handle returned by the
   * `index`-th side effect it queued (an index it has not received yet does
   * nothing, since it holds no such handle).
   */
  datatype Step =
    | CommitStep(vertex: object)
    | ExecuteStep(effect: SideEffect)
    | RevokeStep(index: nat)

  /** What the phases after propagation do, in order. */
  datatype Event = Committed(vertex: object) | Ran(entry: Entry)

  /** The vertices queued for commitment by `steps`, in order. */
  function CommitsOf(steps: seq<Step>): seq<object>
  {
    if steps == [] then []
    else
      var last := steps[|steps| - 1];
      CommitsOf(steps[..|steps| - 1]) + (if last.CommitStep? then [last.vertex] else [])
  }

  /** The number of side effects queued by `steps`. */
  function ExecutionCount(steps: seq<Step>): nat
  {
    if steps == [] then 0
    else ExecutionCount(steps[..|steps| - 1]) + (if steps[|steps| - 1].ExecuteStep? then 1 else 0)
  }

  /** The effect of the `n`-th side effect queued by `steps`. */
  function EffectOf(steps: seq<Step>, n: nat): SideEffect
    requires n < ExecutionCount(steps)
  {
    var init := steps[..|steps| - 1];
    var last := steps[|steps| - 1];
    if last.ExecuteStep? && n == ExecutionCount(init) then last.effect else EffectOf(init, n)
  }

  /** Some step revokes the `n`-th side effect after it was queued. */
  predicate RevokedIn(steps: seq<Step>, n: nat)
  {
    steps != [] &&
    var init := steps[..|steps| - 1];
    (RevokedIn(init, n) || (steps[|steps| - 1] == RevokeStep(n) && n < ExecutionCount(init)))
  }

  /** The side-effect list the context holds after `steps`. */
  function PendingAfter(steps: seq<Step>): seq<Entry>
  {
    if steps == [] then []
    else
      var init := steps[..|steps| - 1];
      var pending := PendingAfter(init);
      match steps[|steps| - 1]
      case CommitStep(_) => pending
      case ExecuteStep(effect) => pending + [Entry(ExecutionCount(init), effect)]
      case RevokeStep(n) => if n < ExecutionCount(init) then Drop(pending, {n}) else pending
  }

  /** The commit events for `vertices`, in order. */
  function CommitEvents(vertices: seq<object>): (r: seq<Event>)
    ensures |r| == |vertices|
    ensures forall i | 0 <= i < |r| :: r[i] == Committed(vertices[i])
  {
    seq(|vertices|, i requires 0 <= i < |vertices| => Committed(vertices[i]))
  }

  /** The run events for `entries`, in order. */
  function RunEvents(entries: seq<Entry>): (r: seq<Event>)
    ensures |r| == |entries|
    ensures forall i | 0 <= i < |r| :: r[i] == Ran(entries[i])
  {
    seq(|entries|, i requires 0 <= i < |entries| => Ran(entries[i]))
  }

  lemma RevokedInQueued(steps: seq<Step>, n: nat)
    requires RevokedIn(steps, n)
    ensures n < ExecutionCount(steps)
  {
    var init := steps[..|steps| - 1];
    if RevokedIn(init, n) {
      RevokedInQueued(init, n);
    }
  }

  /** `PendingAfter(steps)` is the ordered list of queued, unrevoked side effects. */
  ghost predicate Characterized(steps: seq<Step>)
  {
    && Ascending(PendingAfter(steps))
    && IdsBelow(PendingAfter(steps), ExecutionCount(steps))
    && forall e :: e in PendingAfter(steps) <==>
         e.id < ExecutionCount(steps) && e.effect == EffectOf(steps, e.id) && !RevokedIn(steps, e.id)
  }

  lemma CharacterizedCommit(steps: seq<Step>)
    requires steps != [] && steps[|steps| - 1].CommitStep?
    requires Characterized(steps[..|steps| - 1])
    ensures Characterized(steps)
  {
    var init := steps[..|steps| - 1];
    forall n: nat | n < ExecutionCount(init)
      ensures EffectOf(steps, n) == EffectOf(init, n)
    {
    }
  }

  lemma CharacterizedExecute(steps: seq<Step>)
    requires steps != [] && steps[|steps| - 1].ExecuteStep?
    requires Characterized(steps[..|steps| - 1])
    ensures Characterized(steps)
  {
    var init := steps[..|steps| - 1];
    var c := ExecutionCount(init);
    var pending := PendingAfter(init);
    var added := Entry(c, steps[|steps| - 1].effect);
    assert PendingAfter(steps) == pending + [added];
    if RevokedIn(init, c) {
      RevokedInQueued(init, c);
    }
    forall k: nat | k < c
      ensures EffectOf(steps, k) == EffectOf(init, k)
    {
    }
  }

  lemma CharacterizedRevoke(steps: seq<Step>)
    requires steps != [] && steps[|steps| - 1].RevokeStep?
    requires Characterized(steps[..|steps| - 1])
    ensures Characterized(steps)
  {
    var init := steps[..|steps| - 1];
    var n := steps[|steps| - 1].index;
    if n < ExecutionCount(init) {
      DropAscending(PendingAfter(init), {n});
      DropIdsBelow(PendingAfter(init), {n}, ExecutionCount(init));
    }
    forall k: nat | k < ExecutionCount(init)
      ensures EffectOf(steps, k) == EffectOf(init, k)
    {
    }
  }

  /**
   * The side effects that run are exactly the queued ones that were not
   * revoked, each once, in queue order.
   */
  lemma {:induction false} PendingCharacterized(steps: seq<Step>)
    ensures Ascending(PendingAfter(steps)) && IdsBelow(PendingAfter(steps), ExecutionCount(steps))
    ensures forall e :: e in PendingAfter(steps) <==>
      e.id < ExecutionCount(steps) && e.effect == EffectOf(steps, e.id) && !RevokedIn(steps, e.id)
  {
    if steps != [] {
      PendingCharacterized(steps[..|steps| - 1]);
      match steps[|steps| - 1]
      case CommitStep(_) => CharacterizedCommit(steps);
      case ExecuteStep(_) => CharacterizedExecute(steps);
      case RevokeStep(_) => CharacterizedRevoke(steps);
    }
  }

  /** A revoked side effect never runs. */
  lemma RevokedNeverRuns(steps: seq<Step>, n: nat)
    requires RevokedIn(steps, n)
    ensures forall e | e in PendingAfter(steps) :: e.id != n
  {
    PendingCharacterized(steps);
  }

  /** A queued side effect that was not revoked runs. */
  lemma UnrevokedRuns(steps: seq<Step>, n: nat)
    requires n < ExecutionCount(steps) && !RevokedIn(steps, n)
    ensures Entry(n, EffectOf(steps, n)) in PendingAfter(steps)
  {
    PendingCharacterized(steps);
  }

  /** The number of times `step` occurs in `steps`. */
  function Occurrences(steps: seq<Step>, step: Step): nat
  {
    if steps == [] then 0
    else Occurrences(steps[..|steps| - 1], step) + (if steps[|steps| - 1] == step then 1 else 0)
  }

  /** There is no deduplication: a vertex is committed as often as it was queued. */
  lemma {:induction false} CommittedAsOftenAsQueued(steps: seq<Step>, vertex: object)
    ensures multiset(CommitsOf(steps))[vertex] == Occurrences(steps, CommitStep(vertex))
  {
    if steps != [] {
      CommittedAsOftenAsQueued(steps[..|steps| - 1], vertex);
    }
  }

  /** Every commit event comes before every run event. */
  lemma CommitsBeforeRuns(vertices: seq<object>, entries: seq<Entry>)
    ensures var trace := CommitEvents(vertices) + RunEvents(entries);
      forall i, j | 0 <= i < j < |trace| :: trace[i].Ran? ==> trace[j].Ran?
  {
    var trace := CommitEvents(vertices) + RunEvents(entries);
    forall i, j | 0 <= i < j < |trace| && trace[i].Ran?
      ensures trace[j].Ran?
    {
      assert i >= |vertices|;
    }
  }

  /** The propagation phase: a fresh context receives the calls of `propagate`, in order. */
  method Propagate(propagate: seq<Step>) returns (context: PropagationContext)
    ensures fresh(context) && context.Valid()
    ensures context.verticesToCommit == CommitsOf(propagate)
    ensures context.sideEffects.entries == PendingAfter(propagate)
  {
    context := new PropagationContext();
    var handles: seq<RevocationHandle> := [];
    for i := 0 to |propagate|
      invariant context.Valid()
      invariant context.verticesToCommit == CommitsOf(propagate[..i])
      invariant context.sideEffects.entries == PendingAfter(propagate[..i])
      invariant context.sideEffects.nextId == ExecutionCount(propagate[..i]) == |handles|
      invariant forall k | 0 <= k < |handles| :: handles[k] == EntryHandle(context, k)
    {
      assert propagate[..i + 1][..i] == propagate[..i];
      match propagate[i]
      case CommitStep(vertex) =>
        context.EnqueueForCommitment(vertex);
      case ExecuteStep(effect) =>
        var h := context.EnqueueForExecution(effect);
        handles := handles + [h];
      case RevokeStep(n) =>
        if n < |handles| {
          context.Revoke(handles[n]);
          assert Targets(handles[n], context) == {n};
        }
    }
    assert propagate[..|propagate|] == propagate;
  }

  /** The commit phase and then the run phase, each a loop over its queue. */
  method Drain(context: PropagationContext) returns (trace: seq<Event>)
    ensures trace == CommitEvents(context.verticesToCommit) + RunEvents(context.sideEffects.entries)
  {
    var committed := context.verticesToCommit;
    var entries := context.sideEffects.entries;
    trace := [];
    for i := 0 to |committed|
      invariant trace == CommitEvents(committed[..i])
    {
      trace := trace + [Committed(committed[i])];
    }
    assert committed[..|committed|] == committed;
    for i := 0 to |entries|
      invariant trace == CommitEvents(committed) + RunEvents(entries[..i])
    {
      trace := trace + [Ran(entries[i])];
    }
    assert entries[..|entries|] == entries;
  }

  /**
   * `executeWithResult`, for a propagation given as the calls it makes on its
   * context and the result it returns: returns that result, and the commit
   * and run phases in the order they happen.
   */
  method ExecuteWithResult<R>(propagate: seq<Step>, result: R) returns (r: R, trace: seq<Event>)
    ensures r == result
    ensures trace == CommitEvents(CommitsOf(propagate)) + RunEvents(PendingAfter(propagate))
    ensures forall i, j | 0 <= i < j < |trace| :: trace[i].Ran? ==> trace[j].Ran?
  {
    var context := Propagate(propagate);
    trace := Drain(context);
    CommitsBeforeRuns(CommitsOf(propagate), PendingAfter(propagate));
    r := result;
  }
}

/**
 * Actions: computations run inside a transaction that may queue external side
 * effects, and that return a result together with the handle that revokes
 * what they queued. An action is modelled by what `executeInternally` does:
 * a function from the transaction's side-effect list to the result, the
 * handle and the list afterwards.
 */
module Actions {
  import opened Transactions

  /** The outcome of executing an action. */
  datatype Executed<R> = Executed(result: R, handle: RevocationHandle, queue: SideEffectQueue)

  type Action<R> = SideEffectQueue -> Executed<R>

  /** `Trigger`: an action whose result carries no information. */
  type Trigger = Action<()>

  /**
   * Run against a well-formed queue of the transaction `owner`, the action
   * leaves a well-formed queue of the same transaction.
   */
  ghost predicate WellBehaved<R>(action: Action<R>, owner: object)
  {
    forall entries: seq<Entry>, nextId: nat {:trigger action(SideEffectQueue(owner, entries, nextId))}
      | WellFormed(SideEffectQueue(owner, entries, nextId)) ::
      WellFormed(action(SideEffectQueue(owner, entries, nextId)).queue) &&
      action(SideEffectQueue(owner, entries, nextId)).queue.owner == owner
  }


  /** `pure(result)`. */
  function Pure<R>(result: R): Action<R>
  {
    q => Executed(result, Noop, q)
  }

  /** `wrap(externalSideEffect)`: queues the side effect and hands out its entry's handle. */
  function Wrap(effect: SideEffect): Trigger
  {
    (q: SideEffectQueue) => Executed((), EntryHandle(q.owner, q.nextId), Enqueued(q, effect))
  }

  /** `Triggers.Noop`. */
  function NoopTrigger(): Trigger
  {
    q => Executed((), Noop, q)
  }

  /** `Triggers.combine(first, second)`: runs both, in order, and combines their handles. */
  function CombineTriggers(first: Trigger, second: Trigger): Trigger
  {
    q =>
      var a := first(q);
      var b := second(a.queue);
      Executed((), Combined(a.handle, b.handle), b.queue)
  }

  /** `action.map(transform)`. */
  function Map<R, S>(action: Action<R>, transform: R -> S): Action<S>
  {
    q =>
      var a := action(q);
      Executed(transform(a.result), a.handle, a.queue)
  }

  /** `action.joinOf(transform)`. */
  function JoinOf<R, S>(action: Action<R>, transform: R -> Action<S>): Action<S>
  {
    q =>
      var a := action(q);
      var b := transform(a.result)(a.queue);
      Executed(b.result, Combined(a.handle, b.handle), b.queue)
  }

  /** `pure` yields its result, queues nothing, and its handle revokes nothing. */
  lemma PureHasNoEffect<R>(result: R, q: SideEffectQueue, other: SideEffectQueue)
    ensures Pure(result)(q).result == result
    ensures Pure(result)(q).queue == q
    ensures Revoked(other, Pure(result)(q).handle) == other
  {
    DropNothing(other.entries);
  }

  /** `wrap` appends its side effect, and revoking its handle takes exactly that entry out again. */
  lemma WrapQueuesAndRevokes(effect: SideEffect, q: SideEffectQueue)
    requires WellFormed(q)
    ensures Wrap(effect)(q).queue.entries == q.entries + [Entry(q.nextId, effect)]
    ensures Revoked(Wrap(effect)(q).queue, Wrap(effect)(q).handle).entries == q.entries
  {
    EnqueueThenRevoke(q, effect);
  }

  /** `map` is `joinOf` into `pure`, up to what the handle revokes. */
  lemma MapIsJoinOfPure<R, S>(action: Action<R>, transform: R -> S, q: SideEffectQueue)
    ensures var m := Map(action, transform)(q);
      var j := JoinOf(action, (r: R) => Pure(transform(r)))(q);
      && m.result == j.result && m.queue == j.queue
      && forall other: SideEffectQueue :: Revoked(other, m.handle) == Revoked(other, j.handle)
  {
    var a := action(q);
    var j := JoinOf(action, (r: R) => Pure(transform(r)))(q);
    assert j == Executed(transform(a.result), Combined(a.handle, Noop), a.queue);
    forall other: SideEffectQueue ensures Revoked(other, a.handle) == Revoked(other, j.handle) {
      assert Targets(j.handle, other.owner) == Targets(a.handle, other.owner) + {};
    }
  }

  /** Joining a `pure` action gives the derived action, up to what the handle revokes. */
  lemma JoinOfPureLeft<R, S>(result: R, transform: R -> Action<S>, q: SideEffectQueue)
    ensures var j := JoinOf(Pure(result), transform)(q);
      var d := transform(result)(q);
      && j.result == d.result && j.queue == d.queue
      && forall other: SideEffectQueue :: Revoked(other, j.handle) == Revoked(other, d.handle)
  {
  }

  /** Joining into `pure` gives the action itself, up to what the handle revokes. */
  lemma JoinOfPureRight<R>(action: Action<R>, q: SideEffectQueue)
    ensures var j := JoinOf(action, (r: R) => Pure(r))(q);
      var a := action(q);
      && j.result == a.result && j.queue == a.queue
      && forall other: SideEffectQueue :: Revoked(other, j.handle) == Revoked(other, a.handle)
  {
  }

  /** `joinOf` is associative, up to what the handle revokes. */
  lemma JoinOfAssociative<R, S, T>(action: Action<R>, f: R -> Action<S>, g: S -> Action<T>, q: SideEffectQueue)
    ensures var left := JoinOf(JoinOf(action, f), g)(q);
      var right := JoinOf(action, (r: R) => JoinOf(f(r), g))(q);
      && left.result == right.result && left.queue == right.queue
      && forall other: SideEffectQueue :: Revoked(other, left.handle) == Revoked(other, right.handle)
  {
    var x := action(q);
    var y := f(x.result)(x.queue);
    var z := g(y.result)(y.queue);
    var left := JoinOf(JoinOf(action, f), g)(q);
    var right := JoinOf(action, (r: R) => JoinOf(f(r), g))(q);
    assert JoinOf(action, f)(q) == Executed(y.result, Combined(x.handle, y.handle), y.queue);
    assert left == Executed(z.result, Combined(Combined(x.handle, y.handle), z.handle), z.queue);
    assert JoinOf(f(x.result), g)(x.queue) == Executed(z.result, Combined(y.handle, z.handle), z.queue);
    assert right == Executed(z.result, Combined(x.handle, Combined(y.handle, z.handle)), z.queue);
    forall other: SideEffectQueue ensures Revoked(other, left.handle) == Revoked(other, right.handle) {
      var o := other.owner;
      assert Targets(left.handle, o) == Targets(x.handle, o) + Targets(y.handle, o) + Targets(z.handle, o);
    }
  }

  /**
   * `joinOf` of two wrapped side effects queues both, in order, under
   * consecutive identifiers, and revoking the joined handle takes both out
   * again.
   */
  lemma JoinOfWrapsRevoke(first: SideEffect, derived: (()) -> Trigger, second: SideEffect, q: SideEffectQueue)
    requires WellFormed(q) && derived(()) == Wrap(second)
    ensures var j := JoinOf(Wrap(first), derived)(q);
      && j.queue.entries == q.entries + [Entry(q.nextId, first)] + [Entry(q.nextId + 1, second)]
      && Revoked(j.queue, j.handle).entries == q.entries
  {
    var q1 := Enqueued(q, first);
    assert Wrap(first)(q) == Executed((), EntryHandle(q.owner, q.nextId), q1);
    assert derived(())(q1) == Executed((), EntryHandle(q.owner, q.nextId + 1), Enqueued(q1, second));
    RevokeBothEnqueued(q, first, second);
  }

  /** Revoking the two entries just queued restores the list. */
  lemma RevokeBothEnqueued(q: SideEffectQueue, first: SideEffect, second: SideEffect)
    requires WellFormed(q)
    ensures var q2 := Enqueued(Enqueued(q, first), second);
      && q2.entries == q.entries + [Entry(q.nextId, first)] + [Entry(q.nextId + 1, second)]
      && Revoked(q2, Combined(EntryHandle(q.owner, q.nextId), EntryHandle(q.owner, q.nextId + 1))).entries == q.entries
  {
    var e1, e2 := Entry(q.nextId, first), Entry(q.nextId + 1, second);
    var ids: set<nat> := {q.nextId, q.nextId + 1};
    assert Targets(Combined(EntryHandle(q.owner, q.nextId), EntryHandle(q.owner, q.nextId + 1)), q.owner) == ids;
    DropAppend(q.entries + [e1], e2, ids);
    DropAppend(q.entries, e1, ids);
    DropAbsent(q.entries, ids, q.nextId);
  }

  /** `Triggers.combine` is `joinOf` that ignores the first trigger's result. */
  lemma CombineIsJoinOf(first: Trigger, second: Trigger, q: SideEffectQueue)
    ensures CombineTriggers(first, second)(q) == JoinOf(first, (_: ()) => second)(q)
  {
    var a := first(q);
    var b := second(a.queue);
    assert JoinOf(first, (_: ()) => second)(q) == Executed(b.result, Combined(a.handle, b.handle), b.queue);
    assert b.result == ();
  }

  /** Combining two wrapped side effects queues both, in order, and revoking the combined handle takes both out again. */
  lemma CombineWrapsRevoke(first: SideEffect, second: SideEffect, q: SideEffectQueue)
    requires WellFormed(q)
    ensures var c := CombineTriggers(Wrap(first), Wrap(second))(q);
      && c.queue.entries == q.entries + [Entry(q.nextId, first)] + [Entry(q.nextId + 1, second)]
      && Revoked(c.queue, c.handle).entries == q.entries
  {
    CombineIsJoinOf(Wrap(first), Wrap(second), q);
    JoinOfWrapsRevoke(first, (_: ()) => Wrap(second), second, q);
  }

  /** `Triggers.combine` is associative, up to what the handle revokes. */
  lemma CombineAssociative(a: Trigger, b: Trigger, c: Trigger, q: SideEffectQueue)
    ensures var left := CombineTriggers(CombineTriggers(a, b), c)(q);
      var right := CombineTriggers(a, CombineTriggers(b, c))(q);
      && left.queue == right.queue
      && forall other: SideEffectQueue :: Revoked(other, left.handle) == Revoked(other, right.handle)
  {
  }

  /** Combining `Triggers.Noop` with a trigger is that trigger, up to what the handle revokes. */
  lemma CombineNoop(trigger: Trigger, q: SideEffectQueue)
    ensures CombineTriggers(NoopTrigger(), trigger)(q).queue == trigger(q).queue
    ensures forall other: SideEffectQueue :: Revoked(other, CombineTriggers(NoopTrigger(), trigger)(q).handle) == Revoked(other, trigger(q).handle)
  {
  }

  /** `pure`, `wrap` and `Triggers.Noop` keep the queue well formed and in its transaction. */
  lemma BasicActionsWellBehaved<R>(owner: object, result: R, effect: SideEffect)
    ensures WellBehaved(Pure(result), owner) && WellBehaved(Wrap(effect), owner) && WellBehaved(NoopTrigger(), owner)
  {
  }

  lemma RunWellBehaved<R>(action: Action<R>, owner: object, q: SideEffectQueue)
    requires WellBehaved(action, owner) && WellFormed(q) && q.owner == owner
    ensures WellFormed(action(q).queue) && action(q).queue.owner == owner
  {
    assert q == SideEffectQueue(owner, q.entries, q.nextId);
  }

  /** `Triggers.combine` of well-behaved triggers is well behaved. */
  lemma CombineTriggersWellBehaved(owner: object, first: Trigger, second: Trigger)
    requires WellBehaved(first, owner) && WellBehaved(second, owner)
    ensures WellBehaved(CombineTriggers(first, second), owner)
  {
    forall entries: seq<Entry>, nextId: nat | WellFormed(SideEffectQueue(owner, entries, nextId))
      ensures var r := CombineTriggers(first, second)(SideEffectQueue(owner, entries, nextId)).queue;
        WellFormed(r) && r.owner == owner
    {
      var q := SideEffectQueue(owner, entries, nextId);
      RunWellBehaved(first, owner, q);
      RunWellBehaved(second, owner, first(q).queue);
    }
  }

  /** `map` of a well-behaved action is well behaved. */
  lemma MapWellBehaved<R, S>(owner: object, action: Action<R>, transform: R -> S)
    requires WellBehaved(action, owner)
    ensures WellBehaved(Map(action, transform), owner)
  {
  }

  /** `joinOf` of well-behaved actions is well behaved (results are plain values, `R(!new)`). */
  lemma JoinOfWellBehaved<R(!new), S>(owner: object, action: Action<R>, derive: R -> Action<S>)
    requires WellBehaved(action, owner) && forall r {:trigger derive(r)} :: WellBehaved(derive(r), owner)
    ensures WellBehaved(JoinOf(action, derive), owner)
  {
    forall entries: seq<Entry>, nextId: nat | WellFormed(SideEffectQueue(owner, entries, nextId))
      ensures var r := JoinOf(action, derive)(SideEffectQueue(owner, entries, nextId)).queue;
        WellFormed(r) && r.owner == owner
    {
      var q := SideEffectQueue(owner, entries, nextId);
      var a := action(q);
      var b := derive(a.result)(a.queue);
      RunWellBehaved(action, owner, q);
      RunWellBehaved(derive(a.result), owner, a.queue);
    }
  }

  /**
   * Runs `action` against the context's side-effect list: its result and
   * handle are returned and the list becomes the one the action left.
   */
  method Execute<R>(context: PropagationContext, action: Action<R>) returns (result: R, handle: RevocationHandle)
    requires context.Valid() && WellBehaved(action, context)
    modifies context
    ensures context.Valid()
    ensures var x := action(old(context.sideEffects));
      result == x.result && handle == x.handle && context.sideEffects == x.queue
    ensures context.verticesToCommit == old(context.verticesToCommit)
  {
    var x := action(context.sideEffects);
    context.sideEffects := x.queue;
    result := x.result;
    handle := x.handle;
  }
}

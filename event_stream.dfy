/**
 * `EventStream`: the public stream operators. Each one looks at the kind of
 * the stream's vertex: over a terminated stream (one that never emits) the
 * result is terminated as well, or a constant cell for `hold`; over a live
 * stream the result is backed by a new operator vertex on that stream.
 */
module EventStreams {
  import opened Wrappers
  import opened Transactions
  import opened Actions
  import opened LiveStreams
  import opened MappedStreams
  import opened FilteredStreams
  import opened SingleStreams
  import opened HeldCells
  import opened FrozenCells
  import opened ExecutedEachStreams

  /** A stream: terminated (`TerminatedEventStreamVertex`, and `EventStream.Never`), or backed by a live vertex. */
  datatype EventStream<E> = Terminated | Live(vertex: LiveEventStreamVertex<E>)

  /** The cell that `hold` yields: a pure cell over a terminated stream, a held cell over a live one. */
  datatype HeldCell<E> = Pure(constant: PureCellVertex<E>) | Held(held: HeldCellVertex<E>)

  /** The effect handle that `executeEach` yields: `Effect.Handle.Noop`, or the handle canceling its vertex. */
  datatype EffectHandle<E> = NoopHandle | CancelHandle(executed: ExecutedEachEventStreamVertex<E>)

  /** `map`: a mapped stream vertex over a live stream, a terminated stream otherwise. */
  method Map<E, F>(stream: EventStream<E>, transform: E -> F)
    returns (result: EventStream<F>, mapped: Option<MappedEventStreamVertex<E, F>>)
    requires stream.Live? ==> stream.vertex.Valid()
    ensures stream.Terminated? ==> result.Terminated? && mapped.None?
    ensures stream.Live? ==>
      && mapped.Some? && fresh(mapped.value) && fresh(mapped.value.vertex.Repr)
      && mapped.value.Valid() && mapped.value.source == stream.vertex && mapped.value.transform == transform
      && mapped.value.upstreamSubscriberHandle.None?
      && result == Live(mapped.value.vertex)
  {
    match stream
    case Terminated =>
      result, mapped := Terminated, None;
    case Live(source) =>
      var m := new MappedEventStreamVertex(source, transform);
      result, mapped := Live(m.vertex), Some(m);
  }

  /** `filter`: a filtered stream vertex over a live stream, a terminated stream otherwise. */
  method Filter<E>(stream: EventStream<E>, accepts: E -> bool)
    returns (result: EventStream<E>, filtered: Option<FilteredEventStreamVertex<E>>)
    requires stream.Live? ==> stream.vertex.Valid()
    ensures stream.Terminated? ==> result.Terminated? && filtered.None?
    ensures stream.Live? ==>
      && filtered.Some? && fresh(filtered.value) && fresh(filtered.value.vertex.Repr)
      && filtered.value.Valid() && filtered.value.source == stream.vertex && filtered.value.accepts == accepts
      && filtered.value.upstreamSubscriberHandle.None?
      && result == Live(filtered.value.vertex)
  {
    match stream
    case Terminated =>
      result, filtered := Terminated, None;
    case Live(source) =>
      var f := new FilteredEventStreamVertex(source, accepts);
      result, filtered := Live(f.vertex), Some(f);
  }

  /**
   * `single`: over a live stream, a single stream vertex, which subscribes to
   * the stream at once; a terminated stream otherwise.
   */
  method Single<E>(context: PropagationContext, stream: EventStream<E>)
    returns (result: EventStream<E>, single: Option<SingleEventStreamVertex<E>>)
    requires context.Valid() && (stream.Live? ==> stream.vertex.Valid())
    modifies if stream.Live? then stream.vertex.Repr else {}, context
    ensures context.Valid() && context.sideEffects == old(context.sideEffects)
    ensures stream.Terminated? ==> result.Terminated? && single.None?
    ensures stream.Live? ==>
      && single.Some? && fresh(single.value) && single.value.Valid() && single.value.source == stream.vertex
      && single.value.upstreamLooseSubscription.Some?
      && stream.vertex.subscribers.Holds(single.value.upstreamLooseSubscription.value.internalHandle)
      && single.value.vertex.ongoingEmission == old(stream.vertex.ongoingEmission)
      && result == Live(single.value.vertex)
  {
    match stream
    case Terminated =>
      result, single := Terminated, None;
    case Live(source) =>
      var s := new SingleEventStreamVertex(context, source);
      result, single := Live(s.vertex), Some(s);
  }

  /**
   * `hold`: over a live stream, a held cell whose stable value starts as
   * `initialValue`; over a terminated stream, a pure cell holding it.
   */
  method Hold<E>(stream: EventStream<E>, initialValue: E) returns (cell: HeldCell<E>)
    requires stream.Live? ==> stream.vertex.Valid()
    ensures stream.Terminated? ==> cell == Pure(PureCellVertex(initialValue))
    ensures stream.Live? ==>
      && cell.Held? && fresh(cell.held) && cell.held.Valid() && cell.held.source == stream.vertex
      && cell.held.vertex.retained == Some(initialValue) && cell.held.vertex.ongoingUpdate.None?
  {
    match stream
    case Terminated =>
      cell := Pure(PureCellVertex(initialValue));
    case Live(source) =>
      var h := new HeldCellVertex(source, initialValue);
      cell := Held(h);
  }

  /**
   * The start action of `executeEach`, executed: over a stream that is not
   * live, `EventStream.Never` with a no-op handle (and a no-op revocation);
   * over a live stream, a started executed-each vertex and the handle that
   * cancels it.
   */
  method ExecuteEach<E>(context: PropagationContext, stream: EventStream<Action<E>>)
    returns (result: EventStream<E>, handle: EffectHandle<E>)
    requires context.Valid() && (stream.Live? ==> stream.vertex.Valid())
    requires stream.Live? && stream.vertex.ongoingEmission.Some? ==>
      WellBehaved(stream.vertex.ongoingEmission.value.emittedEvent, context)
    modifies if stream.Live? then stream.vertex.Repr else {}, context
    ensures context.Valid()
    ensures stream.Terminated? ==>
      result.Terminated? && handle == NoopHandle && context.sideEffects == old(context.sideEffects)
    ensures stream.Live? ==>
      && handle.CancelHandle? && fresh(handle.executed) && handle.executed.Valid()
      && handle.executed.source == stream.vertex && fresh(stream.vertex.Repr - old(stream.vertex.Repr))
      && handle.executed.upstreamSubscriberHandle.Some?
      && stream.vertex.subscribers.Holds(handle.executed.upstreamSubscriberHandle.value.internalHandle)
      && result == Live(handle.executed.vertex)
    ensures stream.Live? && old(stream.vertex.ongoingEmission).None? ==>
      && handle.executed.vertex.ongoingEmission.None? && handle.executed.executedActionRevocationHandle.None?
      && context.sideEffects == old(context.sideEffects)
  {
    match stream
    case Terminated =>
      result, handle := Terminated, NoopHandle;
    case Live(source) =>
      var x := ExecutedEachEventStreamVertex.Start(context, source);
      result, handle := Live(x.vertex), CancelHandle(x);
  }

  /**
   * The revocation of the start action as written: aborts the vertex, if one
   * was started, with `abort` as written, which keeps the subscription's
   * handle.
   */
  method RevokeStartAsWritten<E>(context: PropagationContext, handle: EffectHandle<E>) returns (status: Status)
    requires context.Valid() && (handle.CancelHandle? ==> handle.executed.Valid())
    modifies if handle.CancelHandle? then {handle.executed} + handle.executed.source.Repr else {}, context
    ensures context.Valid()
    ensures handle.NoopHandle? ==> status == Done && context.sideEffects == old(context.sideEffects)
    ensures handle.CancelHandle? ==>
      && handle.executed.Valid() && handle.executed.executedActionRevocationHandle.None?
      && context.sideEffects == Withdrawn(old(context.sideEffects), old(handle.executed.executedActionRevocationHandle))
      && handle.executed.source.Repr == old(handle.executed.source.Repr)
      && handle.executed.upstreamSubscriberHandle == old(handle.executed.upstreamSubscriberHandle)
  {
    match handle
    case NoopHandle =>
      status := Done;
    case CancelHandle(x) =>
      status := x.AbortAsWritten(context);
  }

  /**
   * The revocation of the start action: aborts the vertex, if one was
   * started, with the corrected `abort` that also forgets the subscription.
   */
  method RevokeStart<E>(context: PropagationContext, handle: EffectHandle<E>) returns (status: Status)
    requires context.Valid() && (handle.CancelHandle? ==> handle.executed.Valid())
    modifies if handle.CancelHandle? then {handle.executed} + handle.executed.source.Repr else {}, context
    ensures context.Valid()
    ensures handle.NoopHandle? ==> status == Done && context.sideEffects == old(context.sideEffects)
    ensures handle.CancelHandle? ==>
      && handle.executed.Valid() && handle.executed.executedActionRevocationHandle.None?
      && context.sideEffects == Withdrawn(old(context.sideEffects), old(handle.executed.executedActionRevocationHandle))
      && handle.executed.source.Repr == old(handle.executed.source.Repr)
      && (status == Done ==> handle.executed.upstreamSubscriberHandle.None?)
  {
    match handle
    case NoopHandle =>
      status := Done;
    case CancelHandle(x) =>
      status := x.Abort(context);
  }

  /**
   * The `cancel` trigger of the handle as written: aborts the vertex with
   * `abort` as written, which drops the subscription but keeps its handle
   * (a no-op handle does nothing).
   */
  method CancelAsWritten<E>(context: PropagationContext, handle: EffectHandle<E>) returns (status: Status)
    requires context.Valid() && (handle.CancelHandle? ==> handle.executed.Valid())
    modifies if handle.CancelHandle? then {handle.executed} + handle.executed.source.Repr else {}, context
    ensures context.Valid()
    ensures handle.NoopHandle? ==> status == Done && context.sideEffects == old(context.sideEffects)
    ensures handle.CancelHandle? ==>
      && handle.executed.Valid() && handle.executed.executedActionRevocationHandle.None?
      && context.sideEffects == Withdrawn(old(context.sideEffects), old(handle.executed.executedActionRevocationHandle))
      && handle.executed.source.Repr == old(handle.executed.source.Repr)
      && handle.executed.source.ongoingEmission == old(handle.executed.source.ongoingEmission)
      && handle.executed.upstreamSubscriberHandle == old(handle.executed.upstreamSubscriberHandle)
      && (old(handle.executed.upstreamSubscriberHandle).None? ==> status == Failed(AlreadyAborted))
      && (old(handle.executed.upstreamSubscriberHandle).Some? &&
          old(handle.executed.source.subscribers.Holds(handle.executed.upstreamSubscriberHandle.value.internalHandle)) ==>
            && status == Done
            && !handle.executed.source.subscribers.Holds(old(handle.executed.upstreamSubscriberHandle).value.internalHandle))
  {
    match handle
    case NoopHandle =>
      status := Done;
    case CancelHandle(x) =>
      status := x.AbortAsWritten(context);
  }

  /**
   * The `cancel` trigger of the handle: aborts the vertex with the corrected
   * `abort`, so that revoking the cancellation can restart it (a no-op handle
   * does nothing).
   */
  method Cancel<E>(context: PropagationContext, handle: EffectHandle<E>) returns (status: Status)
    requires context.Valid() && (handle.CancelHandle? ==> handle.executed.Valid())
    modifies if handle.CancelHandle? then {handle.executed} + handle.executed.source.Repr else {}, context
    ensures context.Valid()
    ensures handle.NoopHandle? ==> status == Done && context.sideEffects == old(context.sideEffects)
    ensures handle.CancelHandle? ==>
      && handle.executed.Valid() && handle.executed.executedActionRevocationHandle.None?
      && context.sideEffects == Withdrawn(old(context.sideEffects), old(handle.executed.executedActionRevocationHandle))
      && handle.executed.source.Repr == old(handle.executed.source.Repr)
      && handle.executed.source.ongoingEmission == old(handle.executed.source.ongoingEmission)
      && (old(handle.executed.upstreamSubscriberHandle).None? ==> status == Failed(AlreadyAborted))
      && (old(handle.executed.upstreamSubscriberHandle).Some? &&
          old(handle.executed.source.subscribers.Holds(handle.executed.upstreamSubscriberHandle.value.internalHandle)) ==>
            && status == Done && handle.executed.upstreamSubscriberHandle.None?
            && !handle.executed.source.subscribers.Holds(old(handle.executed.upstreamSubscriberHandle).value.internalHandle))
  {
    match handle
    case NoopHandle =>
      status := Done;
    case CancelHandle(x) =>
      status := x.Abort(context);
  }

  /** Revoking a cancel: restarts the vertex (a no-op handle does nothing). */
  method RevokeCancel<E>(context: PropagationContext, handle: EffectHandle<E>) returns (status: Status)
    requires context.Valid()
    requires handle.CancelHandle? ==>
      && handle.executed.Valid()
      && (handle.executed.source.ongoingEmission.Some? ==>
            WellBehaved(handle.executed.source.ongoingEmission.value.emittedEvent, context))
    modifies if handle.CancelHandle? then {handle.executed, handle.executed.vertex} + handle.executed.source.Repr else {}, context
    ensures context.Valid()
    ensures handle.NoopHandle? ==> status == Done && context.sideEffects == old(context.sideEffects)
    ensures handle.CancelHandle? ==>
      && handle.executed.Valid()
      && fresh(handle.executed.source.Repr - old(handle.executed.source.Repr))
      && (old(handle.executed.upstreamSubscriberHandle).Some? ==>
            status == Failed(AlreadyActive) && context.sideEffects == old(context.sideEffects))
      && (old(handle.executed.upstreamSubscriberHandle).None? ==>
            && status == Done && handle.executed.upstreamSubscriberHandle.Some?
            && handle.executed.source.subscribers.Holds(handle.executed.upstreamSubscriberHandle.value.internalHandle))
      && (old(handle.executed.upstreamSubscriberHandle).None? && old(handle.executed.source.ongoingEmission).Some? ==>
            var x := old(handle.executed.source.ongoingEmission).value.emittedEvent(old(context.sideEffects));
            && handle.executed.vertex.ongoingEmission == Some(Emission(x.result))
            && handle.executed.executedActionRevocationHandle == Some(x.handle)
            && context.sideEffects == x.queue)
  {
    match handle
    case NoopHandle =>
      status := Done;
    case CancelHandle(x) =>
      status := x.Restart(context);
  }

  /**
   * With `cancel` as written, triggering the handle of a subscribed vertex
   * and then revoking that trigger fails: the restart finds the kept handle.
   */
  method CancelThenRevokeAsWritten<E>(context: PropagationContext, handle: EffectHandle<E>)
    returns (canceled: Status, revoked: Status)
    requires context.Valid() && handle.CancelHandle? && handle.executed.Valid()
    requires handle.executed.upstreamSubscriberHandle.Some?
    requires handle.executed.source.subscribers.Holds(handle.executed.upstreamSubscriberHandle.value.internalHandle)
    requires handle.executed.source.ongoingEmission.Some? ==>
      WellBehaved(handle.executed.source.ongoingEmission.value.emittedEvent, context)
    modifies {handle.executed, handle.executed.vertex} + handle.executed.source.Repr, context
    ensures canceled == Done && revoked == Failed(AlreadyActive)
  {
    canceled := CancelAsWritten(context, handle);
    revoked := RevokeCancel(context, handle);
  }

  /** With the corrected `cancel`, the same sequence subscribes the vertex to its source again. */
  method CancelThenRevoke<E>(context: PropagationContext, handle: EffectHandle<E>)
    returns (canceled: Status, revoked: Status)
    requires context.Valid() && handle.CancelHandle? && handle.executed.Valid()
    requires handle.executed.upstreamSubscriberHandle.Some?
    requires handle.executed.source.subscribers.Holds(handle.executed.upstreamSubscriberHandle.value.internalHandle)
    requires handle.executed.source.ongoingEmission.Some? ==>
      WellBehaved(handle.executed.source.ongoingEmission.value.emittedEvent, context)
    modifies {handle.executed, handle.executed.vertex} + handle.executed.source.Repr, context
    ensures canceled == Done && revoked == Done
    ensures handle.executed.Valid() && handle.executed.upstreamSubscriberHandle.Some?
    ensures handle.executed.source.subscribers.Holds(handle.executed.upstreamSubscriberHandle.value.internalHandle)
  {
    canceled := Cancel(context, handle);
    revoked := RevokeCancel(context, handle);
  }
}

/** Option and failure types shared by every module of the model. */
module Wrappers {

  datatype Option<+T> = None | Some(value: T)

  /** The programming errors the engine raises by throwing (require/check/throw in the source). */
  datatype Fault =
    | NodeAlreadyRemoved     // RawLinkedList.remove on an invalidated node
    | InvalidHandle          // a handle of a foreign type passed to unregister
    | AlreadyActive          // activate / restart while a subscription is held
    | NotActive              // deactivate / handler while no subscription is held
    | OuterNotUpdated        // switch: outer revocation without an updated inner vertex
    | ObservedAtWrapUp       // hold: wrap-up finds observers already registered
    | AlreadyTransited       // single: second transit
    | MissingRevocationHandle // executeEach: revoked emission without an executed action
    | AlreadyAborted         // executeEach: abort without a subscription

  /** The outcome of an operation that returns nothing or throws. */
  datatype Status = Done | Failed(fault: Fault)

  /** The outcome of an operation that returns a value or throws. */
  datatype Result<+T> = Success(value: T) | Failure(fault: Fault)
}

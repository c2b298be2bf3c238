/** Result types shared by every module, and the error codes of both services. */
module Prelude {

  datatype Option<+T> = None | Some(value: T)

  /** A value, or the code of the error that was returned instead. */
  datatype Outcome<+T> = Ok(value: T) | Fail(code: Code)

  /** order-service application codes. `PlainError` stands for any Go error that carries no code. */
  datatype Code =
    | InvalidArgument
    | Forbidden
    | ValidationFailed
    | ErrandNotFound
    | FenceNotFound
    | ErrandChanged
    | ErrandUnavailable
    | InvalidTransition
    | NotEligible
    | CourierRestricted
    | EditPending
    | SupplierDeletionInProgress
    | PlainError
}

/** The optional value used for a position's exit and the record's state,
    and the failure values shared by the series lookup, the order builders
    and the trading record's state machine. */
module Errors {

  datatype Option<T> = None | Some(value: T)

  /** The ways building orders or a trading record can fail. `position` is the
      0-based place, in the order stream, of the order that was refused. */
  datatype Error =
    | IndexOutOfRange(index: int)
    | InvalidOrderSequence(position: nat)
    | UnorderedOrder(position: nat)

  datatype Result<T> = Ok(value: T) | Err(error: Error)
}

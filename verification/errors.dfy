/** Failure values of the game engine and the Option/Result wrappers that
    replace the exceptions raised by main.py. */
module Errors {

  /** Every way an operation of the engine or the move parser refuses its input. */
  datatype Error =
    | OutOfBounds       // a coordinate outside the 8x8 grid
    | BadFormat         // the move text holds no "<col><row> - <col><row>"
    | DegenerateMove    // origin and destination are the same square
    | NotAligned        // a line query between squares sharing neither row nor column
    | EmptyOrigin       // no piece stands on the origin square
    | WrongSideToMove   // the origin piece belongs to the side not on move
    | NoApplicableRule  // no rule of the piece has all of its preconditions

  datatype Option<+T> = None | Some(value: T)

  /** The value of an operation that may fail; usable with `:-`. */
  datatype Result<+T> = Ok(value: T) | Err(error: Error) {

    predicate IsFailure() {
      Err?
    }

    function PropagateFailure<U>(): Result<U>
      requires Err?
    {
      Err(error)
    }

    function Extract(): T
      requires Ok?
    {
      value
    }
  }
}

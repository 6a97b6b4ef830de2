/** Results and the errors the driver reports. */
module Wrappers {

  datatype Option<+T> = None | Some(value: T)

  datatype Error =
    | TimedOut                                   // polling completion queue, or waiting for CSTS.RDY
    | WrongCommand(got: nat, expected: nat)      // completion carries another command's identifier
    | CommandFailed(sct: nat, sc: nat)           // error status in the completion
    | Fatal                                      // CSTS.CFS
    | EntrySizeRefused                           // Identify Controller excludes our entry sizes
    | ZeroBlocks
    | BadLength
    | TooLarge
    | NotInFile(lba: nat)
    | RangeOverflow
    | CannotParse
    | CannotRead
    | MalformedLine
    | NothingToWrite
    | DoesNotFit
    | UnknownCommand
    | NotOneCharacter
    | ReadlineFailed

  datatype Result<+T> = Ok(value: T) | Err(error: Error) {
    predicate IsFailure() {
      Err?
    }

    function PropagateFailure<U>(): Result<U>
      requires Err?
    {
      Err(error)
    }

    function Extract(): T
      requires Ok?
    {
      value
    }
  }
}

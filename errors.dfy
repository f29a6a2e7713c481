/**
 * The exception classes the core raises, as values. Each error carries the reason,
 * i.e. which check failed, standing for the exception's message.
 */
module Errors {

  datatype Reason =
    // configuration
    | BadDeckCount | BadPenetration | BadPayout
    // shoe
    | PenetrationReached | ShoeEmpty
    // game transitions
    | GameAlreadyStarted | ShoeNeedsShuffle | GameIsOver | GameNotStarted
    | CannotDouble | CannotSurrender
    // input validation
    | EmptyInput | NotAnInteger | BelowMinimum | AboveMaximum | NotAChoice
    | NameTooLong | NameHasInvalidCharacters | NotYesNo
    // dictionary decoding
    | MissingKey(key: string) | WrongType(key: string) | UnknownEnumValue(text: string)

  datatype ErrorKind =
    | ValueError(reason: Reason)                  // Python's ValueError (and KeyError/TypeError on decode)
    | RuntimeError(reason: Reason)                // Python's RuntimeError
    | GameLogicError(reason: Reason)
    | InvalidConfigurationError(reason: Reason)
    | InvalidInputError(reason: Reason)
    | ValidationError(reason: Reason)
}

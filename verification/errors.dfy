/** The application's error type: the variants the shell front end raises, with their payloads. */
module Errors {

  datatype AppError =
    | CommandNotFound(message: string)
    | ParseError(message: string)
    | InvalidInput
    | InvalidOption(message: string)
    | PopulatedFlagOptions(names: seq<string>)
    | MissingOptions(names: seq<string>)
    | DuplicateOptions(names: seq<string>)
    | IoError(message: string)
    | HttpError(message: string)
    | RegexError(message: string)
    | EntityNotFound(message: string)
    | MultipleEntitiesFound(message: string)
    | CommandExecutionError(message: string)
    | LockError
    | FormatError
}

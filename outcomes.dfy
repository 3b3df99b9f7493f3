/**
 Values that may be missing and outcomes of calls that may fail.
 `Option` models a TypeScript value that can be `null` or `undefined`;
 `Result` models a promise that either resolves with a value or rejects
 with an `Error` carrying a message.
 */
module Outcomes {

  datatype Option<+T> = None | Some(value: T)

  datatype Result<+T> = Ok(value: T) | Err(message: string)
}

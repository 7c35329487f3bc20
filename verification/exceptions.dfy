/** The exceptions the two cores raise, as values. */
module Exceptions {

  datatype Failure =
    | InvalidArgument(message: string)  // \InvalidArgumentException
    | TokenResponse(message: string)    // TokenResponseException
    | StringConversion(message: string) // PHP's Error for an object used as a string

  datatype Result<+T> = Ok(value: T) | Err(error: Failure)
}

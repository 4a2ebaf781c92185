/** The error values a request can record: the `Error` enum of Errors.swift, plus every
    other `ErrorType` (a transport `NSError`, or whatever a hook throws). */
module Errors {

  datatype Error =
    | IllegalURLString(urlString: string)
    | SerializeFailure(reason: string)
    | DeserializeFailure(reason: string)
    | RequestFailure
    | RequestCancelled
      /** an error from outside the enum, known only by its description */
    | Other(description: string)
}

/**
 * What a method handler is to the dispatcher, and how its work can end: with a response,
 * or with an exception that the dispatcher does not catch.
 */
module Handling {

  import opened JsonRpc

  /** The exceptions that can leave the core. */
  datatype Exception =
    | NoToolsAvailable           // the tools list was asked of an empty registry
    | RequestTypeError           // the request constructor refused its arguments
    | Thrown(message: string)    // anything else a handler throws

  datatype Outcome = Responded(response: Response) | Raised(exception: Exception)

  /** A method handler: whether it takes a request, and what it does with one. */
  datatype Handler = Handler(supports: Request -> bool, handle: Request -> Outcome)
}

/**
 * The errors the connector hands back to its host: plain Go errors, gRPC
 * status errors, errors passed through from the directory, the `io.EOF`
 * sentinel, and the runtime panic a nil dereference causes.
 */
module Errors {

  /** The gRPC status codes the connector uses. */
  datatype Code = InvalidArgument | Internal

  datatype Error =
    | EOF                                 // io.EOF: the read is exhausted
    | Message(text: string)               // errors.New / fmt.Errorf
    | Status(code: Code, desc: string)    // status.Error(code, desc)
    | Remote(text: string)                // an error returned by the directory, passed through
    | Crash                               // a nil pointer dereference: the Go runtime panics

  function CodeName(code: Code): string {
    match code
    case InvalidArgument => "InvalidArgument"
    case Internal => "Internal"
  }

  /** The text `err.Error()` yields for each kind of error. */
  function ErrorText(e: Error): string {
    match e
    case EOF => "EOF"
    case Message(t) => t
    case Status(code, desc) => "rpc error: code = " + CodeName(code) + " desc = " + desc
    case Remote(t) => t
    case Crash => "runtime error: invalid memory address or nil pointer dereference"
  }
}

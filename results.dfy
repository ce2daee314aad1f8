/** Errors raised by the session layer, and the Option/Result wrappers that carry them. */
module Results {

  datatype Option<+T> = None | Some(value: T)

  /** The exceptions the session layer can raise, one constructor per kind. */
  datatype Error =
    | CypherError(message: string)     // the server answered FAILURE
    | AssertionError                   // a guarded transaction or session invariant was violated
    | AttributeError(name: string)     // record lookup of an unknown field name
    | IndexError                       // record position out of range
    | TypeError                        // record index of an unsupported kind, or arithmetic on a missing timestamp
    | KeyError(key: string)            // metadata without the expected key
    | ValueError(message: string)      // unsupported URL scheme
    | ConnectionClosed                 // the server sent no further message

  datatype Result<+T> = Ok(value: T) | Err(error: Error)
}

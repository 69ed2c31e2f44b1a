/** Values shared by every part of the model: optional values, the Python
    exceptions the core raises or lets escape, and the service entity that the
    build and deploy pipelines consume as a black box. */
module Common {

  datatype Option<+T> = None | Some(value: T)

  /** A Python `str`-or-`None` value is truthy when it is present and non-empty. */
  predicate Truthy(o: Option<string>) {
    o.Some? && o.value != ""
  }

  /** The exceptions that the modelled code raises, catches or lets escape. */
  datatype Exc =
    | BuildFailedException(message: string)  // App.BuildFailedException
    | CalledProcessError                      // a subprocess exited with a non-zero status
    | IOError                                 // a file could not be opened or read
    | OSError                                 // a directory could not be (re)created or copied
    | KeyError(key: string)                   // os.environ[...] of an unset variable
    | NameError(name: string)                 // a reference to an undefined name
    | TypeError                               // "http://" + None
    | ValueError                              // unpacking a file that does not have two lines
    | IndexError                              // [0] of an empty list
    | RouteRejected                           // Exception("could not register route with proxy server")

  /** The value a Python call returns, or the exception it raises. */
  datatype Result<+T> = Ok(value: T) | Err(exc: Exc)

  /** A dependency service: `full_name` names it in messages, `name` heads its
      recipe block, and `client` is the optional text it injects into the app image. */
  datatype Service = Service(name: string, fullName: string, client: Option<string>)
}

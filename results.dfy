/** Optional values, results and the failures the GPIO layer raises. */
module Results {

  datatype Option<T> = None | Some(value: T)

  /**
   * One constructor per kind of exception raised on the paths that are modelled.
   * The registry and the pins raise plain exceptions with a message; the names
   * here say which check raised.
   */
  datatype Error =
    | InvalidPin           // number not in the available set
    | PinAlreadyAllocated  // number already a key of the allocated map
    | InvalidDirection     // direction not 'in' / 'out'
    | InvalidEdge          // callback given, edge not rising / falling / both
    | PinNotAllocated      // lookup of a number that is not allocated
    | MissingKey           // KeyError of a plain dictionary lookup
    | MissingEdge          // pin constructed with a callback and no edge
    | InvalidActiveLow     // active_low neither 0 nor 1
    | NoSuchFile           // the line's value file does not exist (any more)
    | NotAnInteger         // int() could not parse the value text
    | UnboundName          // NameError: a name used that the module never binds

  datatype Result<T> = Ok(value: T) | Err(error: Error)

  datatype Outcome = Pass | Fail(error: Error)
}

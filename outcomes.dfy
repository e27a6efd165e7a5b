/** Shared result and error types: the exceptions the source raises become Err values. */
module Outcomes {

  datatype Option<+T> = None | Some(value: T)

  /** Why a configured backend could not be loaded (utils.py's three ImproperlyConfigured messages). */
  datatype ConfigReason =
    | ImportFailed        // import_module raised ImportError
    | BadBackendList      // import_module raised ValueError (empty module name)
    | MissingAttribute    // getattr raised AttributeError

  /** Every exceptional outcome of the core. */
  datatype Fault =
    | NotFound                                   // Http404
    | JsonError                                  // json.loads raised ValueError
    | NetmaskError                               // ipaddr's supernet raised ValueError
    | ThrottleMissingExpected                    // confirm(obj): expected message is missing
    | ThrottleUnexpectedReturned                 // confirm(obj): another message was returned
    | ImproperlyConfigured(reason: ConfigReason)
    | RelativeImport                             // import_module raised TypeError: a relative name without a package
    | KeyMissing(key: string)                    // KeyError on a JSON parameter
    | UnpackError(values: nat, names: nat)       // ValueError from tuple unpacking
    | BackendRaised                              // an exception inside a backend's make_client or publish
    | NoBackend                                  // AttributeError: the service's backend is None

  datatype Result<+T> = Ok(value: T) | Err(error: Fault) {
    predicate IsFailure() { Err? }
    function PropagateFailure<U>(): Result<U> requires Err? { Err(error) }
    function Extract(): T requires Ok? { value }
  }
}

/**
 * Values shared by every component: optional values, results, and the
 * exceptions the orchestrator raises (utils/exceptions.py) together with the
 * Python runtime errors its code paths run into.
 */
module Common {

  datatype Unit = Unit

  datatype Option<T> = None | Some(value: T)

  /** The classes that derive from InternalException. */
  datatype InternalKind =
    | SecretNotFound
    | StorageBucketCreationFailed
    | UnsupportedOSFamily
    | SecretCreationFailed
    | SecretVersionCreationFailed
    | KeyCreationFailed
    | KeyPermissionAssignmentFailed
    | KeyRingCreationFailed
    | InstanceSerialOutput
    | ImageNotFound
    | OperationFailed
      // imported by the core modules but not defined in utils/exceptions.py;
      // modelled as InternalException subclasses like their siblings
    | ManagedInstanceGroupNotFound
    | ManagedInstanceGroupAlreadyExists
    | InstanceTemplateNotFound
    | InstanceTemplateAlreadyExists

  /**
   * Everything a step can raise. `Internal` keeps the argument given to the
   * constructor; `Message` applies the constructor's default.
   */
  datatype Error =
    | Internal(kind: InternalKind, given: string)
    | InvalidJson(text: string)
    | JsonParse(text: string)
    | Unauthorized(text: string)
    | Raised(text: string)           // a bare `Exception(...)`
    | ApiError(text: string)         // an error raised by a cloud or store client call
    | TypeError(text: string)
    | KeyError(key: string)
    | IndexError(text: string)
    | AttributeError(text: string)
    | NameError(name: string)
    | ValueError(text: string)
    | OSError(text: string)          // a file that cannot be opened
    | Exit(code: int)                // `exit(code)`: SystemExit, not an Exception

  const DefaultInternalMessage := "An internal error occurred."

  /** The `message` attribute InternalException.__init__ stores. */
  function Message(e: Error): (m: string)
    requires e.Internal?
    ensures m != ""
    ensures e.given != "" ==> m == e.given
  {
    if e.given != "" then e.given else DefaultInternalMessage
  }

  /** `except Exception` catches everything but SystemExit. */
  predicate IsException(e: Error) {
    !e.Exit?
  }

  datatype Result<T> = Ok(value: T) | Err(error: Error) {
    predicate IsFailure() { Err? }
    function PropagateFailure<U>(): Result<U>
      requires Err?
    {
      Err(error)
    }
    function Extract(): T
      requires Ok?
    {
      value
    }
  }
}

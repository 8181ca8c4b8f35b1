/**
 * The exceptions the query front end raises, and the result type that
 * carries them.  Each `Reason` is one `raise` site, so that a contract can
 * say not only which exception class is raised but which check raised it.
 */
module Errors {
  import opened PyObjects

  /** The exception classes. `InvalidPropertyError` stands for whatever the
      registered model class's property check raises. */
  datatype ErrorKind =
    | TypeError
    | ValueError
    | NotImplementedError
    | BadArgumentError
    | InvalidPropertyError

  /** Which of the two property-list arguments a check is about. */
  datatype PropertyArg = Projection | GroupBy

  datatype Reason =
    | ParameterKeyType(given: Value)
    | Unbound(key: ParamKey)
    | AncestorFunctionNotKey
    | AncestorNotKey(given: Value)
    | IncompleteAncestor
    | ThingComparison
    | AppMismatch
    | NamespaceMismatch
    | FiltersNotNode(given: Value)
    | MissingOrder
    | MissingConfiguration
    | UnexpectedProperty(given: Value)
    | EmptyArgument(arg: PropertyArg)
    | NotTupleOrList(arg: PropertyArg, given: Value)
    | PropertiesRejected(kind: string, names: seq<string>)

  datatype Error = Error(kind: ErrorKind, reason: Reason)

  /** A value, or the exception raised instead of returning it. */
  datatype Result<+T> = Ok(value: T) | Err(error: Error) {

    predicate IsFailure() {
      Err?
    }

    function PropagateFailure<U>(): Result<U>
      requires Err?
    {
      Err(error)
    }

    function Extract(): T
      requires Ok?
    {
      value
    }
  }
}

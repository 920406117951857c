/** Failure-compatible wrappers used by every module of the model. */
module Wrappers {

  /** An optional value, Python's `Optional[T]` / `None`. */
  datatype Option<+T> = None | Some(value: T)
  {
    function GetOr(default: T): T
    {
      match this
      case Some(v) => v
      case None => default
    }
  }

  /** The outcome of a call that may raise: a value, or the exception it raised. */
  datatype Result<+T, +E> = Success(value: T) | Failure(error: E)
  {
    predicate IsFailure()
    {
      Failure?
    }

    function PropagateFailure<U>(): Result<U, E>
      requires Failure?
    {
      Failure(error)
    }

    function Extract(): T
      requires Success?
    {
      value
    }
  }

  /** The outcome of a call that returns nothing but may raise. */
  datatype Outcome<+E> = Pass | Fail(error: E)
}

/** The exceptions the modelled code raises, by meaning rather than by message text. */
module Errors {

  datatype Error =
    /** TypeError: from `ExType.expect_valid`; from `len()` on a value that has no length;
        from `issubclass` on a base that is not a class; from `DataTypeInfo(**kw)` missing a
        required field; or from a keyword passed twice to `PrimaryKey`. */
    | TypeMismatch
    /** RuntimeError from `to_data_type`: a union that is not an Optional, or another generic alias. */
    | UnresolvableType
    /** AttributeError from `to_data_type`: a class that is neither a data type nor a table has
        no `__origin__`. */
    | MissingAttribute
    /** RuntimeError 'Primary key not found.' */
    | MissingPrimaryKey
    /** RuntimeError 'Multiple primary key is not allowed.' */
    | DuplicatePrimaryKey
    /** KeyError from looking up the key column by name. */
    | UnknownKeyColumn
    /** UnboundLocalError: a local name read before any assignment to it. */
    | UnboundLocal
    /** RuntimeError 'Unexpected type of `base`.' */
    | UnexpectedBase
}

/** Option, the error kinds the bot raises, and a failure-compatible Result. */
module Wrappers {

  datatype Option<+T> = None | Some(value: T)

  /** The exceptions the core raises or lets escape. `UsageError` and `CodeError`
      are the bot's own classes; `ValueError` is raised by the role lookups of
      src/Utils/roles.py; `MissingRole` is discord.py's permission error;
      `IntegrityError` is sqlite3's constraint violation; `Other` stands for any
      other exception (an AttributeError, an HTTP error). */
  datatype Error =
    | UsageError(msg: string)
    | CodeError(msg: string)
    | ValueError(msg: string)
    | MissingRole(msg: string)
    | IntegrityError(msg: string)
    | Other(msg: string)

  datatype Result<+T> = Ok(value: T) | Err(error: Error) {
    predicate IsFailure() {
      Err?
    }

    function PropagateFailure<U>(): Result<U>
      requires Err?
    {
      Err(error)
    }

    function Extract(): T
      requires Ok?
    {
      value
    }
  }

  /** A Result without a value: an operation that either completes or raises. */
  datatype Outcome = Done | Failed(error: Error) {
    predicate IsFailure() {
      Failed?
    }

    function PropagateFailure(): Outcome
      requires Failed?
    {
      this
    }
  }
}

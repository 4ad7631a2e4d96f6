/** Vocabulary shared by every part of the model: identifiers, times, scopes, contexts, outcomes of calls. */
module Common {
  /** A UUID. Its text form is fixed-width hexadecimal, so text order is numeric order. */
  type Id = int

  /** An instant; every stored instant has been normalised to UTC. */
  type Time = int

  datatype Option<+T> = None | Some(value: T)

  /** The error classes of the domain. Each stands for one Python exception type. */
  datatype Error =
    | DomainError | NotFoundError | ConflictError | AttributionError
    | LookupFailure | LeaseLost | ProcessingDenied | GovernanceUnavailable

  datatype Result<+T> = Ok(value: T) | Err(error: Error) {
    predicate IsFailure() {
      Err?
    }

    function PropagateFailure<U>(): Result<U>
      requires Err?
    {
      Err(error)
    }

    function Extract(): T
      requires Ok?
    {
      value
    }
  }

  datatype Scope = Scope(tenant: string, subject: string)

  /** A context in its canonical form: facets sorted by key, keys unique. Equality of contexts is equality of
      fingerprints. */
  datatype Context = Context(facets: seq<(string, string)>)

  function Max(a: int, b: int): int {
    if a >= b then a else b
  }

  function Min(a: int, b: int): int {
    if a <= b then a else b
  }

  /** The later of an optional instant and an instant. */
  function Later(a: Option<Time>, b: Time): Time {
    match a
    case None => b
    case Some(t) => Max(t, b)
  }
}

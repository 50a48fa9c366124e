/** The Go `error` values the core produces, compares or inspects. */
module Errors {

  /** Go compares error values by identity; here two values are the same error exactly when
      they are equal as data. */
  datatype Error =
    | ErrNoRows                              // database/sql's sql.ErrNoRows sentinel
    | PqError(code: string)                  // a *pq.Error from lib/pq, with its SQLSTATE code
    | ErrUniqueConstraint                    // repository.ErrUniqueConstraint, re-exported by the service
    | UserNotFound                           // a fresh errors.New("user is not found"), one value here
    | Wrapped(context: string, inner: Error) // an error wrapping another one (fmt.Errorf with %w)
    | Opaque(message: string)                // any other driver, connectivity or file-system error

  /** The SQLSTATE code PostgreSQL reports for unique_violation. */
  const UniqueViolation: string := "23505"

  /** The chain `errors.Unwrap` walks: the error itself, then what it wraps, and so on. */
  function Chain(e: Error): (c: seq<Error>)
    ensures |c| >= 1 && c[0] == e
    ensures forall i :: 0 <= i < |c| - 1 ==> c[i].Wrapped? && c[i + 1] == c[i].inner
    ensures !c[|c| - 1].Wrapped?
  {
    match e
    case Wrapped(_, inner) => [e] + Chain(inner)
    case _ => [e]
  }

  /** `errors.Is(e, target)`: some error on the unwrap chain of `e` equals `target`. */
  predicate Is(e: Error, target: Error)
  {
    e == target || (e.Wrapped? && Is(e.inner, target))
  }

  /** `errors.Is` agrees with membership in the unwrap chain. */
  lemma {:induction false} IsIffOnChain(e: Error, target: Error)
    ensures Is(e, target) <==> target in Chain(e)
  {
    match e
    case Wrapped(_, inner) =>
      IsIffOnChain(inner, target);
      assert Chain(e) == [e] + Chain(inner);
    case _ =>
  }
}

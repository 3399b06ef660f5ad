/** Go-style error values, as the deployer builds them with `fmt.Errorf` and `%w`.

An error is either a leaf cause reported by a tool or the network, or a context
string wrapped around an inner error.  The printed message of a wrapped error is
the context followed by the inner error's message, exactly as `%w` formats it.
 */
module Errors {

  datatype Option<+T> = None | Some(value: T)

  datatype Error =
    | Cause(text: string)
    | Wrapped(context: string, inner: Error)

  /** The result of an operation that returns only an `error`. */
  datatype Status = Ok | Failed(error: Error)

  /** The result of an operation that returns a value and an `error`. */
  datatype Result<+T> = Success(value: T) | Failure(error: Error)

  /** The text `err.Error()` prints. */
  function Message(e: Error): string
  {
    match e
    case Cause(t) => t
    case Wrapped(c, inner) => c + Message(inner)
  }

  /** The innermost error of the chain, the one `errors.Unwrap` reaches last. */
  function Root(e: Error): (r: Error)
    ensures r.Cause?
    ensures Wraps(e, r)
  {
    match e
    case Cause(_) => e
    case Wrapped(_, inner) => Root(inner)
  }

  /** `cause` occurs in the unwrap chain of `e` (`errors.Is` by identity). */
  predicate Wraps(e: Error, cause: Error)
  {
    e == cause || (e.Wrapped? && Wraps(e.inner, cause))
  }

  /** Every error's message ends with the message of any error it wraps. */
  lemma {:induction false} WrappedMessageEndsWithCause(e: Error, cause: Error)
    requires Wraps(e, cause)
    ensures |Message(cause)| <= |Message(e)|
    ensures Message(e)[|Message(e)| - |Message(cause)|..] == Message(cause)
  {
    if e != cause {
      WrappedMessageEndsWithCause(e.inner, cause);
      var m := Message(e.inner);
      assert Message(e) == e.context + m;
      assert Message(e)[|Message(e)| - |Message(cause)|..] == m[|m| - |Message(cause)|..];
    }
  }
}

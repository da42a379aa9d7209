/** Panic-to-error conversion around a callback. */
module TryCatch {
  import opened Wrappers
  import opened XErrors

  /** A value a callback may panic with: an error value, or any other value (shown by its text form). */
  datatype PanicValue = ErrorValue(err: Error) | OtherValue(repr: string)

  /** How a callback ended: it returned (a nil or non-nil error), or it panicked with a value. */
  datatype Outcome = Returned(result: Option<Error>) | Panicked(value: PanicValue)

  /** The error `try` reports for a callback outcome: a normal return is passed through unchanged, a panic
      with an error value yields that error, and any other panic yields a fresh "unexpected error". */
  function Try(o: Outcome): (err: Option<Error>)
    ensures err.None? <==> o == Returned(None)
    ensures o.Returned? ==> err == o.result
    ensures o.Panicked? && o.value.ErrorValue? ==> err == Some(o.value.err)
    ensures o.Panicked? && o.value.OtherValue? ==>
      err == Some(Formatted("unexpected error: " + o.value.repr, None))
  {
    match o
    case Returned(e) => e
    case Panicked(ErrorValue(e)) => Some(e)
    case Panicked(OtherValue(v)) => Some(Formatted("unexpected error: " + v, None))
  }

  /** A panicking callback always produces exactly one error, never nil. */
  lemma PanicIsNeverNil(v: PanicValue)
    ensures Try(Panicked(v)).Some?
  {
  }
}

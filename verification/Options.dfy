/** Optional values, and calls that answer or fail. */
module Options {
  datatype Option<+T> = None | Some(value: T)

  /** A call that answers, or fails without saying more. */
  datatype Outcome<+T> = Ok(value: T) | Err

  /** An answer that is not yes is no, or an error. */
  lemma NotYes(r: Outcome<bool>)
    requires r != Ok(true)
    ensures r == Err || r == Ok(false)
  {
    match r
    case Ok(value) => assert !value;
    case Err =>
  }
}

/** Shared value types. */
module Options {
  datatype Option<+T> = None | Some(value: T)

  /** The two exception families the program codec raises. */
  datatype Error = InvalidSnapshot | ValueError

  datatype Result<+T> = Ok(value: T) | Err(error: Error)

  lemma SomeMember(s: set<int>)
    ensures s != {} ==> exists x :: x in s
  {
    if forall x :: x !in s { assert s == {}; }
  }
}

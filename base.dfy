/** Small datatypes and facts shared by every module of the model. */
module Base {

  /** A value that may be missing: a failed read, an unset variable, a declaration not found. */
  datatype Option<+T> = None | Some(value: T)

  /** What a piece of Go code produces: a value, or a run-time panic
      (an index or slice bound out of range, an explicit `panic`). */
  datatype Outcome<+T> = Done(value: T) | Panic(reason: string)

  /** Concatenation is associative; stated apart so that proofs with many
      facts in scope need not rediscover it. */
  lemma AppendAssoc<T>(a: seq<T>, b: seq<T>, c: seq<T>)
    ensures a + b + c == a + (b + c)
  {
  }
}

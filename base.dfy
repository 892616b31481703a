/** Small failure-carrying wrappers shared by every module of the model. */
module Base {

  datatype Option<+T> = None | Some(value: T)

  /** The outcome of a step that may throw: `Err` carries the thrown message. */
  datatype Result<+T> = Ok(value: T) | Err(error: string) {
    predicate IsFailure() {
      Err?
    }

    function PropagateFailure<U>(): Result<U>
      requires Err?
    {
      Err(error)
    }

    function Extract(): T
      requires Ok?
    {
      value
    }
  }

  /** The zero- or one-element sequence of an optional value. */
  function ToSeq<T>(o: Option<T>): (s: seq<T>)
    ensures |s| <= 1
    ensures o.Some? <==> |s| == 1
    ensures o.Some? ==> s[0] == o.value
  {
    if o.Some? then [o.value] else []
  }
}

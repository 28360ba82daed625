/** Optional values and results, standing in for `undefined`/`null` and thrown errors. */
module Wrappers {

  datatype Option<+T> = None | Some(value: T)

  datatype Result<+T, +E> = Success(value: T) | Failure(error: E)

  /** `s.slice(start)`: a negative start counts from the end. */
  function JsSlice<T>(s: seq<T>, start: int): seq<T> {
    var from := if start < 0 then |s| + start else start;
    if from <= 0 then s else if from >= |s| then [] else s[from..]
  }
}

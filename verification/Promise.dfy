/** Promises: write-once results that a future, held elsewhere, waits for. */
module Promises {
  import opened Wrappers

  /**
   * The shared state of a promise and its future. The promise only holds it weakly: once no future is left
   * (abandoned), setting a result does nothing. Setting a second result is an error of the caller.
   */
  class Promise<T> {
    var value: Option<Result<T>>
    var abandoned: bool

    constructor ()
      ensures value.None? && !abandoned
    {
      value, abandoned := None, false;
    }

    ghost predicate Open()
      reads this
    {
      abandoned || value.None?
    }

    method Set(v: Result<T>)
      requires Open()
      modifies this`value
      ensures value == if abandoned then old(value) else Some(v)
    {
      if !abandoned {
        value := Some(v);
      }
    }
  }

  ghost predicate Distinct<T>(s: seq<T>) {
    forall i, j :: 0 <= i < j < |s| ==> s[i] != s[j]
  }
}

/**
 Definitions shared by the models.
 */
module Wrappers {
  datatype Option<+T> = None | Some(value: T)

  // RBM_SUCCESS and RBM_ERROR
  const SUCCESS := 0
  const ERROR := -1

  /** A sequence without the element at position k, if there is one. */
  function Without<T>(s: seq<T>, k: nat): seq<T> {
    if k < |s| then s[..k] + s[k + 1..] else s
  }

  lemma Assoc<T>(a: seq<T>, b: seq<T>, c: seq<T>)
    ensures a + (b + c) == a + b + c
  {
  }

  lemma Regroup<T>(a: seq<T>, b: seq<T>, c: seq<T>, d: seq<T>)
    ensures a + (b + c + d) == a + b + c + d
  {
  }
}

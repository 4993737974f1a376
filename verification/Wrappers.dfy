/** The usual "maybe" value, standing for Python's None and TypeScript's null. */
module Wrappers {
  datatype Option<+T> = None | Some(value: T)

  /** Re-bracketing a sequence of three parts. */
  lemma Regroup<T>(a: seq<T>, b: seq<T>, c: seq<T>)
    ensures (a + b) + c == a + (b + c)
  {
  }
}

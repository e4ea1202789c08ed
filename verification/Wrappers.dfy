/** What every part uses. */
module Wrappers {

  /** A pointer that may be null, or a result that may be missing. */
  datatype Option<+T> = None | Some(value: T)

  lemma SeqAssoc<T>(a: seq<T>, b: seq<T>, c: seq<T>)
    ensures (a + b) + c == a + (b + c)
  {
  }
}

/** The optional value used for the source's nullable references, and a fact about sequences. */
module Wrappers {
  datatype Option<T> = None | Some(value: T)

  lemma AppendAssoc<T>(a: seq<T>, b: seq<T>, c: seq<T>)
    ensures a + b + c == a + (b + c)
  {
  }
}

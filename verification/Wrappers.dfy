/** Shared by all modules. */
module Wrappers {
  datatype Option<T> = None | Some(value: T)

  lemma {:induction false} Associate<T>(a: seq<T>, b: seq<T>, c: seq<T>)
    ensures (a + b) + c == a + (b + c)
  {
  }
}

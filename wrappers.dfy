/** The optional value used wherever the scripts hold None or catch an
    error, and two sequence facts the loops and their proofs share. */
module Wrappers {

  datatype Option<+T> = None | Some(value: T)

  /** Taking one more element of s appends that element. */
  lemma TakeOneMore<T>(s: seq<T>, j: nat, x: T)
    requires j < |s| && s[j] == x
    ensures s[..j + 1] == s[..j] + [x]
  {
  }

  /** A non-empty sequence is its front followed by its last element. */
  lemma FrontLast<T>(s: seq<T>)
    requires s != []
    ensures s[..|s| - 1] + [s[|s| - 1]] == s
  {
  }
}

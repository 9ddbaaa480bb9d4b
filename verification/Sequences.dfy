/** What several modules say of sequences. */
module Sequences {

  type Byte = n: nat | n < 256
  type Bytes = seq<Byte>

  predicate Distinct<T(==)>(s: seq<T>) {
    forall i, j | 0 <= i < j < |s| :: s[i] != s[j]
  }
}

/** What several components share. */
module Basics {
  datatype Option<T> = None | Some(value: T)

  /** A device address as a number; one of them means everyone. */
  type Addr = nat
  const BROADCAST_ADDRESS: Addr := 0xFFFF_FFFF_FFFF_FFFF

  predicate NoDuplicates<T(==)>(s: seq<T>) {
    forall j, k :: 0 <= j < k < |s| ==> s[j] != s[k]
  }

  function Elements<T(==)>(s: seq<T>): set<T> {
    set x | x in s
  }
}

/** Two notions that several components share. */
module Basics {

  datatype Option<+T> = None | Some(value: T)

  /** std::find_if: the first element with the given key, or the end. */
  function FirstWith<T, K(==)>(s: seq<T>, key: T -> K, k: K): (i: nat)
    ensures i <= |s|
    ensures i < |s| ==> key(s[i]) == k
    ensures forall j | 0 <= j < i :: key(s[j]) != k
  {
    if s == [] || key(s[0]) == k then 0 else 1 + FirstWith(s[1..], key, k)
  }
}

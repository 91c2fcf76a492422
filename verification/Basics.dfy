/** Return codes and the largest int; sequences with one element less; powers of two. */
module Basics {
  const INT_MAX := 0x7fff_ffff

  const SUCCESS := 0
  const EPERM := 1
  const EAGAIN := 11
  const EBUSY := 16
  const EINVAL := 22
  const EDEADLK := 35

  /** No element occurs twice. */
  ghost predicate Distinct<T>(s: seq<T>) {
    forall i, j :: 0 <= i < j < |s| ==> s[i] != s[j]
  }

  /** s without its element at position i. */
  function Without<T>(s: seq<T>, i: nat): (r: seq<T>)
    requires i < |s|
  {
    s[..i] + s[i + 1..]
  }

  /** s without its first occurrence of x, if any. */
  function Dropped<T(==)>(s: seq<T>, x: T): (r: seq<T>)
    ensures x !in s ==> r == s
  {
    if s == [] then [] else if s[0] == x then s[1..] else [s[0]] + Dropped(s[1..], x)
  }

  function Pow2(n: nat): (r: nat)
    ensures r >= 1
  {
    if n == 0 then 1 else 2 * Pow2(n - 1)
  }
}

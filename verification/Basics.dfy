// Small shared vocabulary.
module Basics {

  datatype Option<+T> = None | Some(value: T)

  datatype Result<+T, +E> = Ok(value: T) | Err(error: E)

  predicate NoDup<T(==)>(s: seq<T>) {
    forall i, j :: 0 <= i < j < |s| ==> s[i] != s[j]
  }

  // Position of an element that is known to occur.
  function IndexOf<T(==)>(s: seq<T>, x: T): (i: nat)
    requires x in s
    ensures i < |s| && s[i] == x
  {
    if s[0] == x then 0 else 1 + IndexOf(s[1..], x)
  }

  type int32 = n: int | -0x8000_0000 <= n < 0x8000_0000

  // int32(n): what is left of an integer in 32 bits.
  function Int32(n: int): (r: int32)
    ensures -0x8000_0000 <= n < 0x8000_0000 ==> r == n
  {
    var m := n % 0x1_0000_0000;
    if m >= 0x8000_0000 then m - 0x1_0000_0000 else m
  }

  // The 32-bit value is the one that differs by a multiple of two to the 32nd.
  lemma Int32Wraps(n: int, r: int32)
    ensures Int32(n) == r <==> (n - r) % 0x1_0000_0000 == 0
  {
  }
}

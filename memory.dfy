/** Reallocation as the containers use it (YA_REALLOC). Allocation is taken
    to succeed; the bytes past the copied prefix are indeterminate. */
module Memory {

  function Min(a: nat, b: nat): nat
  {
    if a < b then a else b
  }

  /** A fresh block of n elements that starts with the first min(n, old length)
      elements of `a` (nothing when `a` is NULL). */
  method Realloc<T(0)>(a: array?<T>, n: nat) returns (b: array<T>)
    ensures fresh(b) && b.Length == n
    ensures a != null ==> b[..Min(n, a.Length)] == a[..Min(n, a.Length)]
  {
    b := new T[n];
    if a != null {
      var m := Min(n, a.Length);
      for j := 0 to m
        invariant forall k :: 0 <= k < j ==> b[k] == a[k]
      {
        b[j] := a[j];
      }
    }
  }
}

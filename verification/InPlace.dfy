/** One step of an insertion sort on an array of anything. */
module InPlace {
  /** The entry at `i` moves down to `j`, and those between move up by one. */
  method MoveDown<T>(a: array<T>, j: nat, i: nat)
    requires j <= i < a.Length
    modifies a
    ensures a[..i + 1] == old(a[..j] + [a[i]] + a[j..i]) && a[i + 1..] == old(a[i + 1..])
  {
    var x, m := a[i], i;
    while m > j
      invariant j <= m <= i
      invariant forall n :: 0 <= n < m ==> a[n] == old(a[n])
      invariant forall n :: m < n <= i ==> a[n] == old(a[n - 1])
      invariant forall n :: i < n < a.Length ==> a[n] == old(a[n])
    {
      a[m] := a[m - 1];
      m := m - 1;
    }
    a[j] := x;
    ghost var r := old(a[..j] + [a[i]] + a[j..i]);
    assert forall n :: 0 <= n <= i ==> a[n] == r[n];
    assert a[..i + 1] == r;
    assert forall n :: i < n < a.Length ==> a[n] == old(a[n]);
    assert a[i + 1..] == old(a[i + 1..]);
  }
}

/** Wrap-around cursor movement: every list on every screen is navigated by
    stepping one position up or down modulo the list's length. */
module Cursor {

  /** One step up, modulo `n`. */
  function Prev(i: int, n: int): (r: int)
    requires 0 <= i < n
    ensures 0 <= r < n
  {
    (i - 1) % n
  }

  /** One step down, modulo `n`. */
  function Next(i: int, n: int): (r: int)
    requires 0 <= i < n
    ensures 0 <= r < n
  {
    (i + 1) % n
  }

  /** The controllers' own decrement: wrap to the last index below zero. */
  lemma PrevWraps(i: int, n: int)
    requires 0 <= i < n
    ensures Prev(i, n) == if i - 1 < 0 then n - 1 else i - 1
  {
    if i == 0 {
      assert (i - 1) % n == n - 1 by { assert -1 == (-1) * n + (n - 1); }
    }
  }

  /** The controllers' own increment: wrap to zero at the length. */
  lemma NextWraps(i: int, n: int)
    requires 0 <= i < n
    ensures Next(i, n) == if i + 1 >= n then 0 else i + 1
  {
  }

  /** A step down undoes a step up and a step up undoes a step down. */
  lemma PrevNextInverse(i: int, n: int)
    requires 0 <= i < n
    ensures Prev(Next(i, n), n) == i
    ensures Next(Prev(i, n), n) == i
  {
    PrevWraps(Next(i, n), n);
    NextWraps(i, n);
    PrevWraps(i, n);
    NextWraps(Prev(i, n), n);
  }
}

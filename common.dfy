/** Finite sums and array snapshots shared by the bit-counting modules. */
module Common {

  datatype Option<T> = None | Some(value: T)

  /** f(0) + f(1) + ... + f(n - 1) */
  function SumTo(n: nat, f: nat -> int): int
  {
    if n == 0 then 0 else SumTo(n - 1, f) + f(n - 1)
  }

  /** Sums of functions that agree below n are equal. */
  lemma {:induction false} SumToCongruent(n: nat, f: nat -> int, g: nat -> int)
    requires forall i: nat :: i < n ==> f(i) == g(i)
    ensures SumTo(n, f) == SumTo(n, g)
  {
    if n > 0 {
      SumToCongruent(n - 1, f, g);
    }
  }

  /** Changing one summand changes the sum by the same amount. */
  lemma {:induction false} SumToUpdate(n: nat, f: nat -> int, g: nat -> int, k: nat)
    requires k < n
    requires forall i: nat :: i < n && i != k ==> f(i) == g(i)
    ensures SumTo(n, g) == SumTo(n, f) - f(k) + g(k)
  {
    if n - 1 == k {
      SumToCongruent(n - 1, f, g);
    } else {
      SumToUpdate(n - 1, f, g, k);
    }
  }

  /** A sum of terms each no larger, one of them smaller, is smaller. */
  lemma {:induction false} SumToStrictlyAbove(n: nat, f: nat -> int, g: nat -> int, k: nat)
    requires k < n
    requires forall i: nat :: i < n ==> f(i) <= g(i)
    requires f(k) < g(k)
    ensures SumTo(n, f) < SumTo(n, g)
  {
    if n - 1 == k {
      SumToBelow(n - 1, f, g);
    } else {
      SumToStrictlyAbove(n - 1, f, g, k);
    }
  }

  /** Sums of terms each no larger are no larger. */
  lemma {:induction false} SumToBelow(n: nat, f: nat -> int, g: nat -> int)
    requires forall i: nat :: i < n ==> f(i) <= g(i)
    ensures SumTo(n, f) <= SumTo(n, g)
  {
    if n > 0 {
      SumToBelow(n - 1, f, g);
    }
  }

  /** Sums add term by term. */
  lemma {:induction false} SumToAdd(n: nat, f: nat -> int, g: nat -> int, h: nat -> int)
    requires forall i: nat :: i < n ==> h(i) == f(i) + g(i)
    ensures SumTo(n, h) == SumTo(n, f) + SumTo(n, g)
  {
    if n > 0 {
      SumToAdd(n - 1, f, g, h);
    }
  }

  /** A sum of terms scaled by c is the sum scaled by c. */
  lemma {:induction false} SumToScale(n: nat, c: int, f: nat -> int, h: nat -> int)
    requires forall i: nat :: i < n ==> h(i) == c * f(i)
    ensures SumTo(n, h) == c * SumTo(n, f)
  {
    if n > 0 {
      SumToScale(n - 1, c, f, h);
      assert c * SumTo(n - 1, f) + c * f(n - 1) == c * (SumTo(n - 1, f) + f(n - 1));
    }
  }

  /** A sum of non-negative terms is non-negative. */
  lemma {:induction false} SumToNonNegative(n: nat, f: nat -> int)
    requires forall i: nat :: i < n ==> 0 <= f(i)
    ensures 0 <= SumTo(n, f)
  {
    if n > 0 {
      SumToNonNegative(n - 1, f);
    }
  }

  /** A sum of terms that vanish from m on stops growing at m. */
  lemma {:induction false} SumToTail(n: nat, m: nat, f: nat -> int)
    requires m <= n
    requires forall i: nat :: m <= i < n ==> f(i) == 0
    ensures SumTo(n, f) == SumTo(m, f)
  {
    if n > m {
      SumToTail(n - 1, m, f);
    }
  }

  /** A rectangular table of rows x cols integers. */
  predicate IsGrid(s: seq<seq<int>>, rows: nat, cols: nat)
  {
    |s| == rows && forall i :: 0 <= i < rows ==> |s[i]| == cols
  }

  /** The contents of a two-dimensional array, row by row. */
  function Rows(a: array2<int>): (r: seq<seq<int>>)
    reads a
    ensures IsGrid(r, a.Length0, a.Length1)
    ensures forall i, j :: 0 <= i < a.Length0 && 0 <= j < a.Length1 ==> r[i][j] == a[i, j]
  {
    seq(a.Length0, i requires 0 <= i < a.Length0 reads a =>
      seq(a.Length1, j requires 0 <= j < a.Length1 reads a => a[i, j]))
  }

  /** Two grids that agree entry by entry are equal. */
  lemma GridExtensional(s: seq<seq<int>>, t: seq<seq<int>>, rows: nat, cols: nat)
    requires IsGrid(s, rows, cols) && IsGrid(t, rows, cols)
    requires forall i, j :: 0 <= i < rows && 0 <= j < cols ==> s[i][j] == t[i][j]
    ensures s == t
  {
    forall i | 0 <= i < rows
      ensures s[i] == t[i]
    {
      assert forall j :: 0 <= j < cols ==> s[i][j] == t[i][j];
    }
  }
}

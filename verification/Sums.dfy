// Sums of an integer measure over the rows of a table.
module Sums {
  function Sum<T>(rows: seq<T>, f: T -> int): int {
    if rows == [] then 0 else Sum(rows[..|rows| - 1], f) + f(rows[|rows| - 1])
  }

  lemma SumAppend<T>(rows: seq<T>, row: T, f: T -> int)
    ensures Sum(rows + [row], f) == Sum(rows, f) + f(row)
  {
    assert (rows + [row])[..|rows|] == rows;
  }

  lemma {:induction false} SumConcat<T>(a: seq<T>, b: seq<T>, f: T -> int)
    ensures Sum(a + b, f) == Sum(a, f) + Sum(b, f)
  {
    if b == [] {
      assert a + b == a;
    } else {
      var front, last := b[..|b| - 1], b[|b| - 1];
      SumConcat(a, front, f);
      assert a + b == (a + front) + [last];
      SumAppend(a + front, last, f);
    }
  }

  lemma {:induction false} SumUpdate<T>(rows: seq<T>, i: nat, row: T, f: T -> int)
    requires i < |rows|
    ensures Sum(rows[i := row], f) == Sum(rows, f) - f(rows[i]) + f(row)
  {
    var n := |rows| - 1;
    if i == n {
      assert rows[i := row][..n] == rows[..n];
    } else {
      SumUpdate(rows[..n], i, row, f);
      assert rows[i := row][..n] == rows[..n][i := row];
    }
  }

  /** The order of the rows does not matter. */
  lemma {:induction false} SumPermutation<T>(a: seq<T>, b: seq<T>, f: T -> int)
    requires multiset(a) == multiset(b)
    ensures Sum(a, f) == Sum(b, f)
  {
    if a == [] {
      assert |b| == |multiset(b)|;
    } else {
      var front, last := a[..|a| - 1], a[|a| - 1];
      assert a == front + [last];
      assert last in multiset(b);
      var i :| 0 <= i < |b| && b[i] == last;
      Without(a, |a| - 1);
      Without(b, i);
      assert a[..|a| - 1] + a[|a| - 1 + 1..] == front;
      SumPermutation(front, b[..i] + b[i + 1..], f);
      SumWithout(b, i, f);
    }
  }

  lemma Without<T>(rows: seq<T>, i: nat)
    requires i < |rows|
    ensures multiset(rows[..i] + rows[i + 1..]) == multiset(rows) - multiset{rows[i]}
  {
    assert rows == rows[..i] + [rows[i]] + rows[i + 1..];
  }

  lemma {:induction false} SumWithout<T>(rows: seq<T>, i: nat, f: T -> int)
    requires i < |rows|
    ensures Sum(rows, f) == Sum(rows[..i] + rows[i + 1..], f) + f(rows[i])
  {
    var n, rest := |rows| - 1, rows[..i] + rows[i + 1..];
    if i == n {
      assert rest == rows[..n];
    } else {
      SumWithout(rows[..n], i, f);
      assert rest[..n - 1] == rows[..n][..i] + rows[..n][i + 1..];
    }
  }

  /** A measure that is never larger row by row has no larger sum. */
  lemma {:induction false} SumLe<T>(rows: seq<T>, f: T -> int, g: T -> int)
    requires forall row :: row in rows ==> f(row) <= g(row)
    ensures Sum(rows, f) <= Sum(rows, g)
  {
    if rows != [] {
      SumLe(rows[..|rows| - 1], f, g);
    }
  }

  lemma {:induction false} SumNonNegative<T>(rows: seq<T>, f: T -> int)
    requires forall row :: row in rows ==> f(row) >= 0
    ensures Sum(rows, f) >= 0
  {
    if rows != [] {
      SumNonNegative(rows[..|rows| - 1], f);
    }
  }

  /** A measure that is the difference of two others row by row has the difference of their sums. */
  lemma {:induction false} SumDifference<T>(rows: seq<T>, f: T -> int, g: T -> int, h: T -> int)
    requires forall row :: row in rows ==> h(row) == f(row) - g(row)
    ensures Sum(rows, h) == Sum(rows, f) - Sum(rows, g)
  {
    if rows != [] {
      SumDifference(rows[..|rows| - 1], f, g, h);
    }
  }
}

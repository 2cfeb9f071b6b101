/** Finite sums over table rows, and the few laws the ledgers need. */
module Sums {

  function Total<T>(f: T -> real, rows: seq<T>): (total: real)
  {
    if rows == [] then 0.0 else f(rows[0]) + Total(f, rows[1..])
  }

  lemma {:induction false} TotalAppend<T>(f: T -> real, rows: seq<T>, row: T)
    ensures Total(f, rows + [row]) == Total(f, rows) + f(row)
  {
    if rows == [] {
      assert rows + [row] == [row];
    } else {
      assert (rows + [row])[1..] == rows[1..] + [row];
      TotalAppend(f, rows[1..], row);
    }
  }

  lemma {:induction false} TotalConcat<T>(f: T -> real, front: seq<T>, back: seq<T>)
    ensures Total(f, front + back) == Total(f, front) + Total(f, back)
  {
    if front == [] {
      assert front + back == back;
    } else {
      assert (front + back)[1..] == front[1..] + back;
      TotalConcat(f, front[1..], back);
    }
  }

  lemma {:induction false} TotalUpdate<T>(f: T -> real, rows: seq<T>, k: nat, row: T)
    requires k < |rows|
    ensures Total(f, rows[k := row]) == Total(f, rows) - f(rows[k]) + f(row)
  {
    if k == 0 {
      assert rows[k := row][1..] == rows[1..];
    } else {
      assert rows[k := row][1..] == rows[1..][k - 1 := row];
      TotalUpdate(f, rows[1..], k - 1, row);
    }
  }

  /** Two tables with matching rows, compared row by row. */
  lemma {:induction false} TotalLe<S, T>(f: S -> real, left: seq<S>, g: T -> real, right: seq<T>)
    requires |left| == |right|
    requires forall k :: 0 <= k < |left| ==> f(left[k]) <= g(right[k])
    ensures Total(f, left) <= Total(g, right)
  {
    if left != [] {
      forall k | 0 <= k < |left[1..]| ensures f(left[1..][k]) <= g(right[1..][k]) {
        assert left[1..][k] == left[k + 1] && right[1..][k] == right[k + 1];
      }
      TotalLe(f, left[1..], g, right[1..]);
    }
  }

  lemma {:induction false} TotalEq<S, T>(f: S -> real, left: seq<S>, g: T -> real, right: seq<T>)
    requires |left| == |right|
    requires forall k :: 0 <= k < |left| ==> f(left[k]) == g(right[k])
    ensures Total(f, left) == Total(g, right)
  {
    TotalLe(f, left, g, right);
    TotalLe(g, right, f, left);
  }

  lemma {:induction false} TotalAdd<T>(f: T -> real, g: T -> real, sum: T -> real, rows: seq<T>)
    requires forall row :: row in rows ==> sum(row) == f(row) + g(row)
    ensures Total(sum, rows) == Total(f, rows) + Total(g, rows)
  {
    if rows != [] {
      TotalAdd(f, g, sum, rows[1..]);
    }
  }

  lemma {:induction false} TotalMinus<T>(f: T -> real, rate: real, g: T -> real, h: T -> real, rows: seq<T>)
    requires forall row :: row in rows ==> h(row) == f(row) - rate * g(row)
    ensures Total(h, rows) == Total(f, rows) - rate * Total(g, rows)
  {
    if rows != [] {
      TotalMinus(f, rate, g, h, rows[1..]);
      assert rate * (g(rows[0]) + Total(g, rows[1..])) == rate * g(rows[0]) + rate * Total(g, rows[1..]);
    }
  }
}

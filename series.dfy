/** Column arithmetic on a table's numeric series, as the pandas operations
    `.sum()`, `.cumsum()` and scalar multiplication use it. */
module Series {

  /** The sum of a column, adding its rows in order. */
  function Sum(s: seq<real>): real
  {
    if s == [] then 0.0 else Sum(s[..|s| - 1]) + s[|s| - 1]
  }

  /** Every row of a column multiplied by the same scalar (`df[col] *= c`). */
  function Scale(s: seq<real>, c: real): (r: seq<real>)
    ensures |r| == |s|
  {
    seq(|s|, i requires 0 <= i < |s| => s[i] * c)
  }

  /** A running total grows by one row at a time: this is what makes a
      `cumsum` computable by a loop with one accumulator. */
  lemma SumPrefix(s: seq<real>, i: int)
    requires 0 <= i < |s|
    ensures Sum(s[..i + 1]) == Sum(s[..i]) + s[i]
  {
    assert s[..i + 1][..i] == s[..i];
  }

  /** Scaling a column scales its sum. */
  lemma {:induction false} SumScale(s: seq<real>, c: real)
    ensures Sum(Scale(s, c)) == c * Sum(s)
  {
    if s == [] {
      assert Scale(s, c) == [];
    } else {
      var n := |s| - 1;
      var t := Scale(s, c);
      assert forall k :: 0 <= k < n ==> t[..n][k] == Scale(s[..n], c)[k];
      assert t[..n] == Scale(s[..n], c);
      assert t[n] == s[n] * c;
      SumScale(s[..n], c);
      calc {
        Sum(t);
        Sum(t[..n]) + t[n];
        Sum(Scale(s[..n], c)) + s[n] * c;
        c * Sum(s[..n]) + c * s[n];
        c * (Sum(s[..n]) + s[n]);
        c * Sum(s);
      }
    }
  }

  /** Overwriting one row changes the sum by the difference of the two values. */
  lemma {:induction false} SumUpdate(s: seq<real>, i: int, x: real)
    requires 0 <= i < |s|
    ensures Sum(s[i := x]) == Sum(s) - s[i] + x
  {
    var n := |s| - 1;
    if i == n {
      assert s[i := x][..n] == s[..n];
    } else {
      assert s[i := x][..n] == s[..n][i := x];
      SumUpdate(s[..n], i, x);
    }
  }

  /** A column with no negative row has a non-negative sum. */
  lemma {:induction false} SumNonNegative(s: seq<real>)
    requires forall i :: 0 <= i < |s| ==> s[i] >= 0.0
    ensures Sum(s) >= 0.0
  {
    if s != [] {
      SumNonNegative(s[..|s| - 1]);
    }
  }

  /** Scaling by 1 changes nothing, and a non-negative factor keeps a
      non-negative column non-negative. */
  lemma ScaleRows(s: seq<real>, c: real)
    ensures c == 1.0 ==> Scale(s, c) == s
    ensures c >= 0.0 && (forall i :: 0 <= i < |s| ==> s[i] >= 0.0) ==>
      forall i :: 0 <= i < |s| ==> Scale(s, c)[i] >= 0.0
  {
  }

  /** A column of zeros sums to zero. */
  lemma {:induction false} SumZeros(s: seq<real>)
    requires forall i :: 0 <= i < |s| ==> s[i] == 0.0
    ensures Sum(s) == 0.0
  {
    if s != [] {
      SumZeros(s[..|s| - 1]);
    }
  }
}

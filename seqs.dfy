/** Flattening of nested blocks of rows: a nested `for` loop that appends
    to one list produces the concatenation of its inner blocks. */
module Seqs {

  function Concat<T>(s: seq<seq<T>>): seq<T>
  {
    if s == [] then [] else Concat(s[..|s| - 1]) + s[|s| - 1]
  }

  /** The sum of the block sizes. */
  function TotalLength<T>(s: seq<seq<T>>): nat
  {
    if s == [] then 0 else TotalLength(s[..|s| - 1]) + |s[|s| - 1]|
  }

  /** One more pass of the outer loop appends one more block. */
  lemma ConcatStep<T>(s: seq<seq<T>>, i: nat)
    requires i < |s|
    ensures Concat(s[..i + 1]) == Concat(s[..i]) + s[i]
  {
    assert s[..i + 1][..i] == s[..i];
  }

  lemma {:induction false} ConcatLength<T>(s: seq<seq<T>>)
    ensures |Concat(s)| == TotalLength(s)
  {
    if s != [] {
      ConcatLength(s[..|s| - 1]);
    }
  }

  /** Blocks of equal size `k`: the result has `k * |s|` rows and row
      `i * k + j` is row `j` of block `i`. */
  lemma {:induction false} ConcatUniform<T>(s: seq<seq<T>>, k: nat)
    requires forall i :: 0 <= i < |s| ==> |s[i]| == k
    ensures |Concat(s)| == k * |s|
    ensures forall i, j :: 0 <= i < |s| && 0 <= j < k ==> i * k + j < |Concat(s)| && Concat(s)[i * k + j] == s[i][j]
  {
    if s != [] {
      var n := |s| - 1;
      var front := s[..n];
      ConcatUniform(front, k);
      assert |Concat(s)| == k * n + k;
      forall i, j | 0 <= i < |s| && 0 <= j < k
        ensures i * k + j < |Concat(s)| && Concat(s)[i * k + j] == s[i][j]
      {
        if i < n {
          assert (i + 1) * k <= n * k by { MulMono(i + 1, n, k); }
          assert Concat(s)[i * k + j] == Concat(front)[i * k + j];
        } else {
          assert i * k + j == k * n + j;
        }
      }
    }
  }

  /** Arithmetic step for the index bound in `ConcatUniform`. */
  lemma MulMono(a: nat, b: nat, k: nat)
    requires a <= b
    ensures a * k <= b * k
  {
  }

  /** Every row of the flattened result comes from some block. */
  lemma {:induction false} InConcat<T>(s: seq<seq<T>>, x: T)
    requires x in Concat(s)
    ensures exists i :: 0 <= i < |s| && x in s[i]
  {
    var n := |s| - 1;
    if x in s[n] {
    } else {
      InConcat(s[..n], x);
      var i :| 0 <= i < n && x in s[..n][i];
      assert x in s[i];
    }
  }
}

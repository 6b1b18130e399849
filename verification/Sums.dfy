/** Sums of integer sequences, shared by the window and the interleaving proofs. */
module Sums {

  function Sum(s: seq<int>): int {
    if s == [] then 0 else s[0] + Sum(s[1..])
  }

  function Zeros(n: nat): seq<int> {
    seq(n, _ => 0)
  }

  function Max(a: int, b: int): int {
    if a < b then b else a
  }

  function Min(a: int, b: int): int {
    if a < b then a else b
  }

  /** The sum of the magnitudes of the negative members. */
  function NegativeMass(s: seq<int>): nat {
    if s == [] then 0 else Max(0, -s[0]) + NegativeMass(s[1..])
  }

  lemma {:induction false} SumAppend(a: seq<int>, b: seq<int>)
    ensures Sum(a + b) == Sum(a) + Sum(b)
  {
    if a == [] {
      assert a + b == b;
    } else {
      SumAppend(a[1..], b);
      assert (a + b)[1..] == a[1..] + b;
    }
  }

  lemma {:induction false} SumZeros(n: nat)
    ensures Sum(Zeros(n)) == 0
  {
    if n > 0 {
      SumZeros(n - 1);
      assert Zeros(n)[1..] == Zeros(n - 1);
    }
  }

  lemma {:induction false} SumUpdate(s: seq<int>, i: nat, x: int)
    requires i < |s|
    ensures Sum(s[i := x]) == Sum(s) - s[i] + x
  {
    if i == 0 {
      assert s[0 := x][1..] == s[1..];
    } else {
      SumUpdate(s[1..], i - 1, x);
      assert s[i := x][1..] == s[1..][i - 1 := x];
    }
  }

  lemma {:induction false} NegativeMassBoundsSum(s: seq<int>)
    ensures -Sum(s) <= NegativeMass(s)
  {
    if s != [] {
      NegativeMassBoundsSum(s[1..]);
    }
  }

  lemma {:induction false} NegativeSumHasNegative(s: seq<int>)
    requires Sum(s) < 0
    ensures exists k :: 0 <= k < |s| && s[k] < 0
  {
    if s[0] >= 0 {
      NegativeSumHasNegative(s[1..]);
      var k :| 0 <= k < |s| - 1 && s[1..][k] < 0;
      assert s[k + 1] < 0;
    }
  }

  lemma {:induction false} NonNegativeHasNoMass(s: seq<int>)
    requires forall k :: 0 <= k < |s| ==> s[k] >= 0
    ensures NegativeMass(s) == 0
  {
    if s != [] {
      NonNegativeHasNoMass(s[1..]);
    }
  }
}

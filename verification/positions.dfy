/** Counting the wanted elements of a sequence. */
module Positions {

  /** How many of the first `n` elements are wanted: the place a wanted element at `n` takes among them. */
  function Rank<T>(input: seq<T>, wanted: T -> bool, n: nat): nat
    requires n <= |input|
  {
    if n == 0 then 0 else (if wanted(input[0]) then 1 else 0) + Rank(input[1..], wanted, n - 1)
  }

  lemma {:induction false} RankSnoc<T>(input: seq<T>, wanted: T -> bool, n: nat)
    requires 0 < n <= |input|
    ensures Rank(input, wanted, n) == Rank(input, wanted, n - 1) + if wanted(input[n - 1]) then 1 else 0
  {
    if n > 1 {
      RankSnoc(input[1..], wanted, n - 1);
    }
  }

  lemma {:induction false} RankOfPrefix<T>(input: seq<T>, wanted: T -> bool, m: nat, n: nat)
    requires n <= m <= |input|
    ensures Rank(input[..m], wanted, n) == Rank(input, wanted, n)
  {
    if n > 0 {
      assert input[..m][1..] == input[1..][..m - 1];
      RankOfPrefix(input[1..], wanted, m - 1, n - 1);
    }
  }
}

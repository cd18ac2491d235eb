/** `shuffleArray`: copy the array, then walk `i` from the last index down to
    1 swapping entry `i` with a random entry `j` in 0..i (Fisher–Yates).
    The random draw `Math.floor(Math.random() * (i + 1))` is the parameter
    `rand`, reduced into 0..i. */
module Shuffle {

  function Swap<T>(s: seq<T>, i: nat, j: nat): (r: seq<T>)
    requires i < |s| && j < |s|
    ensures |r| == |s|
    ensures r[i] == s[j] && r[j] == s[i]
    ensures forall k :: 0 <= k < |s| && k != i && k != j ==> r[k] == s[k]
  {
    s[i := s[j]][j := s[i]]
  }

  lemma SwapPermutes<T>(s: seq<T>, i: nat, j: nat)
    requires i < |s| && j < |s|
    ensures multiset(Swap(s, i, j)) == multiset(s)
  {
    var t := s[i := s[j]];
    assert multiset(t) == multiset(s) - multiset{s[i]} + multiset{s[j]};
    assert t[j] == (if i == j then s[j] else s[j]);
  }

  /** The swaps for indices `i` down to 1. */
  function ShuffleDown<T>(s: seq<T>, i: int, rand: nat -> nat): (r: seq<T>)
    requires -1 <= i < |s|
    ensures |r| == |s|
    decreases i + 1
  {
    if i <= 0 then s else ShuffleDown(Swap(s, i, rand(i) % (i + 1)), i - 1, rand)
  }

  /** What `shuffleArray(s)` returns for the draws `rand`. */
  function Shuffled<T>(s: seq<T>, rand: nat -> nat): seq<T>
  {
    ShuffleDown(s, |s| - 1, rand)
  }

  lemma {:induction false} ShuffleDownPermutes<T>(s: seq<T>, i: int, rand: nat -> nat)
    requires -1 <= i < |s|
    ensures multiset(ShuffleDown(s, i, rand)) == multiset(s)
    decreases i + 1
  {
    if i > 0 {
      var j := rand(i) % (i + 1);
      SwapPermutes(s, i, j);
      ShuffleDownPermutes(Swap(s, i, j), i - 1, rand);
    }
  }

  /** Whatever the draws, the shuffle is a permutation of its input with the
      same length. */
  lemma ShuffledPermutes<T>(s: seq<T>, rand: nat -> nat)
    ensures |Shuffled(s, rand)| == |s|
    ensures multiset(Shuffled(s, rand)) == multiset(s)
  {
    ShuffleDownPermutes(s, |s| - 1, rand);
  }

  /** The swap loop over a fresh copy; the input, a value, is untouched. */
  method ShuffleArray<T>(input: seq<T>, rand: nat -> nat) returns (r: seq<T>)
    ensures r == Shuffled(input, rand)
    ensures |r| == |input| && multiset(r) == multiset(input)
  {
    var a := new T[|input|](k requires 0 <= k < |input| => input[k]);
    var i := a.Length - 1;
    assert a[..] == input;
    while i > 0
      invariant -1 <= i < a.Length
      invariant ShuffleDown(a[..], i, rand) == Shuffled(input, rand)
    {
      var j := rand(i) % (i + 1);
      ghost var before := a[..];
      a[i], a[j] := a[j], a[i];
      assert a[..] == Swap(before, i, j);
      i := i - 1;
    }
    r := a[..];
    ShuffledPermutes(input, rand);
  }
}

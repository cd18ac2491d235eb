/** Sequence helpers shared by the feed assemblers: `slice(0, n)` and the
    subsequence relation that states "keeps some entries, in order". */
module Seqs {

  /** A value that may be absent (`null`/`undefined`, or not of the expected shape). */
  datatype Option<T> = None | Some(value: T)

  /** `x || []` for a value that is an array or not (`None`). */
  function ArrayOrEmpty<T>(o: Option<seq<T>>): seq<T>
  {
    if o.Some? then o.value else []
  }

  /** `s.slice(0, n)`: the first `n` entries, or all of them when fewer. */
  function Take<T>(s: seq<T>, n: nat): (r: seq<T>)
    ensures |r| == if |s| <= n then |s| else n
    ensures r == s[..|r|]
  {
    if |s| <= n then s else s[..n]
  }

  lemma TakeMultiset<T>(s: seq<T>, n: nat)
    ensures multiset(Take(s, n)) <= multiset(s)
  {
    if n < |s| {
      assert s == s[..n] + s[n..];
    }
  }

  /** `a` is `b` with some entries left out, the rest in the same order.
      Matched greedily from the end. */
  predicate IsSubsequence<T(==)>(a: seq<T>, b: seq<T>)
    decreases |b|
  {
    if a == [] then true
    else if b == [] then false
    else if a[|a| - 1] == b[|b| - 1] then IsSubsequence(a[..|a| - 1], b[..|b| - 1])
    else IsSubsequence(a, b[..|b| - 1])
  }

  lemma {:induction false} SubsequenceDropLast<T>(a: seq<T>, b: seq<T>)
    requires a != [] && IsSubsequence(a, b)
    ensures IsSubsequence(a[..|a| - 1], b)
    decreases |b|, 0
  {
    var a' := a[..|a| - 1];
    var b' := b[..|b| - 1];
    if a[|a| - 1] == b[|b| - 1] {
      SubsequenceExtend(a', b', b[|b| - 1]);
      assert b' + [b[|b| - 1]] == b;
    } else {
      SubsequenceDropLast(a, b');
      SubsequenceExtend(a', b', b[|b| - 1]);
      assert b' + [b[|b| - 1]] == b;
    }
  }

  /** Appending to the longer sequence keeps the relation. */
  lemma {:induction false} SubsequenceExtend<T>(a: seq<T>, b: seq<T>, x: T)
    requires IsSubsequence(a, b)
    ensures IsSubsequence(a, b + [x])
    decreases |b|, 1
  {
    var bx := b + [x];
    assert bx[..|bx| - 1] == b;
    if a != [] && a[|a| - 1] == x {
      SubsequenceDropLast(a, b);
    }
  }

  /** Appending the same entry to both keeps the relation. */
  lemma SubsequenceAppendBoth<T>(a: seq<T>, b: seq<T>, x: T)
    requires IsSubsequence(a, b)
    ensures IsSubsequence(a + [x], b + [x])
  {
    assert (a + [x])[..|a|] == a;
    assert (b + [x])[..|b|] == b;
  }

  lemma {:induction false} SubsequenceMultiset<T>(a: seq<T>, b: seq<T>)
    requires IsSubsequence(a, b)
    ensures multiset(a) <= multiset(b)
    decreases |b|
  {
    if a != [] {
      var b' := b[..|b| - 1];
      assert b == b' + [b[|b| - 1]];
      if a[|a| - 1] == b[|b| - 1] {
        SubsequenceMultiset(a[..|a| - 1], b');
        assert a == a[..|a| - 1] + [a[|a| - 1]];
      } else {
        SubsequenceMultiset(a, b');
      }
    }
  }

  lemma SubsequenceMembers<T>(a: seq<T>, b: seq<T>)
    requires IsSubsequence(a, b)
    ensures forall x :: x in a ==> x in b
  {
    SubsequenceMultiset(a, b);
    forall x | x in a ensures x in b {
      assert x in multiset(a);
    }
  }

  lemma SubsequenceReflexive<T>(a: seq<T>)
    ensures IsSubsequence(a, a)
  {
    if a != [] {
      SubsequenceReflexive(a[..|a| - 1]);
    }
  }

  /** The set of entries of a sequence has no more elements than the sequence. */
  lemma {:induction false} CardinalityOfElements<T>(s: seq<T>)
    ensures |set x | x in s| <= |s|
  {
    if s != [] {
      var init := s[..|s| - 1];
      CardinalityOfElements(init);
      assert (set x | x in s) == (set x | x in init) + {s[|s| - 1]} by {
        assert s == init + [s[|s| - 1]];
      }
    }
  }

  lemma {:induction false} SubsetCardinality<T>(a: set<T>, b: set<T>)
    requires a <= b
    ensures |a| <= |b|
    decreases a
  {
    if a != {} {
      var x :| x in a;
      SubsetCardinality(a - {x}, b - {x});
    }
  }

  /** No two positions share a key. */
  ghost predicate DistinctBy<T, K>(s: seq<T>, key: T -> K)
  {
    forall i, j :: 0 <= i < j < |s| ==> key(s[i]) != key(s[j])
  }

  /** The same on a multiset, where it survives reordering: entries with
      equal keys are one entry, held once. */
  ghost predicate UniqueBy<T, K>(m: multiset<T>, key: T -> K)
  {
    && (forall x, y :: x in m && y in m && key(x) == key(y) ==> x == y)
    && (forall x :: x in m ==> m[x] == 1)
  }

  lemma {:induction false} DistinctByAsMultiset<T, K>(s: seq<T>, key: T -> K)
    ensures DistinctBy(s, key) <==> UniqueBy(multiset(s), key)
  {
    if DistinctBy(s, key) {
      DistinctByCounted(s, key);
    } else {
      var i, j :| 0 <= i < j < |s| && key(s[i]) == key(s[j]);
      assert s == s[..j] + s[j..];
      assert s[i] in multiset(s[..j]);
      assert s[j] in multiset(s[j..]);
      if s[i] == s[j] {
        assert multiset(s)[s[j]] >= 2;
      } else {
        assert s[i] in multiset(s) && s[j] in multiset(s);
      }
    }
  }

  lemma {:induction false} DistinctByCounted<T, K>(s: seq<T>, key: T -> K)
    requires DistinctBy(s, key)
    ensures UniqueBy(multiset(s), key)
  {
    if s != [] {
      var init := s[..|s| - 1];
      var last := s[|s| - 1];
      assert s == init + [last];
      assert DistinctBy(init, key);
      DistinctByCounted(init, key);
      assert forall k :: 0 <= k < |init| ==> key(init[k]) != key(last) by {
        forall k | 0 <= k < |init| ensures key(init[k]) != key(last) {
          assert init[k] == s[k];
        }
      }
      assert forall y :: y in init ==> key(y) != key(last);
      assert multiset(s)[last] == 1;
    }
  }

  /** A permutation of a sequence with distinct keys has distinct keys. */
  lemma DistinctByPermutation<T, K>(s: seq<T>, t: seq<T>, key: T -> K)
    requires DistinctBy(s, key) && multiset(t) == multiset(s)
    ensures DistinctBy(t, key)
  {
    DistinctByAsMultiset(s, key);
    DistinctByAsMultiset(t, key);
  }
}

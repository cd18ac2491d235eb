/** The user vector of `getXraiShorts`: `addWeight` adds a weight to every
    keyword of a text, over subscriptions (5), the 30 latest shorts (title
    3, channel 4, times a recency decay) and the 20 latest videos (title
    1.5, channel 2, times the decay). The vector is a `Map`, so its entries
    keep first-insertion order, which decides ties among the top keywords. */
module UserProfile {
  import opened Seqs
  import opened Videos
  import opened Ranking

  /** The map's weights and its keys in insertion order. */
  datatype UserVector = UserVector(weights: map<string, real>, order: seq<string>)

  const NoWeights := UserVector(map[], [])

  ghost predicate WellFormed(u: UserVector)
  {
    && (forall i, j :: 0 <= i < j < |u.order| ==> u.order[i] != u.order[j])
    && (forall k :: k in u.order <==> k in u.weights)
  }

  /** `userVector.set(k, (userVector.get(k) || 0) + w)`. */
  function Bump(u: UserVector, k: string, w: real): UserVector
  {
    if k in u.weights then UserVector(u.weights[k := u.weights[k] + w], u.order)
    else UserVector(u.weights[k := w], u.order + [k])
  }

  function Accumulate(u: UserVector, pairs: seq<(string, real)>): UserVector
  {
    if pairs == [] then u
    else
      var p := pairs[|pairs| - 1];
      Bump(Accumulate(u, pairs[..|pairs| - 1]), p.0, p.1)
  }

  /** `addWeight(text, w)` as the pairs it adds, one per keyword. */
  function Pairs(ks: seq<string>, w: real): (r: seq<(string, real)>)
    ensures |r| == |ks|
    ensures forall i :: 0 <= i < |ks| ==> r[i] == (ks[i], w)
  {
    seq(|ks|, i requires 0 <= i < |ks| => (ks[i], w))
  }

  function SubscriptionPairs(subs: seq<Channel>, keywords: string -> seq<string>): seq<(string, real)>
  {
    if subs == [] then []
    else SubscriptionPairs(subs[..|subs| - 1], keywords) + Pairs(keywords(subs[|subs| - 1].name), 5.0)
  }

  /** The two `addWeight` calls per history entry, entry `i` weighted by
      `decay(i)`. */
  function HistoryPairs(hist: seq<Video>, wTitle: real, wChannel: real, keywords: string -> seq<string>, decay: nat -> real)
    : seq<(string, real)>
  {
    if hist == [] then []
    else
      var i := |hist| - 1;
      HistoryPairs(hist[..i], wTitle, wChannel, keywords, decay)
        + Pairs(keywords(hist[i].title), wTitle * decay(i))
        + Pairs(keywords(hist[i].channelName), wChannel * decay(i))
  }

  function SignalPairs(subs: seq<Channel>, shortsHistory: seq<Video>, watchHistory: seq<Video>,
                       keywords: string -> seq<string>, decay: nat -> real): seq<(string, real)>
  {
    SubscriptionPairs(subs, keywords)
      + HistoryPairs(Take(shortsHistory, 30), 3.0, 4.0, keywords, decay)
      + HistoryPairs(Take(watchHistory, 20), 1.5, 2.0, keywords, decay)
  }

  function UserVectorOf(subs: seq<Channel>, shortsHistory: seq<Video>, watchHistory: seq<Video>,
                        keywords: string -> seq<string>, decay: nat -> real): UserVector
  {
    Accumulate(NoWeights, SignalPairs(subs, shortsHistory, watchHistory, keywords, decay))
  }

  /** The total weight the pairs give key `k`. */
  function WeightSum(pairs: seq<(string, real)>, k: string): real
  {
    if pairs == [] then 0.0
    else WeightSum(pairs[1..], k) + (if pairs[0].0 == k then pairs[0].1 else 0.0)
  }

  lemma {:induction false} WeightSumAppend(a: seq<(string, real)>, p: (string, real), k: string)
    ensures WeightSum(a + [p], k) == WeightSum(a, k) + (if p.0 == k then p.1 else 0.0)
  {
    if a != [] {
      assert (a + [p])[1..] == a[1..] + [p];
      WeightSumAppend(a[1..], p, k);
    }
  }

  /** Some pair gives key `k` a weight. */
  predicate HasKey(pairs: seq<(string, real)>, k: string)
  {
    exists i :: 0 <= i < |pairs| && pairs[i].0 == k
  }

  lemma HasKeyAppend(a: seq<(string, real)>, p: (string, real), k: string)
    ensures HasKey(a + [p], k) <==> HasKey(a, k) || p.0 == k
  {
    if HasKey(a + [p], k) {
      var i :| 0 <= i < |a + [p]| && (a + [p])[i].0 == k;
      if i < |a| {
        assert a[i] == (a + [p])[i];
      }
    }
    if HasKey(a, k) {
      var i :| 0 <= i < |a| && a[i].0 == k;
      assert (a + [p])[i] == a[i];
    }
    if p.0 == k {
      assert (a + [p])[|a|] == p;
    }
  }

  lemma {:induction false} WeightSumAbsent(pairs: seq<(string, real)>, k: string)
    requires !HasKey(pairs, k)
    ensures WeightSum(pairs, k) == 0.0
  {
    if pairs != [] {
      assert pairs[0].0 != k;
      assert !HasKey(pairs[1..], k) by {
        forall i | 0 <= i < |pairs[1..]| ensures pairs[1..][i].0 != k {
          assert pairs[1..][i] == pairs[i + 1];
        }
      }
      WeightSumAbsent(pairs[1..], k);
    }
  }

  /** Accumulating keeps the key order duplicate-free and in step with the
      map; the keys are the old ones plus the pairs' keywords, and each
      weight is the old one plus the sum of that keyword's pairs. */
  lemma {:induction false} AccumulateSpec(u: UserVector, pairs: seq<(string, real)>)
    requires WellFormed(u)
    ensures WellFormed(Accumulate(u, pairs))
    ensures forall k :: k in Accumulate(u, pairs).weights <==> k in u.weights || HasKey(pairs, k)
    ensures forall k :: k in Accumulate(u, pairs).weights ==>
      Accumulate(u, pairs).weights[k] == (if k in u.weights then u.weights[k] else 0.0) + WeightSum(pairs, k)
  {
    if pairs != [] {
      var init := pairs[..|pairs| - 1];
      var p := pairs[|pairs| - 1];
      AccumulateSpec(u, init);
      var a := Accumulate(u, init);
      var r := Accumulate(u, pairs);
      assert pairs == init + [p];
      forall k ensures HasKey(pairs, k) <==> HasKey(init, k) || p.0 == k {
        HasKeyAppend(init, p, k);
      }
      forall k | k in r.weights
        ensures r.weights[k] == (if k in u.weights then u.weights[k] else 0.0) + WeightSum(pairs, k)
      {
        WeightSumAppend(init, p, k);
        if k == p.0 && k !in a.weights {
          WeightSumAbsent(init, k);
        }
      }
      if p.0 !in a.weights {
        var o := a.order + [p.0];
        forall i, j | 0 <= i < j < |o| ensures o[i] != o[j] {
          if j == |a.order| {
            assert o[i] in a.order;
          } else {
            assert o[i] == a.order[i] && o[j] == a.order[j];
          }
        }
      }
    }
  }

  /** Every weight is a sum of positive contributions when every pair's
      weight is positive. */
  lemma {:induction false} AccumulatePositive(u: UserVector, pairs: seq<(string, real)>)
    requires forall k :: k in u.weights ==> u.weights[k] > 0.0
    requires forall i :: 0 <= i < |pairs| ==> pairs[i].1 > 0.0
    ensures forall k :: k in Accumulate(u, pairs).weights ==> Accumulate(u, pairs).weights[k] > 0.0
  {
    if pairs != [] {
      var init := pairs[..|pairs| - 1];
      assert forall i :: 0 <= i < |init| ==> init[i] == pairs[i];
      AccumulatePositive(u, init);
      assert pairs[|pairs| - 1].1 > 0.0;
    }
  }

  lemma {:induction false} AccumulateAppend(u: UserVector, a: seq<(string, real)>, b: seq<(string, real)>)
    ensures Accumulate(u, a + b) == Accumulate(Accumulate(u, a), b)
    decreases |b|
  {
    if b == [] {
      assert a + b == a;
    } else {
      var b' := b[..|b| - 1];
      assert (a + b)[..|a + b| - 1] == a + b';
      assert (a + b)[|a + b| - 1] == b[|b| - 1];
      AccumulateAppend(u, a, b');
    }
  }

  lemma {:induction false} HistoryPairsPositive(hist: seq<Video>, wTitle: real, wChannel: real,
                                               keywords: string -> seq<string>, decay: nat -> real)
    requires wTitle > 0.0 && wChannel > 0.0
    requires forall i :: 0 <= i < |hist| ==> decay(i) > 0.0
    ensures forall i :: 0 <= i < |HistoryPairs(hist, wTitle, wChannel, keywords, decay)| ==>
      HistoryPairs(hist, wTitle, wChannel, keywords, decay)[i].1 > 0.0
  {
    if hist != [] {
      var n := |hist| - 1;
      HistoryPairsPositive(hist[..n], wTitle, wChannel, keywords, decay);
      var pt := Pairs(keywords(hist[n].title), wTitle * decay(n));
      var pc := Pairs(keywords(hist[n].channelName), wChannel * decay(n));
      assert wTitle * decay(n) > 0.0 && wChannel * decay(n) > 0.0;
      assert forall i :: 0 <= i < |pt| ==> pt[i].1 > 0.0;
      assert forall i :: 0 <= i < |pc| ==> pc[i].1 > 0.0;
    }
  }

  lemma {:induction false} SubscriptionPairsPositive(subs: seq<Channel>, keywords: string -> seq<string>)
    ensures forall i :: 0 <= i < |SubscriptionPairs(subs, keywords)| ==> SubscriptionPairs(subs, keywords)[i].1 > 0.0
  {
    if subs != [] {
      SubscriptionPairsPositive(subs[..|subs| - 1], keywords);
    }
  }

  /** With a positive decay, which `Math.exp(-i / 10)` is, every weight of
      the user vector is positive and is the sum of its keyword's
      contributions; its keys are exactly the keywords contributed. */
  lemma UserVectorSpec(subs: seq<Channel>, shortsHistory: seq<Video>, watchHistory: seq<Video>,
                       keywords: string -> seq<string>, decay: nat -> real)
    requires forall i :: 0 <= i < 30 ==> decay(i) > 0.0
    ensures var u := UserVectorOf(subs, shortsHistory, watchHistory, keywords, decay);
      var pairs := SignalPairs(subs, shortsHistory, watchHistory, keywords, decay);
      && WellFormed(u)
      && (forall k :: k in u.weights <==> HasKey(pairs, k))
      && (forall k :: k in u.weights ==> u.weights[k] == WeightSum(pairs, k) && u.weights[k] > 0.0)
  {
    var pairs := SignalPairs(subs, shortsHistory, watchHistory, keywords, decay);
    AccumulateSpec(NoWeights, pairs);
    SubscriptionPairsPositive(subs, keywords);
    HistoryPairsPositive(Take(shortsHistory, 30), 3.0, 4.0, keywords, decay);
    HistoryPairsPositive(Take(watchHistory, 20), 1.5, 2.0, keywords, decay);
    AccumulatePositive(NoWeights, pairs);
  }

  /** `addWeight(text, w)` on the vector built so far. */
  method AddWeight(u: UserVector, ks: seq<string>, w: real) returns (r: UserVector)
    ensures r == Accumulate(u, Pairs(ks, w))
  {
    r := u;
    var j := 0;
    while j < |ks|
      invariant 0 <= j <= |ks|
      invariant r == Accumulate(u, Pairs(ks[..j], w))
    {
      assert Pairs(ks[..j + 1], w)[..j] == Pairs(ks[..j], w);
      var k := ks[j];
      r := if k in r.weights then UserVector(r.weights[k := r.weights[k] + w], r.order)
           else UserVector(r.weights[k := w], r.order + [k]);
      j := j + 1;
    }
    assert ks[..j] == ks;
  }

  /** The three `forEach` loops that fill `userVector`. */
  method BuildUserVector(subs: seq<Channel>, shortsHistory: seq<Video>, watchHistory: seq<Video>,
                         keywords: string -> seq<string>, decay: nat -> real)
    returns (u: UserVector)
    ensures u == UserVectorOf(subs, shortsHistory, watchHistory, keywords, decay)
  {
    u := NoWeights;
    var i := 0;
    while i < |subs|
      invariant 0 <= i <= |subs|
      invariant u == Accumulate(NoWeights, SubscriptionPairs(subs[..i], keywords))
    {
      assert subs[..i + 1][..i] == subs[..i];
      AccumulateAppend(NoWeights, SubscriptionPairs(subs[..i], keywords), Pairs(keywords(subs[i].name), 5.0));
      u := AddWeight(u, keywords(subs[i].name), 5.0);
      i := i + 1;
    }
    assert subs[..i] == subs;
    var base := SubscriptionPairs(subs, keywords);
    u := AddHistory(u, base, Take(shortsHistory, 30), 3.0, 4.0, keywords, decay);
    u := AddHistory(u, base + HistoryPairs(Take(shortsHistory, 30), 3.0, 4.0, keywords, decay),
                    Take(watchHistory, 20), 1.5, 2.0, keywords, decay);
  }

  lemma HistoryPairsSnoc(h: seq<Video>, wTitle: real, wChannel: real, keywords: string -> seq<string>, decay: nat -> real)
    requires h != []
    ensures HistoryPairs(h, wTitle, wChannel, keywords, decay)
      == HistoryPairs(h[..|h| - 1], wTitle, wChannel, keywords, decay)
        + Pairs(keywords(h[|h| - 1].title), wTitle * decay(|h| - 1))
        + Pairs(keywords(h[|h| - 1].channelName), wChannel * decay(|h| - 1))
  {
  }

  lemma HistoryStep(before: seq<(string, real)>, hist: seq<Video>, i: nat, wTitle: real, wChannel: real,
                    keywords: string -> seq<string>, decay: nat -> real)
    requires i < |hist|
    ensures var prior := before + HistoryPairs(hist[..i], wTitle, wChannel, keywords, decay);
      var pt := Pairs(keywords(hist[i].title), wTitle * decay(i));
      var pc := Pairs(keywords(hist[i].channelName), wChannel * decay(i));
      Accumulate(NoWeights, before + HistoryPairs(hist[..i + 1], wTitle, wChannel, keywords, decay))
        == Accumulate(Accumulate(Accumulate(NoWeights, prior), pt), pc)
  {
    var prior := before + HistoryPairs(hist[..i], wTitle, wChannel, keywords, decay);
    var pt := Pairs(keywords(hist[i].title), wTitle * decay(i));
    var pc := Pairs(keywords(hist[i].channelName), wChannel * decay(i));
    var h := hist[..i + 1];
    assert h[..i] == hist[..i] && h[i] == hist[i] && |h| - 1 == i;
    HistoryPairsSnoc(h, wTitle, wChannel, keywords, decay);
    var x := HistoryPairs(hist[..i], wTitle, wChannel, keywords, decay);
    assert |h| - 1 == i;
    assert h[..|h| - 1] == hist[..i];
    assert HistoryPairs(h[..|h| - 1], wTitle, wChannel, keywords, decay) == x;
    assert h[|h| - 1] == hist[i];
    var ka := keywords(h[|h| - 1].title);
    var wa := wTitle * decay(|h| - 1);
    assert ka == keywords(hist[i].title) && wa == wTitle * decay(i);
    assert Pairs(ka, wa) == pt;
    var kc := keywords(h[|h| - 1].channelName);
    var wc := wChannel * decay(|h| - 1);
    assert kc == keywords(hist[i].channelName) && wc == wChannel * decay(i);
    assert Pairs(kc, wc) == pc;
    assert HistoryPairs(h, wTitle, wChannel, keywords, decay) == x + pt + pc;
    assert before + (x + pt + pc) == before + x + pt + pc;
    assert prior + pt + pc == before + HistoryPairs(hist[..i + 1], wTitle, wChannel, keywords, decay);
    AccumulateAppend(NoWeights, prior, pt);
    AccumulateAppend(NoWeights, prior + pt, pc);
  }

  /** One history `forEach((v, i) => ...)`. */
  method AddHistory(u0: UserVector, ghost before: seq<(string, real)>, hist: seq<Video>, wTitle: real, wChannel: real,
                    keywords: string -> seq<string>, decay: nat -> real)
    returns (u: UserVector)
    requires u0 == Accumulate(NoWeights, before)
    ensures u == Accumulate(NoWeights, before + HistoryPairs(hist, wTitle, wChannel, keywords, decay))
  {
    u := u0;
    var i := 0;
    assert before + [] == before;
    while i < |hist|
      invariant 0 <= i <= |hist|
      invariant u == Accumulate(NoWeights, before + HistoryPairs(hist[..i], wTitle, wChannel, keywords, decay))
    {
      assert hist[..i + 1][..i] == hist[..i];
      var prior := before + HistoryPairs(hist[..i], wTitle, wChannel, keywords, decay);
      var pt := Pairs(keywords(hist[i].title), wTitle * decay(i));
      var pc := Pairs(keywords(hist[i].channelName), wChannel * decay(i));
      HistoryStep(before, hist, i, wTitle, wChannel, keywords, decay);
      u := AddWeight(u, keywords(hist[i].title), wTitle * decay(i));
      u := AddWeight(u, keywords(hist[i].channelName), wChannel * decay(i));
      i := i + 1;
    }
    assert hist[..i] == hist;
  }

  function Entry(u: UserVector, k: string): (string, real)
    requires k in u.weights
  {
    (k, u.weights[k])
  }

  /** `[...userVector.entries()]`. */
  function Entries(u: UserVector): (r: seq<(string, real)>)
    requires WellFormed(u)
    ensures |r| == |u.order|
    ensures forall i :: 0 <= i < |r| ==> r[i] == Entry(u, u.order[i])
  {
    seq(|u.order|, i requires 0 <= i < |u.order| => Entry(u, u.order[i]))
  }

  function EntryWeight(e: (string, real)): real
  {
    e.1
  }

  function EntryKey(e: (string, real)): string
  {
    e.0
  }

  function Keys(es: seq<(string, real)>): (r: seq<string>)
    ensures |r| == |es|
    ensures forall i :: 0 <= i < |es| ==> r[i] == es[i].0
  {
    seq(|es|, i requires 0 <= i < |es| => es[i].0)
  }

  /** The four heaviest keywords, ties in insertion order. */
  function TopKeywords(u: UserVector): seq<string>
    requires WellFormed(u)
  {
    Keys(Take(SortDesc(Entries(u), EntryWeight), 4))
  }

  /** `seeds.slice(0, 2)`. */
  function ShortsSeeds(u: UserVector): seq<string>
    requires WellFormed(u)
  {
    var top := TopKeywords(u);
    var seeds := if |top| > 0 then seq(|top|, i requires 0 <= i < |top| => top[i] + " #shorts")
                 else ["Funny #shorts", "Trending #shorts"];
    Take(seeds, 2)
  }

  /** The sorted entries are the vector's entries, with distinct keys. */
  lemma SortedEntries(u: UserVector)
    requires WellFormed(u)
    ensures var sorted := SortDesc(Entries(u), EntryWeight);
      && SortedDesc(sorted, EntryWeight)
      && multiset(sorted) == multiset(Entries(u))
      && DistinctBy(sorted, EntryKey)
      && |sorted| == |u.weights|
      && forall e :: e in sorted ==> e.0 in u.weights && e.1 == u.weights[e.0]
  {
    var es := Entries(u);
    var sorted := SortDesc(es, EntryWeight);
    SortDescSpec(es, EntryWeight);
    OrderCountsKeys(u);
    assert DistinctBy(es, EntryKey) by {
      forall i, j | 0 <= i < j < |es| ensures EntryKey(es[i]) != EntryKey(es[j]) {}
    }
    DistinctByPermutation(es, sorted, EntryKey);
    forall e | e in sorted ensures e.0 in u.weights && e.1 == u.weights[e.0] {
      assert e in multiset(sorted);
      assert e in es;
    }
  }

  /** The top keywords are distinct keys of the vector, as many as there are
      keys up to four. */
  lemma TopKeywordsSpec(u: UserVector)
    requires WellFormed(u)
    ensures |TopKeywords(u)| == (if |u.weights| < 4 then |u.weights| else 4)
    ensures forall k :: k in TopKeywords(u) ==> k in u.weights
    ensures forall i, j :: 0 <= i < j < |TopKeywords(u)| ==> TopKeywords(u)[i] != TopKeywords(u)[j]
  {
    var sorted := SortDesc(Entries(u), EntryWeight);
    var top := TopKeywords(u);
    SortedEntries(u);
    assert |top| == (if |sorted| < 4 then |sorted| else 4);
    assert forall i :: 0 <= i < |top| ==> top[i] == sorted[i].0;
    forall k | k in top ensures k in u.weights {
      var i :| 0 <= i < |top| && top[i] == k;
      assert sorted[i] in sorted;
    }
    forall i, j | 0 <= i < j < |top| ensures top[i] != top[j] {
      assert EntryKey(sorted[i]) != EntryKey(sorted[j]);
    }
  }

  /** No key left out of the top keywords outweighs one taken. */
  lemma TopKeywordsHeaviest(u: UserVector, k: string, k': string)
    requires WellFormed(u)
    requires k in TopKeywords(u) && k' in u.weights && k' !in TopKeywords(u)
    ensures k in u.weights && u.weights[k] >= u.weights[k']
  {
    var es := Entries(u);
    var sorted := SortDesc(es, EntryWeight);
    var top := TopKeywords(u);
    SortedEntries(u);
    var p :| 0 <= p < |top| && top[p] == k;
    var q :| 0 <= q < |u.order| && u.order[q] == k';
    assert es[q] in multiset(sorted);
    var m :| 0 <= m < |sorted| && sorted[m] == es[q];
    assert es[q].0 == k';
    forall idx | 0 <= idx < |top| ensures sorted[idx] != es[q] {
      assert top[idx] == sorted[idx].0;
      assert top[idx] in top;
    }
    assert m >= |top|;
    assert sorted[p].0 == k;
    assert sorted[p] in sorted;
    assert EntryWeight(sorted[p]) >= EntryWeight(sorted[m]);
  }

  /** A well-formed vector has as many keys in its order as in its map. */
  lemma OrderCountsKeys(u: UserVector)
    requires WellFormed(u)
    ensures |u.order| == |u.weights|
  {
    assert u.weights.Keys == set k | k in u.order;
    DistinctCardinality(u.order);
  }

  lemma {:induction false} DistinctCardinality(s: seq<string>)
    requires forall i, j :: 0 <= i < j < |s| ==> s[i] != s[j]
    ensures |set k | k in s| == |s|
  {
    if s != [] {
      var init := s[..|s| - 1];
      DistinctCardinality(init);
      assert (set k | k in s) == (set k | k in init) + {s[|s| - 1]} by {
        assert s == init + [s[|s| - 1]];
      }
      assert s[|s| - 1] !in init;
    }
  }

  /** At most two seeds; an empty vector gives the two fixed seeds, a
      non-empty one seeds "<keyword> #shorts" from its first one or two top
      keywords, in rank order. */
  lemma ShortsSeedsSpec(u: UserVector)
    requires WellFormed(u)
    ensures |ShortsSeeds(u)| <= 2
    ensures u.weights == map[] ==> ShortsSeeds(u) == ["Funny #shorts", "Trending #shorts"]
    ensures u.weights != map[] ==>
      && |ShortsSeeds(u)| == (if |TopKeywords(u)| < 2 then |TopKeywords(u)| else 2) > 0
      && forall i :: 0 <= i < |ShortsSeeds(u)| ==> ShortsSeeds(u)[i] == TopKeywords(u)[i] + " #shorts"
  {
    TopKeywordsSpec(u);
    if u.weights != map[] {
      var k :| k in u.weights;
      assert |u.weights| > 0;
    }
  }
}

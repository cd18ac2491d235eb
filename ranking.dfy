/** `processCandidates` of `getXraiShorts`: drop seen, blocked and
    NG-keyword candidates, keep the first occurrence of each id, score each
    survivor and order by non-increasing score. `Array.prototype.sort` is
    stable, so with the comparator `b.score - a.score` the order is the
    unique stable one, which the insertion sort below produces. */
module Ranking {
  import opened Seqs
  import opened Videos
  import opened Recommendation

  datatype Scored = Scored(video: Video, score: real)

  function ScoreOf(x: Scored): real
  {
    x.score
  }

  predicate SortedDesc<T>(s: seq<T>, key: T -> real)
  {
    forall i, j :: 0 <= i < j < |s| ==> key(s[i]) >= key(s[j])
  }

  /** Puts `x` after every entry whose key is at least its own. */
  function Insert<T>(x: T, t: seq<T>, key: T -> real): (r: seq<T>)
    ensures |r| == |t| + 1
  {
    if t == [] then [x]
    else if key(t[0]) < key(x) then [x] + t
    else [t[0]] + Insert(x, t[1..], key)
  }

  /** The stable ordering by non-increasing key. */
  function SortDesc<T>(s: seq<T>, key: T -> real): (r: seq<T>)
    ensures |r| == |s|
  {
    if s == [] then [] else Insert(s[|s| - 1], SortDesc(s[..|s| - 1], key), key)
  }

  lemma {:induction false} InsertPermutes<T>(x: T, t: seq<T>, key: T -> real)
    ensures multiset(Insert(x, t, key)) == multiset(t) + multiset{x}
  {
    if t != [] && key(t[0]) >= key(x) {
      InsertPermutes(x, t[1..], key);
      assert t == [t[0]] + t[1..];
    }
  }

  lemma {:induction false} InsertSorted<T>(x: T, t: seq<T>, key: T -> real)
    requires SortedDesc(t, key)
    ensures SortedDesc(Insert(x, t, key), key)
  {
    if t != [] && key(t[0]) >= key(x) {
      var rest := t[1..];
      assert SortedDesc(rest, key);
      InsertSorted(x, rest, key);
      var r := Insert(x, rest, key);
      InsertPermutes(x, rest, key);
      forall k | 0 <= k < |r| ensures key(t[0]) >= key(r[k]) {
        assert r[k] in multiset(r);
        if r[k] != x {
          assert r[k] in multiset(rest);
          var m :| 0 <= m < |rest| && rest[m] == r[k];
          assert rest[m] == t[m + 1];
        }
      }
    }
  }

  /** Sorting yields a non-increasing permutation of the input. */
  lemma {:induction false} SortDescSpec<T>(s: seq<T>, key: T -> real)
    ensures SortedDesc(SortDesc(s, key), key)
    ensures multiset(SortDesc(s, key)) == multiset(s)
  {
    if s != [] {
      var init := s[..|s| - 1];
      SortDescSpec(init, key);
      InsertSorted(s[|s| - 1], SortDesc(init, key), key);
      InsertPermutes(s[|s| - 1], SortDesc(init, key), key);
      assert s == init + [s[|s| - 1]];
    }
  }

  /** The checks `processCandidates` applies before the first-occurrence map. */
  datatype ShortsFilter = ShortsFilter(seenIds: set<string>, ngChannelIds: set<string>, ngKeywords: seq<string>)

  predicate Eligible(v: Video, f: ShortsFilter)
  {
    && v.id !in f.seenIds
    && v.channelId !in f.ngChannelIds
    && !MatchesNgKeyword(v, f.ngKeywords)
  }

  /** The values of the `unique` map: the first eligible candidate of each id,
      in insertion order. */
  function FirstById(cands: seq<Video>, f: ShortsFilter): seq<Video>
  {
    if cands == [] then []
    else
      var r := FirstById(cands[..|cands| - 1], f);
      var v := cands[|cands| - 1];
      if Eligible(v, f) && v.id !in IdSet(r) then r + [v] else r
  }

  /** The survivors are eligible, have distinct ids, keep their order, and
      every eligible candidate's id is represented. */
  lemma {:induction false} FirstByIdSound(cands: seq<Video>, f: ShortsFilter)
    ensures forall v :: v in FirstById(cands, f) ==> Eligible(v, f)
    ensures DistinctIds(FirstById(cands, f))
    ensures IsSubsequence(FirstById(cands, f), cands)
    ensures forall v :: v in cands && Eligible(v, f) ==> v.id in IdSet(FirstById(cands, f))
  {
    if cands != [] {
      var init := cands[..|cands| - 1];
      var v := cands[|cands| - 1];
      var r := FirstById(init, f);
      FirstByIdSound(init, f);
      assert cands == init + [v];
      SubsequenceExtend(r, init, v);
      if Eligible(v, f) && v.id !in IdSet(r) {
        SubsequenceAppendBoth(r, init, v);
        var r' := r + [v];
        forall i, j | 0 <= i < j < |r'| ensures r'[i].id != r'[j].id {
          if j == |r| {
            assert r'[i] in r;
          } else {
            assert r'[i] == r[i] && r'[j] == r[j];
          }
        }
      }
    }
  }

  /** Each survivor is the earliest eligible candidate with its id. */
  lemma {:induction false} FirstByIdFirst(cands: seq<Video>, f: ShortsFilter, v: Video)
    requires v in FirstById(cands, f)
    ensures exists i :: (0 <= i < |cands| && cands[i] == v &&
      forall j :: 0 <= j < i && cands[j].id == v.id ==> !Eligible(cands[j], f))
  {
    var init := cands[..|cands| - 1];
    var last := cands[|cands| - 1];
    var r := FirstById(init, f);
    FirstByIdSound(init, f);
    if v in r {
      FirstByIdFirst(init, f, v);
      var i :| 0 <= i < |init| && init[i] == v &&
        (forall j :: 0 <= j < i && init[j].id == v.id ==> !Eligible(init[j], f));
      assert cands[i] == v;
      forall j | 0 <= j < i && cands[j].id == v.id ensures !Eligible(cands[j], f) {
        assert cands[j] == init[j];
      }
    } else {
      assert v == last && v.id !in IdSet(r);
      forall j | 0 <= j < |init| && cands[j].id == v.id ensures !Eligible(cands[j], f) {
        assert cands[j] == init[j];
        assert init[j] in init;
      }
    }
  }

  function ScoreAll(vs: seq<Video>, score: Video -> real): (r: seq<Scored>)
    ensures |r| == |vs|
    ensures forall i :: 0 <= i < |vs| ==> r[i] == Scored(vs[i], score(vs[i]))
  {
    seq(|vs|, i requires 0 <= i < |vs| => Scored(vs[i], score(vs[i])))
  }

  /** `processCandidates`; `score` stands for `scoreVideo`, whose cosine
      match, subscription bonus, negative penalty and random noise are not
      modelled. */
  method ProcessCandidates(candidates: seq<Video>, f: ShortsFilter, score: Video -> real)
    returns (ranked: seq<Scored>)
    ensures ranked == SortDesc(ScoreAll(FirstById(candidates, f), score), ScoreOf)
    ensures SortedDesc(ranked, ScoreOf)
    ensures forall x :: x in ranked ==> x.video in candidates && Eligible(x.video, f) && x.score == score(x.video)
    ensures forall i, j :: 0 <= i < j < |ranked| ==> ranked[i].video.id != ranked[j].video.id
    ensures forall v :: v in candidates && Eligible(v, f) ==> exists x :: x in ranked && x.video.id == v.id
  {
    var unique: seq<Video> := [];
    var ids: set<string> := {};
    var i := 0;
    while i < |candidates|
      invariant 0 <= i <= |candidates|
      invariant unique == FirstById(candidates[..i], f)
      invariant ids == IdSet(unique)
    {
      var v := candidates[i];
      assert candidates[..i + 1][..i] == candidates[..i];
      if v.id in f.seenIds {
      } else if v.channelId in f.ngChannelIds {
      } else if MatchesNgKeyword(v, f.ngKeywords) {
      } else if v.id !in ids {
        unique := unique + [v];
        ids := ids + {v.id};
      }
      i := i + 1;
    }
    assert candidates[..i] == candidates;
    var scored := ScoreAll(unique, score);
    ranked := SortDesc(scored, ScoreOf);
    RankedSpec(candidates, f, score);
  }

  lemma RankedSpec(candidates: seq<Video>, f: ShortsFilter, score: Video -> real)
    ensures var ranked := SortDesc(ScoreAll(FirstById(candidates, f), score), ScoreOf);
      && SortedDesc(ranked, ScoreOf)
      && (forall x :: x in ranked ==> x.video in candidates && Eligible(x.video, f) && x.score == score(x.video))
      && (forall i, j :: 0 <= i < j < |ranked| ==> ranked[i].video.id != ranked[j].video.id)
      && (forall v :: v in candidates && Eligible(v, f) ==> exists x :: x in ranked && x.video.id == v.id)
  {
    SortDescSpec(ScoreAll(FirstById(candidates, f), score), ScoreOf);
    RankedSound(candidates, f, score);
    RankedUnique(candidates, f, score);
    RankedComplete(candidates, f, score);
  }

  /** Every ranked entry is an eligible candidate with its own score. */
  lemma RankedSound(candidates: seq<Video>, f: ShortsFilter, score: Video -> real)
    ensures var ranked := SortDesc(ScoreAll(FirstById(candidates, f), score), ScoreOf);
      forall x :: x in ranked ==> x.video in candidates && Eligible(x.video, f) && x.score == score(x.video)
  {
    var unique := FirstById(candidates, f);
    var scored := ScoreAll(unique, score);
    var ranked := SortDesc(scored, ScoreOf);
    FirstByIdSound(candidates, f);
    SubsequenceMembers(unique, candidates);
    SortDescSpec(scored, ScoreOf);
    forall x | x in ranked ensures x in scored {
      assert x in multiset(ranked);
    }
  }

  /** No id is ranked twice. */
  lemma RankedUnique(candidates: seq<Video>, f: ShortsFilter, score: Video -> real)
    ensures var ranked := SortDesc(ScoreAll(FirstById(candidates, f), score), ScoreOf);
      forall i, j :: 0 <= i < j < |ranked| ==> ranked[i].video.id != ranked[j].video.id
  {
    var unique := FirstById(candidates, f);
    var ranked := SortDesc(ScoreAll(unique, score), ScoreOf);
    FirstByIdSound(candidates, f);
    SortDescSpec(ScoreAll(unique, score), ScoreOf);
    forall i, j | 0 <= i < j < |ranked| ensures ranked[i].video.id != ranked[j].video.id {
      ScoredIdsUnique(unique, score, ranked, i, j);
    }
  }

  /** Every eligible candidate's id is ranked. */
  lemma RankedComplete(candidates: seq<Video>, f: ShortsFilter, score: Video -> real)
    ensures var ranked := SortDesc(ScoreAll(FirstById(candidates, f), score), ScoreOf);
      forall v :: v in candidates && Eligible(v, f) ==> exists x :: x in ranked && x.video.id == v.id
  {
    var unique := FirstById(candidates, f);
    var scored := ScoreAll(unique, score);
    var ranked := SortDesc(scored, ScoreOf);
    FirstByIdSound(candidates, f);
    SortDescSpec(scored, ScoreOf);
    forall v | v in candidates && Eligible(v, f) ensures exists x :: x in ranked && x.video.id == v.id {
      var w :| w in unique && w.id == v.id;
      var k :| 0 <= k < |unique| && unique[k] == w;
      assert scored[k] in multiset(ranked);
    }
  }

  function ScoredId(x: Scored): string
  {
    x.video.id
  }

  /** Two positions of a permutation of distinct-id scored entries hold
      different ids. */
  lemma ScoredIdsUnique(unique: seq<Video>, score: Video -> real, ranked: seq<Scored>, i: int, j: int)
    requires DistinctIds(unique)
    requires multiset(ranked) == multiset(ScoreAll(unique, score))
    requires 0 <= i < j < |ranked|
    ensures ranked[i].video.id != ranked[j].video.id
  {
    var scored := ScoreAll(unique, score);
    assert DistinctBy(scored, ScoredId) by {
      forall p, q | 0 <= p < q < |scored| ensures ScoredId(scored[p]) != ScoredId(scored[q]) {
        assert scored[p].video == unique[p] && scored[q].video == unique[q];
      }
    }
    DistinctByPermutation(scored, ranked, ScoredId);
    assert ScoredId(ranked[i]) != ScoredId(ranked[j]);
  }
}

/** `getXraiShorts` of utils/recommendation.ts: the user vector and its
    seed queries, the popular and personalized candidate pools, ranking,
    the 17 + 3 cooldown-gated selection with backfill from the popular pool,
    and the final shuffle. Upstream calls are already resolved (a failed
    call is an empty result); each pool's `scoreVideo` is a parameter. */
module ShortsFeed {
  import opened Seqs
  import opened Videos
  import opened Shuffle
  import opened Recommendation
  import opened HomeFeed
  import opened Ranking
  import opened Cooldown
  import opened UserProfile

  const BatchSize := 20
  const PopularRatio := 0.85

  /** The signals `getXraiShorts` reads; blocked channels, hidden videos and
      the caller's `seenIds` by their ids. */
  datatype ShortsSignals = ShortsSignals(
    watchHistory: seq<Video>,
    shortsHistory: seq<Video>,
    subscribedChannels: seq<Channel>,
    ngKeywords: seq<string>,
    ngChannelIds: seq<string>,
    hiddenVideoIds: seq<string>,
    seenIds: seq<string>)

  /** `allSeenIds`, `ngChannelIds` and the NG keywords. */
  function ShortsFilterOf(signals: ShortsSignals): ShortsFilter
  {
    ShortsFilter(
      IdSet(signals.shortsHistory) + (set id | id in signals.hiddenVideoIds) + (set id | id in signals.seenIds),
      (set id | id in signals.ngChannelIds),
      signals.ngKeywords)
  }

  /** The personalized pool: for each seed, the short-form entries of the
      search's videos followed by its shorts, concatenated in seed order. */
  function PersonalizedPool(seeds: seq<string>, search: string -> SearchResult, parse: (string, string) -> int)
    : seq<Video>
  {
    if seeds == [] then []
    else
      var res := search(seeds[0]);
      ShortsOf(res.videos + res.shorts, parse, true) + PersonalizedPool(seeds[1..], search, parse)
  }

  lemma {:induction false} PersonalizedPoolShort(seeds: seq<string>, search: string -> SearchResult,
                                                 parse: (string, string) -> int)
    ensures forall v :: v in PersonalizedPool(seeds, search, parse) ==> IsShortVideo(v, parse)
  {
    if seeds != [] {
      var res := search(seeds[0]);
      ShortsOfMembers(res.videos + res.shorts, parse, true);
      PersonalizedPoolShort(seeds[1..], search, parse);
    }
  }

  /** `rankedPopular.filter(item => !usedIds.has(item.video.id))`. */
  function Unused(ranked: seq<Scored>, used: set<string>): (r: seq<Scored>)
    ensures forall x :: x in r ==> x in ranked && x.video.id !in used
  {
    if ranked == [] then []
    else
      var rest := Unused(ranked[..|ranked| - 1], used);
      var x := ranked[|ranked| - 1];
      if x.video.id in used then rest else rest + [x]
  }

  /** The unused entries of a ranking with one entry per id hold one entry
      per id. */
  lemma {:induction false} UnusedDistinct(ranked: seq<Scored>, used: set<string>)
    requires DistinctBy(ranked, ScoredId)
    ensures DistinctBy(Unused(ranked, used), ScoredId)
  {
    if ranked != [] {
      var init := ranked[..|ranked| - 1];
      var x := ranked[|ranked| - 1];
      assert DistinctBy(init, ScoredId) by {
        forall i, j | 0 <= i < j < |init| ensures ScoredId(init[i]) != ScoredId(init[j]) {
          assert init[i] == ranked[i] && init[j] == ranked[j];
        }
      }
      UnusedDistinct(init, used);
      var rest := Unused(init, used);
      if x.video.id !in used {
        forall i, j | 0 <= i < j < |rest + [x]| ensures ScoredId((rest + [x])[i]) != ScoredId((rest + [x])[j]) {
          if j == |rest| {
            assert (rest + [x])[i] == rest[i] && rest[i] in init;
            var m :| 0 <= m < |init| && init[m] == rest[i];
            assert ranked[m] == rest[i];
          } else {
            assert (rest + [x])[i] == rest[i] && (rest + [x])[j] == rest[j];
          }
        }
      }
    }
  }

  /** A cut of a sequence with one entry per id holds one entry per id. */
  lemma TakeDistinct(s: seq<Scored>, n: nat)
    requires DistinctBy(s, ScoredId)
    ensures DistinctBy(Take(s, n), ScoredId)
  {
    var t := Take(s, n);
    forall i, j | 0 <= i < j < |t| ensures ScoredId(t[i]) != ScoredId(t[j]) {
      assert t[i] == s[i] && t[j] == s[j];
    }
  }

  /** Entries of a cut of a shuffled cut of `s` are entries of `s`. */
  lemma TakeOfShuffle(s: seq<Scored>, pool: seq<Scored>, shuffled: seq<Scored>, n: nat)
    requires pool == Take(s, 50) && multiset(shuffled) == multiset(pool)
    ensures forall x :: x in Take(shuffled, n) ==> x in s
  {
    TakeMultiset(shuffled, n);
    TakeMultiset(s, 50);
    forall x | x in Take(shuffled, n) ensures x in s {
      assert x in multiset(Take(shuffled, n));
      assert x in multiset(pool);
    }
  }

  /** `Math.max`. */
  function Max(a: int, b: int): (r: int)
    ensures r >= a && r >= b && (r == a || r == b)
  {
    if a > b then a else b
  }

  /** `v` is the video of a pool entry scoring at least -50. */
  ghost predicate FromPool(v: Video, pool: seq<Scored>)
  {
    exists x :: x in pool && x.video == v && x.score >= MinScore
  }

  /** A selection state `addVideoSafely` can leave: the cooldown invariant
      holds and every entry comes from the pool. */
  ghost predicate Sound(s: Selection, pool: seq<Scored>)
  {
    Valid(s) && forall v :: v in s.feed ==> FromPool(v, pool)
  }

  /** A state of the corrected selector: also no id repeats. */
  ghost predicate Good(s: Selection, pool: seq<Scored>)
  {
    Sound(s, pool) && DistinctIds(s.feed)
  }

  /** `r`'s feed is `s`'s feed followed by more entries. */
  ghost predicate Grows(s: Selection, r: Selection)
  {
    |s.feed| <= |r.feed| && r.feed == s.feed + r.feed[|s.feed|..]
  }

  /** `r`'s feed is `s`'s feed followed by entries whose ids `s` does not
      hold. */
  ghost predicate Extends(s: Selection, r: Selection)
  {
    Grows(s, r) && forall v :: v in r.feed[|s.feed|..] ==> v.id !in IdSet(s.feed)
  }

  /** One `items.forEach(addVideoSafely)`: the old feed stays a prefix, at
      most one entry per item is added, the cooldown invariant holds and
      every entry still comes from the pool. */
  lemma Phase(s: Selection, items: seq<Scored>, pool: seq<Scored>)
    requires Sound(s, pool)
    requires forall x :: x in items ==> x in pool
    ensures Sound(OfferAll(s, items), pool) && Grows(s, OfferAll(s, items))
    ensures |OfferAll(s, items).feed| <= |s.feed| + |items|
  {
    var r := OfferAll(s, items);
    OfferAllValid(s, items);
    OfferAllAppends(s, items);
    forall v | v in r.feed ensures FromPool(v, pool) {
      var k :| 0 <= k < |r.feed| && r.feed[k] == v;
      if k < |s.feed| {
        assert s.feed[k] == v;
      } else {
        var x :| x in items && x.video == r.feed[k] && x.score >= MinScore;
      }
    }
    assert r.feed == s.feed + r.feed[|s.feed|..] by {
      assert r.feed[..|s.feed|] == s.feed;
    }
  }

  /** The same phase over the corrected selector: in addition no id
      repeats and the added entries have ids the old feed does not hold. */
  lemma FreshPhase(s: Selection, items: seq<Scored>, pool: seq<Scored>)
    requires Good(s, pool)
    requires forall x :: x in items ==> x in pool
    ensures Good(OfferFreshAll(s, items), pool) && Extends(s, OfferFreshAll(s, items))
    ensures |OfferFreshAll(s, items).feed| <= |s.feed| + |items|
  {
    var r := OfferFreshAll(s, items);
    OfferFreshAllValid(s, items);
    OfferFreshAllAppends(s, items);
    forall v | v in r.feed ensures FromPool(v, pool) {
      var k :| 0 <= k < |r.feed| && r.feed[k] == v;
      if k < |s.feed| {
        assert s.feed[k] == v;
      } else {
        var x :| x in items && x.video == r.feed[k] && x.score >= MinScore;
      }
    }
    forall v | v in r.feed[|s.feed|..] ensures v.id !in IdSet(s.feed) {
      var k :| 0 <= k < |r.feed[|s.feed|..]| && r.feed[|s.feed|..][k] == v;
      assert r.feed[|s.feed| + k] == v;
    }
    assert r.feed == s.feed + r.feed[|s.feed|..] by {
      assert r.feed[..|s.feed|] == s.feed;
    }
  }

  /** The popular entries the backfill may offer: unused ids, as many as
      are missing from 20. */
  function BackfillItems(feed: seq<Video>, rankedPopular: seq<Scored>): (r: seq<Scored>)
    ensures forall x :: x in r ==> x in rankedPopular && x.video.id !in IdSet(feed)
    ensures |feed| + |r| <= BatchSize || r == []
  {
    if |feed| < BatchSize then
      var usedIds := set v | v in feed :: v.id;
      Take(Unused(rankedPopular, usedIds), BatchSize - |feed|)
    else []
  }

  /** The backfill of lines 294-299: when fewer than 20 entries were taken,
      `addVideoSafely` the popular entries whose ids are not yet used, as
      many as are missing. */
  method Backfill(selector: Selector, rankedPopular: seq<Scored>) returns (ghost backfill: seq<Scored>)
    modifies selector
    ensures backfill == BackfillItems(old(selector.finalFeed), rankedPopular)
    ensures selector.State() == OfferAll(old(selector.State()), backfill)
  {
    backfill := BackfillItems(selector.finalFeed, rankedPopular);
    if |selector.finalFeed| < BatchSize {
      var remainingNeeded := BatchSize - |selector.finalFeed|;
      var usedIds := set v | v in selector.finalFeed :: v.id;
      var items := Take(Unused(rankedPopular, usedIds), remainingNeeded);
      selector.AddAll(items);
    }
  }

  /** The same backfill through the corrected selector. */
  method BackfillFresh(selector: Selector, rankedPopular: seq<Scored>) returns (ghost backfill: seq<Scored>)
    modifies selector
    ensures backfill == BackfillItems(old(selector.finalFeed), rankedPopular)
    ensures selector.State() == OfferFreshAll(old(selector.State()), backfill)
  {
    backfill := BackfillItems(selector.finalFeed, rankedPopular);
    if |selector.finalFeed| < BatchSize {
      var remainingNeeded := BatchSize - |selector.finalFeed|;
      var usedIds := set v | v in selector.finalFeed :: v.id;
      var items := Take(Unused(rankedPopular, usedIds), remainingNeeded);
      selector.AddAllFresh(items);
    }
  }

  /** `selectedPopular`: the first 17 of the shuffled top 50 popular
      entries. */
  function PopularPicks(rankedPopular: seq<Scored>, rand: nat -> nat): seq<Scored>
  {
    Take(Shuffled(Take(rankedPopular, 50), rand), 17)
  }

  /** The selection of lines 264-299 as written: the popular picks, the top
      3 personalized entries, then the backfill, each through
      `addVideoSafely`. */
  function SelectionOf(rankedPopular: seq<Scored>, rankedPersonalized: seq<Scored>, rand: nat -> nat): Selection
  {
    var s1 := OfferAll(Empty, PopularPicks(rankedPopular, rand));
    var s2 := OfferAll(s1, Take(rankedPersonalized, 3));
    OfferAll(s2, BackfillItems(s2.feed, rankedPopular))
  }

  /** The same selection through the corrected selector. */
  function FreshSelectionOf(rankedPopular: seq<Scored>, rankedPersonalized: seq<Scored>, rand: nat -> nat): Selection
  {
    var s1 := OfferFreshAll(Empty, PopularPicks(rankedPopular, rand));
    var s2 := OfferFreshAll(s1, Take(rankedPersonalized, 3));
    OfferFreshAll(s2, BackfillItems(s2.feed, rankedPopular))
  }

  /** The candidates of the selection phase: the first `ceil(20 * 0.85)`
      = 17 of the shuffled top 50 popular entries, and the top 20 - 17 = 3
      personalized entries. */
  method DrawPools(rankedPopular: seq<Scored>, rankedPersonalized: seq<Scored>, rand: nat -> nat)
    returns (selectedPopular: seq<Scored>, selectedPersonalized: seq<Scored>)
    ensures |selectedPopular| <= 17 && |selectedPersonalized| <= 3
    ensures forall x :: x in selectedPopular ==> x in rankedPopular
    ensures selectedPopular == PopularPicks(rankedPopular, rand)
    ensures selectedPersonalized == Take(rankedPersonalized, 3)
    ensures DistinctBy(rankedPopular, ScoredId) ==> DistinctBy(selectedPopular, ScoredId)
  {
    var x := BatchSize as real * PopularRatio;
    var targetPopularCount := -((-x).Floor);
    assert targetPopularCount == 17;
    var targetPersonalizedCount := BatchSize - targetPopularCount;
    var pool := Take(rankedPopular, Max(50, targetPopularCount * 2));
    assert Max(50, targetPopularCount * 2) == 50;
    var shuffled := ShuffleArray(pool, rand);
    selectedPopular := Take(shuffled, targetPopularCount);
    selectedPersonalized := Take(rankedPersonalized, targetPersonalizedCount);
    TakeOfShuffle(rankedPopular, pool, shuffled, targetPopularCount);
    if DistinctBy(rankedPopular, ScoredId) {
      TakeDistinct(rankedPopular, Max(50, targetPopularCount * 2));
      DistinctByPermutation(pool, shuffled, ScoredId);
      TakeDistinct(shuffled, targetPopularCount);
    }
  }

  /** The selection of lines 264-299 as written: up to 17 of the shuffled
      top 50 popular entries, the top 3 personalized entries, then a
      backfill from the unused popular entries up to 20, all through
      `addVideoSafely`. Nothing stops an entry of both pools from being
      taken twice (see `Cooldown.DuplicateAcrossPools`); when each ranking
      holds one entry per id, each of the three parts still does. */
  method SelectShorts(rankedPopular: seq<Scored>, rankedPersonalized: seq<Scored>, rand: nat -> nat)
    returns (finalFeed: seq<Video>, ghost popularPart: seq<Video>, ghost personalPart: seq<Video>,
             ghost backfillPart: seq<Video>)
    ensures finalFeed == popularPart + personalPart + backfillPart
    ensures |popularPart| <= 17 && |personalPart| <= 3 && |finalFeed| <= BatchSize
    ensures forall v :: v in backfillPart ==> v.id !in IdSet(popularPart + personalPart)
    ensures Spaced(finalFeed)
    ensures finalFeed == SelectionOf(rankedPopular, rankedPersonalized, rand).feed
    ensures var s1 := OfferAll(Empty, PopularPicks(rankedPopular, rand));
            popularPart == s1.feed && popularPart + personalPart == OfferAll(s1, Take(rankedPersonalized, 3)).feed
    ensures forall v :: v in finalFeed ==> FromPool(v, rankedPopular + rankedPersonalized)
    ensures DistinctBy(rankedPopular, ScoredId) && DistinctBy(rankedPersonalized, ScoredId) ==>
              DistinctIds(popularPart) && DistinctIds(personalPart) && DistinctIds(backfillPart)
  {
    var selectedPopular, selectedPersonalized := DrawPools(rankedPopular, rankedPersonalized, rand);
    ghost var all := rankedPopular + rankedPersonalized;

    var selector := new Selector();
    selector.AddAll(selectedPopular);
    ghost var s1 := selector.State();
    selector.AddAll(selectedPersonalized);
    ghost var s2 := selector.State();
    TwoPhases(selectedPopular, selectedPersonalized, all);
    ghost var backfill := Backfill(selector, rankedPopular);
    Phase(s2, backfill, all);
    finalFeed := selector.finalFeed;
    popularPart := s1.feed;
    personalPart := s2.feed[|s1.feed|..];
    backfillPart := finalFeed[|s2.feed|..];
    assert popularPart + personalPart == s2.feed;
    BackfillAddsNew(s2, backfill);
    if DistinctBy(rankedPopular, ScoredId) && DistinctBy(rankedPersonalized, ScoredId) {
      PartsDistinct(selectedPopular, selectedPersonalized, rankedPopular, rankedPersonalized);
    }
  }

  /** The entries the backfill appends have ids the feed did not hold. */
  lemma BackfillAddsNew(s: Selection, backfill: seq<Scored>)
    requires forall x :: x in backfill ==> x.video.id !in IdSet(s.feed)
    ensures |s.feed| <= |OfferAll(s, backfill).feed|
    ensures forall v :: v in OfferAll(s, backfill).feed[|s.feed|..] ==> v.id !in IdSet(s.feed)
  {
    var r := OfferAll(s, backfill);
    OfferAllAppends(s, backfill);
    forall v | v in r.feed[|s.feed|..] ensures v.id !in IdSet(s.feed) {
      var k :| 0 <= k < |r.feed[|s.feed|..]| && r.feed[|s.feed|..][k] == v;
      assert r.feed[|s.feed| + k] == v;
      var x :| x in backfill && x.video == v && x.score >= MinScore;
    }
  }

  /** As written, each of the three phases over rankings with one entry
      per id appends entries with distinct ids. */
  lemma PartsDistinct(popular: seq<Scored>, personal: seq<Scored>, rankedPopular: seq<Scored>,
                      rankedPersonalized: seq<Scored>)
    requires DistinctBy(rankedPopular, ScoredId) && DistinctBy(rankedPersonalized, ScoredId)
    requires DistinctBy(popular, ScoredId) && personal == Take(rankedPersonalized, 3)
    ensures var s1 := OfferAll(Empty, popular);
            var s2 := OfferAll(s1, personal);
            var backfill := BackfillItems(s2.feed, rankedPopular);
            && |s1.feed| <= |s2.feed| <= |OfferAll(s2, backfill).feed|
            && DistinctIds(s1.feed)
            && DistinctIds(s2.feed[|s1.feed|..])
            && DistinctIds(OfferAll(s2, backfill).feed[|s2.feed|..])
  {
    var s1 := OfferAll(Empty, popular);
    var s2 := OfferAll(s1, personal);
    OfferAllAddsDistinct(Empty, popular);
    assert s1.feed == s1.feed[|Empty.feed|..];
    TakeDistinct(rankedPersonalized, 3);
    OfferAllAddsDistinct(s1, personal);
    if |s2.feed| < BatchSize {
      var used := set v | v in s2.feed :: v.id;
      UnusedDistinct(rankedPopular, used);
      TakeDistinct(Unused(rankedPopular, used), BatchSize - |s2.feed|);
    }
    var backfill := BackfillItems(s2.feed, rankedPopular);
    assert DistinctBy(backfill, ScoredId);
    OfferAllAddsDistinct(s2, backfill);
  }

  /** The first two phases as written: the personalized phase extends the
      popular one, and the feed keeps the cooldown invariant and comes from
      the pools. */
  lemma TwoPhases(popular: seq<Scored>, personal: seq<Scored>, all: seq<Scored>)
    requires forall x :: x in popular ==> x in all
    requires forall x :: x in personal ==> x in all
    ensures var s1 := OfferAll(Empty, popular);
            var s2 := OfferAll(s1, personal);
            && |s1.feed| <= |popular| && |s2.feed| <= |s1.feed| + |personal|
            && Grows(s1, s2) && Sound(s2, all)
  {
    var s1 := OfferAll(Empty, popular);
    EmptyValid();
    assert Sound(Empty, all);
    Phase(Empty, popular, all);
    Phase(s1, personal, all);
  }

  /** The corrected selection: the same phases through the selector that
      skips an id the feed already holds, so no id repeats. */
  method SelectShortsFresh(rankedPopular: seq<Scored>, rankedPersonalized: seq<Scored>, rand: nat -> nat)
    returns (finalFeed: seq<Video>, ghost popularPart: seq<Video>, ghost personalPart: seq<Video>,
             ghost backfillPart: seq<Video>)
    ensures finalFeed == popularPart + personalPart + backfillPart
    ensures |popularPart| <= 17 && |personalPart| <= 3 && |finalFeed| <= BatchSize
    ensures forall v :: v in backfillPart ==> v.id !in IdSet(popularPart + personalPart)
    ensures finalFeed == FreshSelectionOf(rankedPopular, rankedPersonalized, rand).feed
    ensures var s1 := OfferFreshAll(Empty, PopularPicks(rankedPopular, rand));
            popularPart == s1.feed && popularPart + personalPart == OfferFreshAll(s1, Take(rankedPersonalized, 3)).feed
    ensures DistinctIds(finalFeed) && Spaced(finalFeed)
    ensures forall v :: v in finalFeed ==> FromPool(v, rankedPopular + rankedPersonalized)
  {
    var selectedPopular, selectedPersonalized := DrawPools(rankedPopular, rankedPersonalized, rand);
    ghost var all := rankedPopular + rankedPersonalized;

    var selector := new Selector();
    selector.AddAllFresh(selectedPopular);
    ghost var s1 := selector.State();
    selector.AddAllFresh(selectedPersonalized);
    ghost var s2 := selector.State();
    FreshTwoPhases(selectedPopular, selectedPersonalized, all);
    ghost var backfill := BackfillFresh(selector, rankedPopular);
    FreshPhase(s2, backfill, all);
    finalFeed := selector.finalFeed;
    popularPart := s1.feed;
    personalPart := s2.feed[|s1.feed|..];
    backfillPart := finalFeed[|s2.feed|..];
  }

  /** The first two corrected phases: as `TwoPhases`, and no id repeats. */
  lemma FreshTwoPhases(popular: seq<Scored>, personal: seq<Scored>, all: seq<Scored>)
    requires forall x :: x in popular ==> x in all
    requires forall x :: x in personal ==> x in all
    ensures var s1 := OfferFreshAll(Empty, popular);
            var s2 := OfferFreshAll(s1, personal);
            && |s1.feed| <= |popular| && |s2.feed| <= |s1.feed| + |personal|
            && Extends(s1, s2) && Good(s2, all)
  {
    var s1 := OfferFreshAll(Empty, popular);
    EmptyValid();
    assert Good(Empty, all);
    FreshPhase(Empty, popular, all);
    FreshPhase(s1, personal, all);
  }

  /** What `Eligible` under the shorts filter rules out. */
  lemma EligibleExcludes(v: Video, signals: ShortsSignals)
    requires Eligible(v, ShortsFilterOf(signals))
    ensures v.id !in IdSet(signals.shortsHistory)
    ensures v.id !in signals.hiddenVideoIds && v.id !in signals.seenIds
    ensures v.channelId !in signals.ngChannelIds
    ensures !MatchesNgKeyword(v, signals.ngKeywords)
  {
  }

  /** A short `getXraiShorts` may return: not in the shorts history, not
      hidden, not among the caller's seen ids, not from a blocked channel,
      not matching an NG keyword, and short-form. */
  ghost predicate Admitted(v: Video, signals: ShortsSignals, parse: (string, string) -> int)
  {
    && v.id !in IdSet(signals.shortsHistory)
    && v.id !in signals.hiddenVideoIds
    && v.id !in signals.seenIds
    && v.channelId !in signals.ngChannelIds
    && !MatchesNgKeyword(v, signals.ngKeywords)
    && IsShortVideo(v, parse)
  }

  /** Every entry of the two ranked pools is an eligible short. */
  lemma RankedAreEligibleShorts(rankedPopular: seq<Scored>, rankedPersonalized: seq<Scored>,
                                popularRaw: seq<Video>, personalizedRaw: seq<Video>, f: ShortsFilter,
                                parse: (string, string) -> int)
    requires forall x :: x in rankedPopular ==> x.video in popularRaw && Eligible(x.video, f)
    requires forall x :: x in rankedPersonalized ==> x.video in personalizedRaw && Eligible(x.video, f)
    requires forall w :: w in popularRaw + personalizedRaw ==> IsShortVideo(w, parse)
    ensures forall x :: x in rankedPopular + rankedPersonalized ==> Eligible(x.video, f) && IsShortVideo(x.video, parse)
  {
    forall x | x in rankedPopular + rankedPersonalized
      ensures Eligible(x.video, f) && IsShortVideo(x.video, parse)
    {
      assert x in rankedPopular || x in rankedPersonalized;
      assert x.video in popularRaw + personalizedRaw;
    }
  }

  /** `processCandidates` as a function: the first eligible candidate per
      id, scored, sorted by score descending. */
  function Ranked(candidates: seq<Video>, f: ShortsFilter, score: Video -> real): seq<Scored>
  {
    SortDesc(ScoreAll(FirstById(candidates, f), score), ScoreOf)
  }

  /** `personalizedShortsRaw`: the personalized pool searched from the seeds
      of the user vector the signals build. */
  function PersonalizedCandidates(signals: ShortsSignals, search: string -> SearchResult,
                                  parse: (string, string) -> int, keywords: string -> seq<string>,
                                  decay: nat -> real): seq<Video>
  {
    var pairs := SignalPairs(signals.subscribedChannels, signals.shortsHistory, signals.watchHistory, keywords, decay);
    AccumulateSpec(NoWeights, pairs);
    PersonalizedPool(ShortsSeeds(Accumulate(NoWeights, pairs)), search, parse)
  }

  /** Lines 166-262: the user vector, its seeds, the two candidate pools
      and their rankings. `trending` is `getRecommendedVideos().videos`,
      `search(q)` the result of `searchVideos(q, '1')`, `keywords` stands
      for `extractKeywords` and `decay(i)` for `Math.exp(-i / 10)`. */
  method RankPools(
    signals: ShortsSignals,
    trending: seq<Video>,
    search: string -> SearchResult,
    parse: (string, string) -> int,
    keywords: string -> seq<string>,
    decay: nat -> real,
    popularScore: Video -> real,
    personalizedScore: Video -> real)
    returns (rankedPopular: seq<Scored>, rankedPersonalized: seq<Scored>)
    ensures rankedPopular == Ranked(ShortsOf(trending, parse, true), ShortsFilterOf(signals), popularScore)
    ensures rankedPersonalized ==
      Ranked(PersonalizedCandidates(signals, search, parse, keywords, decay), ShortsFilterOf(signals), personalizedScore)
    ensures SortedDesc(rankedPopular, ScoreOf) && SortedDesc(rankedPersonalized, ScoreOf)
    ensures forall x :: x in rankedPopular ==> x.video in trending && x.score == popularScore(x.video)
    ensures forall x :: x in rankedPopular + rankedPersonalized ==> Admitted(x.video, signals, parse)
    ensures DistinctBy(rankedPopular, ScoredId) && DistinctBy(rankedPersonalized, ScoredId)
  {
    var userVector := BuildUserVector(signals.subscribedChannels, signals.shortsHistory, signals.watchHistory,
                                      keywords, decay);
    AccumulateSpec(NoWeights, SignalPairs(signals.subscribedChannels, signals.shortsHistory, signals.watchHistory,
                                          keywords, decay));
    var seeds := ShortsSeeds(userVector);
    var popularRaw := ShortsOf(trending, parse, true);
    var personalizedRaw := PersonalizedPool(seeds, search, parse);

    var filter := ShortsFilterOf(signals);
    rankedPopular := ProcessCandidates(popularRaw, filter, popularScore);
    rankedPersonalized := ProcessCandidates(personalizedRaw, filter, personalizedScore);

    ShortsOfMembers(trending, parse, true);
    PersonalizedPoolShort(seeds, search, parse);
    RankedAreEligibleShorts(rankedPopular, rankedPersonalized, popularRaw, personalizedRaw, filter, parse);
    forall x | x in rankedPopular + rankedPersonalized ensures Admitted(x.video, signals, parse) {
      EligibleExcludes(x.video, signals);
    }
  }

  /** Every entry a selection drew from the ranked pools is admitted. */
  lemma DrawnAdmitted(feed: seq<Video>, ranked: seq<Scored>, signals: ShortsSignals, parse: (string, string) -> int,
                      shuffled: seq<Video>)
    requires forall x :: x in ranked ==> Admitted(x.video, signals, parse)
    requires forall v :: v in feed ==> FromPool(v, ranked)
    requires multiset(shuffled) == multiset(feed)
    ensures forall v :: v in shuffled ==> Admitted(v, signals, parse)
  {
    forall v | v in shuffled ensures Admitted(v, signals, parse) {
      assert v in multiset(feed);
      assert v in feed && FromPool(v, ranked);
      var x :| x in ranked && x.video == v && x.score >= MinScore;
    }
  }

  /** The whole shorts batch as written. `rand(0)` and `rand(1)` give the
      draws of the two `shuffleArray` calls. The batch is a shuffle of a
      cooldown-spaced selection of admitted shorts; an id can repeat only
      as a popular pick taken again as one of the three personalized picks
      (see `Cooldown.DuplicateAcrossPools`). */
  method GetXraiShorts(
    signals: ShortsSignals,
    trending: seq<Video>,
    search: string -> SearchResult,
    parse: (string, string) -> int,
    keywords: string -> seq<string>,
    decay: nat -> real,
    popularScore: Video -> real,
    personalizedScore: Video -> real,
    rand: nat -> nat -> nat)
    returns (feed: seq<Video>, ghost finalFeed: seq<Video>, ghost popularCount: nat, ghost personalCount: nat)
    ensures var f := ShortsFilterOf(signals);
            var rankedPopular := Ranked(ShortsOf(trending, parse, true), f, popularScore);
            var rankedPersonalized := Ranked(PersonalizedCandidates(signals, search, parse, keywords, decay), f, personalizedScore);
            finalFeed == SelectionOf(rankedPopular, rankedPersonalized, rand(0)).feed
    ensures feed == Shuffled(finalFeed, rand(1))
    ensures |feed| <= BatchSize
    ensures multiset(feed) == multiset(finalFeed) && Spaced(finalFeed)
    ensures forall v :: v in feed ==> Admitted(v, signals, parse)
    ensures popularCount <= 17 && personalCount <= 3
    ensures forall i, j :: 0 <= i < j < |finalFeed| && finalFeed[i].id == finalFeed[j].id ==>
              i < popularCount <= j < popularCount + personalCount
  {
    var rankedPopular, rankedPersonalized :=
      RankPools(signals, trending, search, parse, keywords, decay, popularScore, personalizedScore);
    var selected, popularPart, personalPart, backfillPart := SelectShorts(rankedPopular, rankedPersonalized, rand(0));
    popularCount, personalCount := |popularPart|, |personalPart|;
    finalFeed := selected;
    feed := ShuffleArray(selected, rand(1));
    DrawnAdmitted(selected, rankedPopular + rankedPersonalized, signals, parse, feed);
  }

  /** The whole shorts batch with the corrected selector: as
      `GetXraiShorts`, and no id appears twice. */
  method GetXraiShortsFresh(
    signals: ShortsSignals,
    trending: seq<Video>,
    search: string -> SearchResult,
    parse: (string, string) -> int,
    keywords: string -> seq<string>,
    decay: nat -> real,
    popularScore: Video -> real,
    personalizedScore: Video -> real,
    rand: nat -> nat -> nat)
    returns (feed: seq<Video>, ghost finalFeed: seq<Video>)
    ensures var f := ShortsFilterOf(signals);
            var rankedPopular := Ranked(ShortsOf(trending, parse, true), f, popularScore);
            var rankedPersonalized := Ranked(PersonalizedCandidates(signals, search, parse, keywords, decay), f, personalizedScore);
            finalFeed == FreshSelectionOf(rankedPopular, rankedPersonalized, rand(0)).feed
    ensures feed == Shuffled(finalFeed, rand(1))
    ensures |feed| <= BatchSize
    ensures multiset(feed) == multiset(finalFeed) && Spaced(finalFeed)
    ensures DistinctIds(feed)
    ensures forall v :: v in feed ==> Admitted(v, signals, parse)
  {
    var rankedPopular, rankedPersonalized :=
      RankPools(signals, trending, search, parse, keywords, decay, popularScore, personalizedScore);
    var selected, popularPart, personalPart, backfillPart :=
      SelectShortsFresh(rankedPopular, rankedPersonalized, rand(0));
    finalFeed := selected;
    feed := ShuffleArray(selected, rand(1));
    DrawnAdmitted(selected, rankedPopular + rankedPersonalized, signals, parse, feed);
    DistinctIdsAsMultiset(selected);
    DistinctIdsAsMultiset(feed);
  }
}

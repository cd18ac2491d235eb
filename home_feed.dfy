/** `getXraiRecommendations` of utils/recommendation.ts: seed queries,
    the short/long split, the shared seen-set filter and the capped
    trending/personalized mix of the home feed. The upstream calls are
    already resolved: a failed call is an empty result. */
module HomeFeed {
  import opened Strings
  import opened Seqs
  import opened Videos
  import opened Shuffle
  import opened Recommendation

  const TargetVideos := 50
  const TrendingVideoRatio := 0.40
  const TargetShorts := 20

  /** `searchVideos(query, '1')` reduced to the two lists the feed reads. */
  datatype SearchResult = SearchResult(videos: seq<Video>, shorts: seq<Video>)

  /** The caller's signal snapshot, as far as this feed reads it. Blocked
      channels and hidden videos are given by their ids. */
  datatype Signals = Signals(
    watchHistory: seq<Video>,
    subscribedChannels: seq<Channel>,
    ngKeywords: seq<string>,
    ngChannelIds: seq<string>,
    hiddenVideoIds: seq<string>,
    negativeKeywords: map<string, real>)

  datatype HomeFeed = HomeFeed(videos: seq<Video>, shorts: seq<Video>)

  function RelatedSeed(v: Video): string
  {
    CleanTitleForSearch(v.title) + " related"
  }

  function ChannelSeed(c: Channel): string
  {
    c.name + " videos"
  }

  function RelatedSeeds(sample: seq<Video>): (seeds: seq<string>)
    ensures |seeds| == |sample|
    ensures forall k :: 0 <= k < |sample| ==> seeds[k] == RelatedSeed(sample[k])
  {
    if sample == [] then [] else [RelatedSeed(sample[0])] + RelatedSeeds(sample[1..])
  }

  function ChannelSeeds(sample: seq<Channel>): (seeds: seq<string>)
    ensures |seeds| == |sample|
    ensures forall k :: 0 <= k < |sample| ==> seeds[k] == ChannelSeed(sample[k])
  {
    if sample == [] then [] else [ChannelSeed(sample[0])] + ChannelSeeds(sample[1..])
  }

  /** Each history seed is a cleaned title of at most four words plus
      " related", so it has at most four spaces. */
  lemma RelatedSeedWords(v: Video)
    ensures Count(RelatedSeed(v), ' ') <= 4
  {
    CleanTitleWords(v.title);
    CountAppend(CleanTitleForSearch(v.title), " related", ' ');
  }

  /** The seeds step 1 chooses, by the draws `rand`. */
  function SeedsOf(watchHistory: seq<Video>, subscribedChannels: seq<Channel>, rand: nat -> nat): seq<string>
  {
    if |watchHistory| > 0 then RelatedSeeds(Take(Shuffled(watchHistory, rand), 5))
    else if |subscribedChannels| > 0 then ChannelSeeds(Take(Shuffled(subscribedChannels, rand), 3))
    else ["Music", "Gaming", "Vlog"]
  }

  /** Seed choice: up to 5 seeds from a shuffled watch history, else up to 3
      from shuffled subscriptions, else the three fixed genres. */
  method ChooseSeeds(watchHistory: seq<Video>, subscribedChannels: seq<Channel>, rand: nat -> nat)
    returns (seeds: seq<string>)
    ensures seeds == SeedsOf(watchHistory, subscribedChannels, rand)
    ensures |watchHistory| > 0 ==>
      && seeds == RelatedSeeds(Take(Shuffled(watchHistory, rand), 5))
      && |seeds| == (if |watchHistory| < 5 then |watchHistory| else 5)
      && forall k :: 0 <= k < |seeds| ==> exists v :: v in watchHistory && seeds[k] == RelatedSeed(v)
    ensures |watchHistory| == 0 && |subscribedChannels| > 0 ==>
      && seeds == ChannelSeeds(Take(Shuffled(subscribedChannels, rand), 3))
      && |seeds| == (if |subscribedChannels| < 3 then |subscribedChannels| else 3)
      && forall k :: 0 <= k < |seeds| ==> exists c :: c in subscribedChannels && seeds[k] == ChannelSeed(c)
    ensures |watchHistory| == 0 && |subscribedChannels| == 0 ==> seeds == ["Music", "Gaming", "Vlog"]
  {
    if |watchHistory| > 0 {
      var shuffled := ShuffleArray(watchHistory, rand);
      var sample := Take(shuffled, 5);
      seeds := RelatedSeeds(sample);
      forall k | 0 <= k < |seeds| ensures exists v :: v in watchHistory && seeds[k] == RelatedSeed(v) {
        assert sample[k] in multiset(shuffled);
      }
    } else if |subscribedChannels| > 0 {
      var shuffled := ShuffleArray(subscribedChannels, rand);
      var sample := Take(shuffled, 3);
      seeds := ChannelSeeds(sample);
      forall k | 0 <= k < |seeds| ensures exists c :: c in subscribedChannels && seeds[k] == ChannelSeed(c) {
        assert sample[k] in multiset(shuffled);
      }
    } else {
      seeds := ["Music", "Gaming", "Vlog"];
    }
  }

  function FlatVideos(results: seq<SearchResult>): seq<Video>
  {
    if results == [] then [] else results[0].videos + FlatVideos(results[1..])
  }

  function FlatShorts(results: seq<SearchResult>): seq<Video>
  {
    if results == [] then [] else results[0].shorts + FlatShorts(results[1..])
  }

  /** Entries of a shuffled sample come from the pool it was cut from. */
  lemma TakeShuffledFrom(pool: seq<Video>, shuffled: seq<Video>, n: nat)
    requires multiset(shuffled) == multiset(pool)
    ensures multiset(Take(shuffled, n)) <= multiset(pool)
    ensures forall v :: v in Take(shuffled, n) ==> v in pool
  {
    TakeMultiset(shuffled, n);
    forall v | v in Take(shuffled, n) ensures v in pool {
      assert v in multiset(Take(shuffled, n));
    }
  }

  /** The exclusion lists of the signal snapshot, as `filterAndDedupe`
      reads them. */
  function ExclusionsOf(signals: Signals, keywords: string -> seq<string>): Exclusions
  {
    Exclusions(signals.ngKeywords, (set id | id in signals.ngChannelIds), signals.negativeKeywords, keywords)
  }

  /** A video the home feed may show: not hidden, not from a blocked
      channel, no NG keyword in its title or channel name, and a negative
      score of at most 2. */
  predicate Allowed(v: Video, signals: Signals, keywords: string -> seq<string>)
  {
    && v.id !in signals.hiddenVideoIds
    && v.channelId !in signals.ngChannelIds
    && !MatchesNgKeyword(v, signals.ngKeywords)
    && NegativeScore(keywords(v.title) + keywords(v.channelName), signals.negativeKeywords) <= 2.0
  }

  /** The four clean pools: trending videos, personalized videos, trending
      shorts, personalized shorts. */
  datatype Pools = Pools(tv: seq<Video>, pv: seq<Video>, ts: seq<Video>, ps: seq<Video>)

  /** Step 4 as a function: one `filterAndDedupe` per list, in this order,
      each starting from the seen set the previous one left. */
  function CleanPools(tv: seq<Video>, pv: seq<Video>, ts: seq<Video>, ps: seq<Video>, seen0: set<string>,
                      ex: Exclusions): Pools
  {
    var a := Dedupe(tv, seen0, ex);
    var b := Dedupe(pv, a.seen, ex);
    var c := Dedupe(ts, b.seen, ex);
    var d := Dedupe(ps, c.seen, ex);
    Pools(a.kept, b.kept, c.kept, d.kept)
  }

  /** The lists steps 1-3 feed into step 4, and the pools step 4 makes of
      them. `rand` gives the draws of the seed shuffle. */
  function HomePools(signals: Signals, trending: seq<Video>, search: string -> SearchResult,
                     parse: (string, string) -> int, keywords: string -> seq<string>, rand: nat -> nat): Pools
  {
    var seeds := SeedsOf(signals.watchHistory, signals.subscribedChannels, rand);
    var results := seq(|seeds|, k requires 0 <= k < |seeds| => search(seeds[k]));
    var found := FlatVideos(results);
    CleanPools(ShortsOf(trending, parse, false), ShortsOf(found, parse, false),
               ShortsOf(trending, parse, true), FlatShorts(results) + ShortsOf(found, parse, true),
               (set id | id in signals.hiddenVideoIds), ExclusionsOf(signals, keywords))
  }

  /** Step 4: the four `filterAndDedupe` calls sharing one seen set, seeded
      with the hidden ids. */
  method FilterPools(tv: seq<Video>, pv: seq<Video>, ts: seq<Video>, ps: seq<Video>, seen0: set<string>, ex: Exclusions)
    returns (cleanTV: seq<Video>, cleanPV: seq<Video>, cleanTS: seq<Video>, cleanPS: seq<Video>)
    ensures Pools(cleanTV, cleanPV, cleanTS, cleanPS) == CleanPools(tv, pv, ts, ps, seen0, ex)
    ensures DistinctIds(cleanTV) && DistinctIds(cleanPV) && DistinctIds(cleanTS) && DistinctIds(cleanPS)
    ensures IdSet(cleanTV) !! IdSet(cleanPV) && IdSet(cleanTV) !! IdSet(cleanTS) && IdSet(cleanTV) !! IdSet(cleanPS)
    ensures IdSet(cleanPV) !! IdSet(cleanTS) && IdSet(cleanPV) !! IdSet(cleanPS) && IdSet(cleanTS) !! IdSet(cleanPS)
    ensures forall v :: v in cleanTV + cleanPV + cleanTS + cleanPS ==> Admissible(v, ex) && v.id !in seen0
    ensures IsSubsequence(cleanTV, tv) && IsSubsequence(cleanPV, pv)
    ensures IsSubsequence(cleanTS, ts) && IsSubsequence(cleanPS, ps)
    ensures forall v :: v in cleanPV ==> v !in tv
  {
    var seen1, seen2, seen3, seen4;
    cleanTV, seen1 := FilterAndDedupe(tv, seen0, ex);
    cleanPV, seen2 := FilterAndDedupe(pv, seen1, ex);
    cleanTS, seen3 := FilterAndDedupe(ts, seen2, ex);
    cleanPS, seen4 := FilterAndDedupe(ps, seen3, ex);
    forall v | v in cleanPV ensures v !in tv {
      assert v.id !in seen1 && Admissible(v, ex);
    }
  }

  /** Step 5: 20 of the shuffled trending videos and 30 of the shuffled
      personalized ones, shuffled together. */
  method MixVideos(cleanTV: seq<Video>, cleanPV: seq<Video>, r1: nat -> nat, r2: nat -> nat, r3: nat -> nat)
    returns (videos: seq<Video>, partT: seq<Video>, partP: seq<Video>)
    ensures partT == Take(Shuffled(cleanTV, r1), 20) && partP == Take(Shuffled(cleanPV, r2), 30)
    ensures videos == Shuffled(partT + partP, r3)
    ensures multiset(videos) == multiset(partT) + multiset(partP)
    ensures |partT| == (if |cleanTV| < 20 then |cleanTV| else 20)
    ensures |partP| == (if |cleanPV| < 30 then |cleanPV| else 30)
    ensures multiset(partT) <= multiset(cleanTV) && multiset(partP) <= multiset(cleanPV)
    ensures forall v :: v in partT ==> v in cleanTV
    ensures forall v :: v in partP ==> v in cleanPV
  {
    var numTrending := (TargetVideos as real * TrendingVideoRatio).Floor;
    var numPersonalized := TargetVideos - numTrending;
    assert numTrending == 20 && numPersonalized == 30;
    var shuffledTV := ShuffleArray(cleanTV, r1);
    var shuffledPV := ShuffleArray(cleanPV, r2);
    partT := Take(shuffledTV, numTrending);
    partP := Take(shuffledPV, numPersonalized);
    videos := ShuffleArray(partT + partP, r3);
    TakeShuffledFrom(cleanTV, shuffledTV, numTrending);
    TakeShuffledFrom(cleanPV, shuffledPV, numPersonalized);
  }

  /** Step 6: both shorts pools shuffled, concatenated, shuffled again and
      cut to 20. */
  method MixShorts(cleanTS: seq<Video>, cleanPS: seq<Video>, r4: nat -> nat, r5: nat -> nat, r6: nat -> nat)
    returns (shorts: seq<Video>)
    ensures shorts == Take(Shuffled(Shuffled(cleanTS, r4) + Shuffled(cleanPS, r5), r6), TargetShorts)
    ensures |shorts| == (if |cleanTS| + |cleanPS| < TargetShorts then |cleanTS| + |cleanPS| else TargetShorts)
    ensures multiset(shorts) <= multiset(cleanTS) + multiset(cleanPS)
  {
    var shuffledTS := ShuffleArray(cleanTS, r4);
    var shuffledPS := ShuffleArray(cleanPS, r5);
    var allShorts := ShuffleArray(shuffledTS + shuffledPS, r6);
    shorts := Take(allShorts, TargetShorts);
    TakeMultiset(allShorts, TargetShorts);
  }

  /** Four id-distinct, pairwise id-disjoint pools. */
  ghost predicate Separate(p: Pools)
  {
    && DistinctIds(p.tv) && DistinctIds(p.pv) && DistinctIds(p.ts) && DistinctIds(p.ps)
    && IdSet(p.tv) !! IdSet(p.pv) && IdSet(p.tv) !! IdSet(p.ts) && IdSet(p.tv) !! IdSet(p.ps)
    && IdSet(p.pv) !! IdSet(p.ts) && IdSet(p.pv) !! IdSet(p.ps) && IdSet(p.ts) !! IdSet(p.ps)
  }

  /** Steps 1-4: seeds, searches, the short/long split and the four
      filter passes. `rand` gives the draws of the seed shuffle. */
  method CollectPools(
    signals: Signals,
    trending: seq<Video>,
    search: string -> SearchResult,
    parse: (string, string) -> int,
    keywords: string -> seq<string>,
    rand: nat -> nat)
    returns (cleanTV: seq<Video>, cleanPV: seq<Video>, cleanTS: seq<Video>, cleanPS: seq<Video>)
    ensures Pools(cleanTV, cleanPV, cleanTS, cleanPS) == HomePools(signals, trending, search, parse, keywords, rand)
    ensures Separate(Pools(cleanTV, cleanPV, cleanTS, cleanPS))
    ensures forall v :: v in cleanTV ==> v in trending && !IsShortVideo(v, parse)
    ensures forall v :: v in cleanTS ==> v in trending && IsShortVideo(v, parse)
    ensures forall v :: v in cleanPV ==> v !in trending && !IsShortVideo(v, parse)
    ensures forall v :: v in cleanTV + cleanPV + cleanTS + cleanPS ==> Allowed(v, signals, keywords)
  {
    var seen0 := set id | id in signals.hiddenVideoIds;
    var ex := ExclusionsOf(signals, keywords);

    // 1. seeds, 2. content
    var seeds := ChooseSeeds(signals.watchHistory, signals.subscribedChannels, rand);
    var results := seq(|seeds|, k requires 0 <= k < |seeds| => search(seeds[k]));

    // 3. split
    var trendingVideos, trendingShorts := SplitShorts(trending, parse);
    var personalizedVideos, extraShorts := SplitShorts(FlatVideos(results), parse);
    var personalizedShorts := FlatShorts(results) + extraShorts;

    // 4. filter and dedupe
    cleanTV, cleanPV, cleanTS, cleanPS :=
      FilterPools(trendingVideos, personalizedVideos, trendingShorts, personalizedShorts, seen0, ex);

    SubsequenceMembers(cleanTV, trendingVideos);
    SubsequenceMembers(cleanPV, personalizedVideos);
    SubsequenceMembers(cleanTS, trendingShorts);
    forall v | v in cleanTV + cleanPV + cleanTS + cleanPS ensures Allowed(v, signals, keywords) {
      assert v in cleanTV || v in cleanPV || v in cleanTS || v in cleanPS;
    }
  }

  /** The whole home feed. `trending` is `getRecommendedVideos().videos`,
      `search(q)` the result of `searchVideos(q, '1')`, `parse` stands for
      `parseDuration`, and `rand(n)` gives the draws of the n-th
      `shuffleArray` call. The ghost results are the four filtered pools
      of step 4, in the order trending videos, personalized videos,
      trending shorts, personalized shorts. */
  method GetXraiRecommendations(
    signals: Signals,
    trending: seq<Video>,
    search: string -> SearchResult,
    parse: (string, string) -> int,
    keywords: string -> seq<string>,
    rand: nat -> nat -> nat)
    returns (feed: HomeFeed, ghost poolTV: seq<Video>, ghost poolPV: seq<Video>,
             ghost poolTS: seq<Video>, ghost poolPS: seq<Video>)
    ensures Pools(poolTV, poolPV, poolTS, poolPS) == HomePools(signals, trending, search, parse, keywords, rand(0))
    ensures feed.videos == Shuffled(Take(Shuffled(poolTV, rand(1)), 20) + Take(Shuffled(poolPV, rand(2)), 30), rand(3))
    ensures feed.shorts == Take(Shuffled(Shuffled(poolTS, rand(4)) + Shuffled(poolPS, rand(5)), rand(6)), TargetShorts)
    ensures |feed.videos| <= TargetVideos && |feed.shorts| <= TargetShorts
    ensures |feed.videos| == (if |poolTV| < 20 then |poolTV| else 20) + (if |poolPV| < 30 then |poolPV| else 30)
    ensures |feed.shorts| == (if |poolTS| + |poolPS| < TargetShorts then |poolTS| + |poolPS| else TargetShorts)
    ensures multiset(feed.videos) <= multiset(poolTV) + multiset(poolPV)
    ensures multiset(feed.shorts) <= multiset(poolTS) + multiset(poolPS)
    ensures forall v :: v in poolTV ==> v in trending && !IsShortVideo(v, parse)
    ensures forall v :: v in poolTS ==> v in trending && IsShortVideo(v, parse)
    ensures forall v :: v in poolPV ==> v !in trending && !IsShortVideo(v, parse)
    ensures forall v :: v in poolTV + poolPV + poolTS + poolPS ==> Allowed(v, signals, keywords)
    ensures |set v | v in feed.videos && v in trending| <= 20
    ensures |set v | v in feed.videos && v !in trending| <= 30
    ensures DistinctIds(feed.videos + feed.shorts)
    ensures forall v :: v in feed.videos + feed.shorts ==> Allowed(v, signals, keywords)
    ensures forall v :: v in feed.videos ==> !IsShortVideo(v, parse)
  {
    // 1.-4.
    var cleanTV, cleanPV, cleanTS, cleanPS := CollectPools(signals, trending, search, parse, keywords, rand(0));

    // 5., 6. mix
    var videos, partT, partP := MixVideos(cleanTV, cleanPV, rand(1), rand(2), rand(3));
    var shorts := MixShorts(cleanTS, cleanPS, rand(4), rand(5), rand(6));
    feed := HomeFeed(videos, shorts);
    poolTV, poolPV, poolTS, poolPS := cleanTV, cleanPV, cleanTS, cleanPS;

    FeedIdsUnique(cleanTV, cleanPV, cleanTS, cleanPS, videos, shorts);
    FeedMembers(cleanTV, cleanPV, cleanTS, cleanPS, videos, shorts);
    forall v | v in videos + shorts ensures Allowed(v, signals, keywords) {
      assert v in cleanTV + cleanPV + cleanTS + cleanPS;
    }
    MixProvenance(trending, partT, partP, videos);
  }

  lemma IdSetsDisjoint(a: seq<Video>, b: seq<Video>)
    requires IdSet(a) !! IdSet(b)
    ensures IdDisjoint(multiset(a), multiset(b))
  {
    forall x, y | x in multiset(a) && y in multiset(b) ensures x.id != y.id {
      assert x.id in IdSet(a) && y.id in IdSet(b);
    }
  }

  /** Four id-distinct, pairwise id-disjoint survivor lists: anything drawn
      from them without repetition has distinct ids. */
  lemma FeedIdsUnique(a: seq<Video>, b: seq<Video>, c: seq<Video>, d: seq<Video>, videos: seq<Video>, shorts: seq<Video>)
    requires DistinctIds(a) && DistinctIds(b) && DistinctIds(c) && DistinctIds(d)
    requires IdSet(a) !! IdSet(b) && IdSet(a) !! IdSet(c) && IdSet(a) !! IdSet(d)
    requires IdSet(b) !! IdSet(c) && IdSet(b) !! IdSet(d) && IdSet(c) !! IdSet(d)
    requires multiset(videos) <= multiset(a) + multiset(b)
    requires multiset(shorts) <= multiset(c) + multiset(d)
    ensures DistinctIds(videos + shorts)
  {
    DistinctIdsAsMultiset(a);
    DistinctIdsAsMultiset(b);
    DistinctIdsAsMultiset(c);
    DistinctIdsAsMultiset(d);
    var ma, mb, mc, md := multiset(a), multiset(b), multiset(c), multiset(d);
    IdSetsDisjoint(a, b);
    IdSetsDisjoint(a, c);
    IdSetsDisjoint(a, d);
    IdSetsDisjoint(b, c);
    IdSetsDisjoint(b, d);
    IdSetsDisjoint(c, d);
    UniqueIdsUnion(ma, mb);
    UniqueIdsUnion(ma + mb, mc);
    UniqueIdsUnion(ma + mb + mc, md);
    assert multiset(videos + shorts) <= ma + mb + mc + md;
    UniqueIdsSub(multiset(videos + shorts), ma + mb + mc + md);
    DistinctIdsAsMultiset(videos + shorts);
  }

  lemma FeedMembers(a: seq<Video>, b: seq<Video>, c: seq<Video>, d: seq<Video>, videos: seq<Video>, shorts: seq<Video>)
    requires multiset(videos) <= multiset(a) + multiset(b)
    requires multiset(shorts) <= multiset(c) + multiset(d)
    ensures forall v :: v in videos ==> v in a || v in b
    ensures forall v :: v in shorts ==> v in c || v in d
  {
    forall v | v in videos ensures v in a || v in b {
      assert v in multiset(videos);
    }
    forall v | v in shorts ensures v in c || v in d {
      assert v in multiset(shorts);
    }
  }

  /** The trending part contributes at most its 20 entries and the
      personalized part at most its 30, once the personalized part holds
      nothing from the trending pool. */
  lemma MixProvenance(trending: seq<Video>, partT: seq<Video>, partP: seq<Video>, videos: seq<Video>)
    requires |partT| <= 20 && |partP| <= 30
    requires multiset(videos) == multiset(partT) + multiset(partP)
    requires forall v :: v in partT ==> v in trending
    requires forall v :: v in partP ==> v !in trending
    ensures |set v | v in videos && v in trending| <= 20
    ensures |set v | v in videos && v !in trending| <= 30
  {
    assert (set v | v in videos && v in trending) <= (set v | v in partT) by {
      forall v | v in videos && v in trending ensures v in partT {
        assert v in multiset(videos);
      }
    }
    assert (set v | v in videos && v !in trending) <= (set v | v in partP) by {
      forall v | v in videos && v !in trending ensures v in partP {
        assert v in multiset(videos);
      }
    }
    CardinalityOfElements(partT);
    CardinalityOfElements(partP);
    SubsetCardinality(set v | v in videos && v in trending, set v | v in partT);
    SubsetCardinality(set v | v in videos && v !in trending, set v | v in partP);
  }
}

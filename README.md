# XeroxYT feed and API core in Dafny

This project models the recommendation and data-shaping core of a YouTube
front end and its serverless API, and proves properties about that model:

- `utils/recommendation.ts` — the home feed (`getXraiRecommendations`).
  Modelled: seed choice, the short/long split, the shared `filterAndDedupe`,
  and the 20 trending + 30 personalized video mix with 20 shorts.
- `utils/recommendation.ts` — the shorts feed (`getXraiShorts`).
  Modelled: the keyword user vector, the top-keyword seeds, candidate
  filtering and ranking, and the 85 % / 15 % selection. The selection is
  modelled as written: the popular and personalized picks go through the
  per-channel cooldown (`addVideoSafely`), which does not skip an id
  already taken. Only the backfill skips used ids. The final shuffle comes
  last. A corrected selection that skips used ids in every phase is
  modelled beside it (see Findings).
- `api/index.js` — the related-video top-up of `/api/video` (at most 50
  entries, at most 2 continuations) and the comment walk of `/api/comments`
  (300 comments, at most 5 continuations, with the response defaults).
  Also the page walk, name and avatar normalisation of `/api/channel`, and
  the missing-parameter 400 check that every handler makes.
- `pages/HomePage.tsx` — `parseISODuration`, `shuffleArray` and the
  `loadRecommended` pipeline. The pipeline covers the caps (10 search terms,
  15 channels, 10 videos each), the fallback below 20 videos, the `Map`
  de-duplication and the longer-than-60-seconds filter.
- `utils/proxyThumbnail.ts` — `getProxyThumbnailUrl`, including its two
  regular expressions, and `getDirectThumbnailUrl`.
- `contexts/AiContext.tsx` — the clean-up of the language model's reply
  into at most five search queries, and the fallbacks when there is no
  engine or the request fails.

Modules, one per file:

- `Seqs` and `Strings` hold generic helpers: `Take`, subsequences, decimal
  text, `Trim`, `Split`/`Join`, `IndexOf` and `ReplaceFirst`.
- `Videos` holds the `Video` and `Channel` records and id-uniqueness
  predicates.
- `Shuffle` is the Fisher–Yates shuffle. It works in place on an `array`,
  and the random draws are a parameter.
- `Recommendation` covers title cleaning, the short/long split and
  `filterAndDedupe`.
- `HomeFeed` is `getXraiRecommendations`.
- `UserProfile` is the shorts user vector and its top keywords.
- `Ranking` is `processCandidates` and a descending insertion sort.
- `Cooldown` is `addVideoSafely`, as a class holding `finalFeed` and
  `channelCooldown`. It also holds the corrected variant that skips an id
  already in the feed.
- `ShortsFeed` is `getXraiShorts`.
- `HomePage` is `HomePage.tsx`.
- `Api` is `api/index.js`.
- `ProxyThumbnail` is `proxyThumbnail.ts`.
- `AiReply` is the reply post-processing of `AiContext.tsx`.

Everything the code gets from outside becomes a parameter of the model:
upstream search and channel calls, `Math.random`, `localStorage`,
`encodeURIComponent`, `parseDuration`, `extractKeywords`, the keyword scores
and the language model's answer. Upstream calls are modelled as outcomes:
thrown, `null`, or a value.

## Model

| member | source | states |
|---|---|---|
| Shuffle.Swap | utils/recommendation.ts:27 | the destructuring swap exchanges positions i and j and leaves every other position alone |
| Shuffle.SwapPermutes | utils/recommendation.ts:27 | a swap keeps the multiset of elements |
| Shuffle.ShuffleDown | utils/recommendation.ts:25-28 | the downward Fisher–Yates loop keeps the length |
| Shuffle.ShuffleDownPermutes | utils/recommendation.ts:25-28 | every run of the loop, whatever the random draws, is a permutation of its input |
| Shuffle.ShuffledPermutes | utils/recommendation.ts:23-30 | `shuffleArray` returns a permutation of the input: same length, same multiset |
| Shuffle.ShuffleArray | pages/HomePage.tsx:29-36 | the in-place array loop computes exactly the specified shuffle, so it returns a permutation of the copied input |
| Recommendation.FindClose | utils/recommendation.ts:33 | the lazy `.*?` finds the first closer on the same line, or reports that every closer comes after a line break |
| Recommendation.StripBrackets | utils/recommendation.ts:33 | removing `【…】`, `[…]` and `(…)` groups never lengthens the title and leaves a title without openers unchanged |
| Recommendation.CleanTitleWords | utils/recommendation.ts:32-34 | the cleaned title has at most 4 space-separated words and is a prefix of the trimmed, bracket-free title (all of it when that has at most 4 words) |
| Recommendation.ShortsOf | utils/recommendation.ts:104-121 | the short/long partition of a list is no longer than the list |
| Recommendation.ShortsOfIn | utils/recommendation.ts:36-39 | an item is in the shorts part iff it is in the list and 1–60 seconds long or titled `#shorts` (case-insensitive), and in the long part iff it is not |
| Recommendation.ShortsOfInOrder | utils/recommendation.ts:104-110 | each part keeps the items in their original order |
| Recommendation.ShortsOfMembers | utils/recommendation.ts:104-121 | membership and order of each part together |
| Recommendation.ShortsOfPartition | utils/recommendation.ts:104-121 | the two parts together are exactly the input, as a multiset |
| Recommendation.SplitShorts | utils/recommendation.ts:102-110 | the push loop builds the two parts: a partition of the input by `isShortVideo` |
| Recommendation.DedupeAdmissible | utils/recommendation.ts:58-79 | every survivor passes the seen-id, NG-keyword, NG-channel and negative-score (> 2) rules, and the seen set only grows |
| Recommendation.DedupeDistinct | utils/recommendation.ts:58-79 | survivors have distinct ids, and the seen set afterwards is the old one plus the survivors' ids |
| Recommendation.DedupeSound | utils/recommendation.ts:58-79 | admissibility, distinctness and the new seen set together |
| Recommendation.DedupeOrder | utils/recommendation.ts:59 | `filter` keeps survivors in input order |
| Recommendation.DedupeComplete | utils/recommendation.ts:58-79 | every input item is either excluded by a rule or has its id in the seen set afterwards |
| Recommendation.FilterAndDedupe | utils/recommendation.ts:58-79 | the filter loop computes the specified result: admissible, unseen, distinct and ordered survivors, with the updated seen set |
| HomeFeed.RelatedSeeds | utils/recommendation.ts:85 | each sampled history video gives `<cleaned title> related`, position by position |
| HomeFeed.ChannelSeeds | utils/recommendation.ts:88 | each sampled channel gives `<name> videos`, position by position |
| HomeFeed.RelatedSeedWords | utils/recommendation.ts:85 | a related seed has at most 4 spaces: up to 4 title words plus `related` |
| HomeFeed.ChooseSeeds | utils/recommendation.ts:82-91 | the seeds are exactly `SeedsOf`: up to 5 shuffled history titles, else up to 3 shuffled channels, else `Music`, `Gaming`, `Vlog`; each seed comes from the user's own history or channels |
| HomeFeed.TakeShuffledFrom | utils/recommendation.ts:134-135 | a prefix of a shuffled pool only holds pool members, with no extra copies |
| HomeFeed.FilterPools | utils/recommendation.ts:123-127 | the clean pools are exactly the four `Dedupe` passes chained through one seen set (`CleanPools`); so they are each distinct, pairwise id-disjoint, admissible, unseen and in input order |
| HomeFeed.CollectPools | utils/recommendation.ts:81-127 | steps 1-4 yield exactly `HomePools` (seeds, one search per seed, split by duration, chained filter passes); the pools are separate (distinct, pairwise disjoint), clean trending pools hold trending videos split by shortness, the personalized long pool holds no trending video, and every entry passes the filters |
| HomeFeed.MixVideos | utils/recommendation.ts:129-136 | the videos are exactly a shuffle of the first 20 of shuffled clean trending plus the first 30 of shuffled clean personalized, so min(20, trending) + min(30, personalized) of them |
| HomeFeed.MixShorts | utils/recommendation.ts:138-142 | the shorts are exactly the first 20 of a shuffle of the two shuffled clean shorts pools, so min(20, total) of them, with no extra copies |
| HomeFeed.GetXraiRecommendations | utils/recommendation.ts:41-145 | the pools are `HomePools` of the inputs and the two lists are exactly the mixes of lines 129-142 over them; so exactly min(20, clean trending) + min(30, clean personalized) videos and min(20, clean shorts of both pools) shorts, drawn without extra copies from the four filtered pools; no id twice across both lists; every item passes the filters; no short among the videos |
| HomeFeed.IdSetsDisjoint | utils/recommendation.ts:76 | pools with disjoint id sets have no id in common as multisets |
| HomeFeed.FeedIdsUnique | utils/recommendation.ts:130-144 | mixing four distinct, pairwise-disjoint pools yields a feed with no repeated id |
| HomeFeed.FeedMembers | utils/recommendation.ts:133-142 | every video comes from the two video pools and every short from the two shorts pools |
| HomeFeed.MixProvenance | utils/recommendation.ts:130-136 | at most 20 distinct trending and at most 30 distinct non-trending videos reach the feed |
| UserProfile.WeightSumAppend | utils/recommendation.ts:170 | one more pair adds its weight to exactly its own keyword's sum |
| UserProfile.HasKeyAppend | utils/recommendation.ts:170 | a key is present after one more pair iff it was present or is that pair's keyword |
| UserProfile.WeightSumAbsent | utils/recommendation.ts:170 | a keyword that never occurs has sum 0 |
| UserProfile.AccumulateSpec | utils/recommendation.ts:168-171 | the `Map.set` fold keeps insertion order consistent with the keys, holds exactly the keys seen, and each weight is the old weight plus the sum of that keyword's pairs |
| UserProfile.AccumulatePositive | utils/recommendation.ts:170 | positive weights stay positive |
| UserProfile.AccumulateAppend | utils/recommendation.ts:174-184 | folding two signal lists one after the other equals folding their concatenation |
| UserProfile.HistoryPairsPositive | utils/recommendation.ts:175-184 | positive title/channel weights times a positive decay give only positive pairs |
| UserProfile.SubscriptionPairsPositive | utils/recommendation.ts:174 | subscriptions contribute only weight 5.0 |
| UserProfile.UserVectorSpec | utils/recommendation.ts:168-184 | the user vector's keys are exactly the keywords of the signals (subscriptions, 30 shorts, 20 watched), each weighted by the sum of its pairs, and all weights are positive |
| UserProfile.AddWeight | utils/recommendation.ts:169-171 | the `forEach` loop computes the specified fold of one keyword list |
| UserProfile.BuildUserVector | utils/recommendation.ts:168-184 | the three signal loops compute the specified user vector |
| UserProfile.HistoryPairsSnoc | utils/recommendation.ts:175-184 | the pairs of a history end with the last video's title pairs, then its channel pairs |
| UserProfile.HistoryStep | utils/recommendation.ts:175-179 | one loop iteration extends the folded prefix by one video |
| UserProfile.AddHistory | utils/recommendation.ts:175-184 | a history loop folds exactly the pairs of that history into the vector |
| UserProfile.SortedEntries | utils/recommendation.ts:194 | the sorted entries are by weight descending, a permutation of the entries, one per key, with their true weights |
| UserProfile.TopKeywordsSpec | utils/recommendation.ts:194 | min(4, #keys) distinct keys of the vector |
| UserProfile.TopKeywordsHeaviest | utils/recommendation.ts:194 | every top keyword weighs at least as much as every key left out |
| UserProfile.OrderCountsKeys | utils/recommendation.ts:168 | the insertion order lists each key once |
| UserProfile.DistinctCardinality | utils/recommendation.ts:194 | a duplicate-free list has as many elements as its set |
| UserProfile.ShortsSeedsSpec | utils/recommendation.ts:195-196 | at most 2 seeds: `Funny #shorts` and `Trending #shorts` for an empty vector, otherwise the first min(2, #top keywords) top keywords in rank order, each followed by ` #shorts` |
| Ranking.Insert | utils/recommendation.ts:258 | insertion adds one element |
| Ranking.SortDesc | utils/recommendation.ts:258 | sorting keeps the length |
| Ranking.InsertPermutes | utils/recommendation.ts:258 | insertion adds exactly the new element to the multiset |
| Ranking.InsertSorted | utils/recommendation.ts:258 | insertion into a descending list stays descending |
| Ranking.SortDescSpec | utils/recommendation.ts:258 | the sort by `b.score - a.score` is descending and a permutation |
| Ranking.FirstByIdSound | utils/recommendation.ts:246-253 | the `unique` map keeps only eligible candidates, one per id, in first-seen order, and every eligible id is represented |
| Ranking.FirstByIdFirst | utils/recommendation.ts:252 | the kept candidate is the first eligible one with its id |
| Ranking.ProcessCandidates | utils/recommendation.ts:245-259 | the ranking is descending by score, holds only eligible candidates with their own scores and distinct ids, and covers every eligible id |
| Ranking.RankedSound | utils/recommendation.ts:245-259 | every ranked entry is an eligible candidate carrying its own score |
| Ranking.RankedUnique | utils/recommendation.ts:246-253 | no id is ranked twice |
| Ranking.RankedComplete | utils/recommendation.ts:247-253 | every eligible candidate's id is ranked |
| Ranking.RankedSpec | utils/recommendation.ts:245-259 | all four ranking properties together |
| Ranking.ScoredIdsUnique | utils/recommendation.ts:255-258 | scoring and sorting distinct videos keeps ids distinct |
| Cooldown.EmptyValid | utils/recommendation.ts:265-266 | the empty feed and cooldown map satisfy the spacing invariant |
| Cooldown.OfferAppends | utils/recommendation.ts:268-283 | an item is appended iff it exists, scores at least -50 and its channel's cooldown is 0; otherwise nothing changes |
| Cooldown.OfferValid | utils/recommendation.ts:268-283 | each call keeps the invariant: two videos of one channel are more than 3 positions apart, and the cooldowns account for the recent picks |
| Cooldown.OfferAllValid | utils/recommendation.ts:286-291 | a `forEach` of `addVideoSafely` keeps the invariant |
| Cooldown.OfferAllAppends | utils/recommendation.ts:286-291 | a `forEach` of `addVideoSafely` only grows the feed at the end, by at most one entry per item, each the video of an item scoring -50 or more |
| Cooldown.OfferAllAddsDistinct | utils/recommendation.ts:286-291 | over items with distinct ids, a `forEach` of `addVideoSafely` appends entries with distinct ids |
| Cooldown.OfferFreshAllValid | utils/recommendation.ts:268-298 | with duplicate ids skipped, the feed keeps the invariant and has distinct ids |
| Cooldown.OfferFreshAllAppends | utils/recommendation.ts:268-298 | with duplicate ids skipped, the feed only grows at the end, by at most one per item, with new ids drawn from the items at score -50 or more |
| Cooldown.PopularRun | utils/recommendation.ts:268-287 | four popular shorts from four channels are all admitted, and the first channel's cooldown is back to 0 |
| Cooldown.FreshRun | utils/recommendation.ts:268-287 | on a pool without repeated ids, skipping duplicates changes nothing |
| Cooldown.DuplicateAcrossPools | utils/recommendation.ts:287-291 | as written, a video ranked in both pools is appended twice (see Findings) |
| Cooldown.FreshSkipsDuplicate | utils/recommendation.ts:287-291 | with the duplicate skipped, the same input yields each video once |
| Cooldown.Selector.constructor | utils/recommendation.ts:265-266 | a new selector holds the empty feed and cooldown map |
| Cooldown.Selector.AddVideoSafely | utils/recommendation.ts:268-283 | the method (append, set 3, decrement the other channels' positive cooldowns) updates the state exactly as `Offer` specifies |
| Cooldown.Selector.AddFreshVideo | utils/recommendation.ts:268-283 | the same, skipping an id already in the feed |
| Cooldown.Selector.AddAll | utils/recommendation.ts:286-291 | the `forEach` over a selection updates the state as `OfferAll` specifies |
| Cooldown.Selector.AddAllFresh | utils/recommendation.ts:286-291 | the `forEach` over a selection updates the state as `OfferFreshAll` specifies |
| ShortsFeed.PersonalizedPoolShort | utils/recommendation.ts:197-199 | every personalized candidate is a short |
| ShortsFeed.Unused | utils/recommendation.ts:297 | the backfill candidates are ranked popular items whose ids are not yet used |
| ShortsFeed.TakeOfShuffle | utils/recommendation.ts:286 | a prefix of the shuffled top 50 only holds ranked popular items |
| ShortsFeed.Max | utils/recommendation.ts:286 | `Math.max` is the larger argument |
| ShortsFeed.UnusedDistinct | utils/recommendation.ts:297 | the unused entries of a ranking with one entry per id hold one entry per id |
| ShortsFeed.Phase | utils/recommendation.ts:287-291 | one `forEach(addVideoSafely)` keeps the invariant and pool provenance, extends the feed at the end, and adds at most one video per item |
| ShortsFeed.FreshPhase | utils/recommendation.ts:287-291 | the same phase through the corrected selector also keeps ids distinct and adds only new ids |
| ShortsFeed.TwoPhases | utils/recommendation.ts:286-291 | as written, the popular phase then the personalized phase give a feed bounded by the two selections, extending the popular part, valid and drawn from the pools |
| ShortsFeed.FreshTwoPhases | utils/recommendation.ts:286-291 | the corrected two phases: the same, with distinct ids and only new ids added by the second phase |
| ShortsFeed.BackfillItems | utils/recommendation.ts:294-297 | the backfill offers only ranked popular items whose ids are unused, and only as many as the shortfall below 20 |
| ShortsFeed.Backfill | utils/recommendation.ts:294-299 | the backfill loop, as written through `addVideoSafely`, updates the state as `OfferAll` over `BackfillItems` specifies |
| ShortsFeed.BackfillFresh | utils/recommendation.ts:294-299 | the same backfill through the corrected selector |
| ShortsFeed.DrawPools | utils/recommendation.ts:285-290 | the popular picks are exactly the first 17 (`ceil(20 * 0.85)`, lines 161-164) of the shuffled top max(50, 34) of the popular ranking (`PopularPicks`), distinct when the ranking is; the personalized picks are its first 3 |
| ShortsFeed.SelectShorts | utils/recommendation.ts:264-299 | as written: the feed is exactly `SelectionOf` (popular picks offered, then the first 3 personalized, then the backfill from the popular ranking), its parts the intermediate feeds; at most 20 in total; backfilled ids are new; same-channel videos more than 3 apart; every video comes from a pool; each part has distinct ids when each ranking holds one entry per id |
| ShortsFeed.BackfillAddsNew | utils/recommendation.ts:296-298 | the entries the backfill appends have ids the feed did not already hold |
| ShortsFeed.PartsDistinct | utils/recommendation.ts:285-298 | as written, over rankings with one entry per id, each of the popular, personalized and backfill phases appends entries with distinct ids |
| ShortsFeed.SelectShortsFresh | utils/recommendation.ts:264-299 | the corrected selection: the feed is exactly `FreshSelectionOf`, with the same parts and bounds, and no id twice in the whole feed |
| ShortsFeed.EligibleExcludes | utils/recommendation.ts:204-251 | an eligible video is not in the shorts history, hidden or seen ids, NG channels or NG keywords |
| ShortsFeed.RankedAreEligibleShorts | utils/recommendation.ts:191-253 | every entry of the two ranked pools is an eligible short |
| ShortsFeed.RankPools | utils/recommendation.ts:166-262 | the rankings are exactly `Ranked` of the trending shorts and of the personalized candidates (weighted seeds searched) under the shared filter and their scores; so both are descending by score with one entry per id; every entry is a short not in the shorts history, hidden, seen, from an NG channel or matching an NG keyword |
| ShortsFeed.DrawnAdmitted | utils/recommendation.ts:301 | a shuffle of a selection from the ranked pools holds only admitted shorts |
| ShortsFeed.GetXraiShorts | utils/recommendation.ts:148-302 | as written: the selection is exactly `SelectionOf` the two `Ranked` pools and the feed is its shuffle; at most 20 shorts, cooldown-spaced before the shuffle, none already seen, hidden, from an NG channel or matching an NG keyword, every one a short; an id repeats only as one of at most 17 popular picks taken again as one of at most 3 personalized picks |
| ShortsFeed.GetXraiShortsFresh | utils/recommendation.ts:148-302 | with the corrected selection: exactly the shuffle of `FreshSelectionOf` the two `Ranked` pools; the same bounds and filters, and no id twice |
| HomePage.Component | pages/HomePage.tsx:20 | one optional `(\d+)X` group consumes no more than the text |
| HomePage.FindPT | pages/HomePage.tsx:20-21 | the unanchored match starts at the first `PT` |
| HomePage.ParseISODuration | pages/HomePage.tsx:17-27 | empty text and text without `PT` give 0 |
| HomePage.ComponentPresent | pages/HomePage.tsx:20-25 | a present group yields its number and the text after it |
| HomePage.ComponentAbsent | pages/HomePage.tsx:20-25 | an absent group yields 0 and consumes nothing |
| HomePage.SecondsGroup | pages/HomePage.tsx:20-25 | the `S` group reads the seconds, or 0 |
| HomePage.MinutesGroup | pages/HomePage.tsx:20-24 | the `M` group reads the minutes, or 0, and leaves the seconds |
| HomePage.HoursGroup | pages/HomePage.tsx:20-23 | the `H` group reads the hours, or 0, and leaves the rest |
| HomePage.ParseTimeFormatted | pages/HomePage.tsx:23-26 | `#H#M#S` text with any groups present reads as h*3600 + m*60 + s |
| HomePage.ParseAfterPT | pages/HomePage.tsx:20-21 | text starting with `PT` is read after it |
| HomePage.ParseFormatted | pages/HomePage.tsx:17-27 | every `PT#H#M#S` duration round-trips to h*3600 + m*60 + s |
| HomePage.ParseExample | pages/HomePage.tsx:17-27 | `PT1H2M3S` is 3723 seconds |
| HomePage.ParseDaysIsZero | pages/HomePage.tsx:20-26 | `P1DT2H` reads as 0 seconds, as the regex is written |
| HomePage.FromSubscription | pages/HomePage.tsx:48-53 | a channel video takes the subscription's name, avatar and id, and keeps its own id, title and duration |
| HomePage.ChannelBatch | pages/HomePage.tsx:46-54 | at most 10 videos per channel, each one of its first 10, re-labelled with the subscription |
| HomePage.SearchBatchesFrom | pages/HomePage.tsx:42-58 | every search video comes from a fulfilled search of one of the terms |
| HomePage.ChannelBatchesFrom | pages/HomePage.tsx:46-58 | every channel video is one of its subscription's first 10, re-labelled |
| HomePage.ChannelBatchesSize | pages/HomePage.tsx:48 | channels contribute at most 10 videos each |
| HomePage.PersonalizedSources | pages/HomePage.tsx:42-58 | every personalized video comes from one of the first 10 terms or the first 15 channels, with at most 150 from channels |
| HomePage.WithFallback | pages/HomePage.tsx:61-64 | below 20 personalized videos the trending ones are appended; otherwise the list is unchanged |
| HomePage.BuildMap | pages/HomePage.tsx:66 | the `Map` holds each id once, mapped to a video with that id from the list, and every listed id is a key |
| HomePage.FirstIndex | pages/HomePage.tsx:66 | the position of the first entry with an id: that entry has the id and none before it does |
| HomePage.BuildMapOrder | pages/HomePage.tsx:66 | the keys are in first-insertion order: every key occurs in the list, and a key listed earlier first occurs earlier |
| HomePage.MapDedupSpec | pages/HomePage.tsx:66 | the de-duplicated list has distinct ids, the same id set as the input and only input videos |
| HomePage.SetEntryOther | pages/HomePage.tsx:66 | setting one id leaves the others' values alone |
| HomePage.LastOfIdSnoc | pages/HomePage.tsx:66 | a later video with another id does not change which entry is last for an id |
| HomePage.MapValuesLast | pages/HomePage.tsx:66 | the value kept for an id is its last occurrence in the list |
| HomePage.DedupeById | pages/HomePage.tsx:66 | the `Map`-building loop computes the specified de-duplication |
| HomePage.LongOnly | pages/HomePage.tsx:67 | a video is kept iff it is in the list and longer than 60 seconds, in order |
| HomePage.LongOnlyDistinct | pages/HomePage.tsx:67 | filtering keeps ids distinct |
| HomePage.LoadRecommended | pages/HomePage.tsx:38-76 | an error is shown iff the fallback is needed and the trending call fails; otherwise a permutation of the de-duplicated long videos, with distinct ids, each from the personalized sources or, under the fallback, from trending |
| Api.Guard | api/index.js:28-30 | a failed client is a 500, a missing or empty parameter a 400, otherwise the handler goes on with the parameter |
| Api.TruthyIdsSnoc | api/index.js:57-61 | appending an entry adds its id to the seen set iff the id is truthy |
| Api.TruthyIdsPrefix | api/index.js:57-61 | a longer list has at least the seen ids of its prefix |
| Api.AppendUnseen | api/index.js:67-73 | one continuation page appends, in order and up to 50 entries, only entries with a truthy id not seen before; below 50 every truthy id of the page is then seen |
| Api.ContinueWith | api/index.js:63-79 | one loop iteration keeps the seen set, the cap and the provenance of every appended entry |
| Api.TopUpRelated | api/index.js:45-86 | at most 2 continuations; a throw or a null first continuation leaves the feed as it was; otherwise the feed starts with the page's own candidates, appends fresh entries from the continuations, stays within 50 when it started below, and stops only at 50, at 2 calls or when no continuation is offered |
| Api.VideoEndpoint | api/index.js:26-99 | a 400 iff the id is missing, a 200 iff the id is present and `getInfo` succeeds; no continuation is asked for on an error, and a page offering none answers with its own candidates; a throw or a null first continuation still answers 200 with the feed as it was; otherwise the feed starts with the page's candidates, stays within 50 when it started below, and appends only entries with a truthy id not seen before, each from a continuation; a feed left below 50 means the 2 continuations were used or the chain stopped, and every truthy id fetched is in it |
| Api.WalkPrefix | api/index.js:190-201 | a longer walk extends a shorter one (the same walk backs the comment loop at lines 141-147) |
| Api.WalkFails | api/index.js:190-201 | a walk fails iff one of its continuation calls did not return a page (likewise for the comment loop at lines 141-147) |
| Api.WalkComments | api/index.js:135-147 | at most 5 continuations, each taken only below 300 comments with `has_continuation`, and the loop stops at 300, at no continuation or at 5 attempts |
| Api.TextOrSelf | api/index.js:153-156 | `x?.text ?? x` returns the text when there is one, else the value itself |
| Api.CountText | api/index.js:159-160 | a count becomes its decimal text, `'0'` when missing |
| Api.ShapeComment | api/index.js:150-162 | a missing comment gives the all-null defaults with `'0'` counts and `false`; otherwise text, id, published time (`x?.text ?? x`) and the pinned flag are carried over and the counts printed in decimal; the author's id and name are carried over and its thumbnails default to `[]`, all author fields `null`/`[]` without an author |
| Api.CommentsEndpoint | api/index.js:129-168 | a 400 iff the id is missing; with the first page fetched, a 200 iff the continuation walk succeeds; each continuation was asked for only below 300 comments with `has_continuation`; a 200 returns min(300, fetched) comments, each shaped from the fetched thread at its position, after the walk reached 300, ran out of continuations or used all 5 |
| Api.WalkChannel | api/index.js:188-201 | the loop asks for at most `targetPage - 1` pages, and only while a continuation exists |
| Api.ChosenAvatar | api/index.js:205 | the `||` chain takes the first truthy of metadata, header and author thumbnails, or `null` |
| Api.AvatarProvenance | api/index.js:205-212 | a returned URL is the first thumbnail's or the object's own truthy `url`; an array is kept only when empty; `null` iff nothing was truthy |
| Api.ChannelName | api/index.js:204 | the name is the first non-empty of the metadata title, header title and author name, or `null` |
| Api.ChannelEndpoint | api/index.js:173-236 | a 400 iff the id is missing; with the channel and first page fetched, a 200 iff the page walk succeeds; each further page was asked for only after one with `has_continuation`; a 200 returns the walked videos, the last page's `has_continuation`, the requested page and the normalised name and avatar |
| ProxyThumbnail.FindVideoId | utils/proxyThumbnail.ts:8 | the first position matching `/vi/` + 11 id characters + `/`, or none iff no position matches |
| ProxyThumbnail.AlternativeAt | utils/proxyThumbnail.ts:11 | the first alternative, in the regex's order, that matches at a position |
| ProxyThumbnail.FindQuality | utils/proxyThumbnail.ts:11 | the leftmost quality-file match with its first matching alternative, or none iff there is none |
| ProxyThumbnail.GetProxyThumbnailUrl | utils/proxyThumbnail.ts:1-17 | the result is empty iff the URL is; with the proxy turned off (`'false'` stored) the URL is returned unchanged |
| ProxyThumbnail.FileOf | utils/proxyThumbnail.ts:11 | every quality names one of the five regex alternatives |
| ProxyThumbnail.GetDirectThumbnailUrl | utils/proxyThumbnail.ts:19-21 | `/api/thumbnail/<id>?quality=<q>` with the given quality's name, `hq` when none is given |
| ProxyThumbnail.StripDefault | utils/proxyThumbnail.ts:12 | `replace('default', '')` removes the suffix when the prefix has no `default` inside |
| ProxyThumbnail.QualityParamOfFile | utils/proxyThumbnail.ts:11-13 | a matched file gives its quality name, with `default.jpg` asking for `hq` |
| ProxyThumbnail.QualityParamRange | utils/proxyThumbnail.ts:12-13 | the quality parameter is always one of `maxres`, `sd`, `hq`, `mq` |
| ProxyThumbnail.ProxyThumbnailShape | utils/proxyThumbnail.ts:8-16 | with the proxy on, a URL with a video id goes to the thumbnail route with that id and one of the four qualities; any other URL goes to the proxy route with the encoded URL |
| ProxyThumbnail.ThumbnailUrlLayout | utils/proxyThumbnail.ts:8-11 | where the id and the file sit in a standard thumbnail URL |
| ProxyThumbnail.VideoIdOfThumbnailUrl | utils/proxyThumbnail.ts:8 | the id regex finds the URL's own id |
| ProxyThumbnail.PatternShape | utils/proxyThumbnail.ts:11 | each file pattern starts with `/` and has no other `/` |
| ProxyThumbnail.NoFileInHost | utils/proxyThumbnail.ts:11 | no file pattern matches inside a host without `.jpg` |
| ProxyThumbnail.NoFileInIdPart | utils/proxyThumbnail.ts:11 | no file pattern matches inside the `/vi/<id>` part |
| ProxyThumbnail.QualityOfThumbnailUrl | utils/proxyThumbnail.ts:11 | the quality regex finds the URL's own file |
| ProxyThumbnail.ProxyOfThumbnailUrl | utils/proxyThumbnail.ts:1-21 | proxying a standard thumbnail URL gives the same route as `getDirectThumbnailUrl` for its id and quality, with `default` read as `hq` |
| AiReply.StripNumbering | contexts/AiContext.tsx:109 | `^\d+\.\s*` removes something iff the line starts with digits and a dot, and then leaves no leading space |
| AiReply.StripBullet | contexts/AiContext.tsx:109 | `^- \s*` removes something iff the line starts with `- `, and then leaves no leading space |
| AiReply.RemoveQuotes | contexts/AiContext.tsx:109 | every `"` is removed and nothing else, so quote-free lines are unchanged |
| AiReply.CleanLineIsQuery | contexts/AiContext.tsx:109 | a non-empty cleaned line has no quotes and no surrounding spaces, and is no longer than the line |
| AiReply.MapLines | contexts/AiContext.tsx:108-109 | `map` cleans each line in place |
| AiReply.NonEmptyImages | contexts/AiContext.tsx:108-110 | `filter` keeps at most as many lines as there are |
| AiReply.NonEmptyImagesInOrder | contexts/AiContext.tsx:110 | the kept lines are in their original order |
| AiReply.NonEmptyImagesMembers | contexts/AiContext.tsx:110 | a query is kept iff it is a non-empty cleaned line |
| AiReply.NonEmptyImagesExact | contexts/AiContext.tsx:108-110 | when every line cleans to a non-empty query, the queries are exactly those |
| AiReply.QueriesAreQueries | contexts/AiContext.tsx:108-110 | every query is non-empty, trimmed and quote-free |
| AiReply.AiRecommendations | contexts/AiContext.tsx:72-116 | at most 5 results; none without an engine; on a failed request the first min(5, \|interests\|) interests; on a reply only clean queries |
| AiReply.EmptyReply | contexts/AiContext.tsx:106-112 | a missing or empty reply gives no queries |
| AiReply.CleanPlain | contexts/AiContext.tsx:109 | a plain query passes through the clean-up unchanged |
| AiReply.StripNumbered | contexts/AiContext.tsx:109 | `n. query` loses exactly its numbering |
| AiReply.StripBulleted | contexts/AiContext.tsx:109 | `- query` is not numbered and loses exactly its bullet |
| AiReply.MarkedOneLine | contexts/AiContext.tsx:108 | a marked query stays on one line |
| AiReply.CleanMarked | contexts/AiContext.tsx:109 | a plain, numbered or bulleted query cleans back to the query |
| AiReply.MarkedLines | contexts/AiContext.tsx:108 | one marked line per query |
| AiReply.ListedReply | contexts/AiContext.tsx:106-112 | a reply listing queries one per line, each plain, numbered or bulleted, yields the first 5 of them: the clean-up inverts the list format |

## Left out

- Floating point: scores, ratios and weights are `real`. `Math.exp`, `Math.sqrt`, the cosine score and the random noise are not computed. Scores are parameters (`popularScore`, `personalizedScore`), and the recency decay is a parameter.
- Randomness: `Math.random` is a parameter giving each draw's index. Every property holds whatever the draws are.
- Concurrency: `Promise.all` and `Promise.allSettled` are modelled by their results. A rejected search is an empty result (`.catch(() => [])`), a rejected settled promise is dropped, and the order of requests is not modelled.
- Upstream calls are parameters: the YouTube client (`youtubei.js`), `searchVideos`, `getRecommendedVideos`, `getChannelVideos`. `utils/api`'s `parseDuration` and `utils/xrai`'s `extractKeywords`, `calculateMagnitude` and `inferTopInterests` are not part of this model, and they appear as parameters too.
- `toLowerCase` folds only the ASCII letters A–Z; there is no Unicode case folding or normalisation. `\s` and `trim` use JavaScript's white-space and line-terminator characters.
- `parseInt(page)` is a parameter, `targetPage: Option<int>`, and a non-numeric page is `None`. `encodeURIComponent` is an uninterpreted function.
- `localStorage.getItem('useProxyThumbnail')` is a parameter.
- The language model: engine initialisation, the prompt and the chat request are outside the model. The outcome is a parameter: no engine, failed, or replied with optional content. A reply whose `choices[0]` is missing throws in the code, and that case is modelled as failed. The interests are a parameter.
- UI state (`setRecommendedVideos`, loading flags, the error text) is not modelled. `LoadRecommended` returns the videos shown, or `None` for the error screen.
- `/api/video` clears `related_videos`, `related` and `secondary_info.watch_next_feed` and returns the whole `info` object. Only the `watch_next_feed` it computes is modelled.
- `/api/channel`'s description, banner, subscriber count and video count are not modelled. They are plain `||`/`??` defaults like the name.
- The other handlers, `/api/search`, `/api/channel-shorts`, `/api/channel-playlists`, `/api/playlist`, `/api/fvideo` and `/api/stream`: only the missing-parameter check they share with the modelled handlers (`Api.Guard`, lines 30, 108, 133, 177, 245, 278, 315, 348; `/api/fvideo` has none) is modelled. Their bodies are not. `/api/search` defaults each missing list to `[]`. `/api/channel-shorts` and `/api/channel-playlists` take the first list present among several getters. `/api/playlist` answers 404 when `playlist.info?.id` is missing. `/api/stream` picks the best video and audio formats and answers 404 without a video format.
- Numbers in JavaScript are doubles. Counts and durations here are `nat`, so very large values behave mathematically, not as doubles.
- ProxyThumbnail.ProxyOfThumbnailUrl: proved for hosts that contain neither `/vi/` nor `.jpg`. Other hosts can make either regex match earlier.
- HomePage.ParseISODuration: a duration with a day part (`P1DT2H`) reads as 0, exactly as the code's regex does. The contract states only the no-`PT` case directly; the formatted round-trip is `HomePage.ParseFormatted`.
- ProxyThumbnail.GetDirectThumbnailUrl: the direct route passes `default` through as `default`, while the proxy route asks for `hq` when the file is `default.jpg` (`replace` empties it and `|| 'hq'` takes over). Both are modelled as written.

## Findings

| source | as written | input that shows it | evidently intended | confidence | as-written member | corrected member |
|---|---|---|---|---|---|---|
| utils/recommendation.ts:268-297 | `addVideoSafely` does not check whether the video is already in `finalFeed`, so a short ranked in both the popular and the personalized pool can be appended twice (the backfill is the only phase that skips used ids) | popular pool A, B, C, D on four channels, then personalized pool A: the feed is A, B, C, D, A | each short appears at most once in the feed | not executed | Cooldown.DuplicateAcrossPools | ShortsFeed.SelectShortsFresh |

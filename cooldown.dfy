/** `addVideoSafely` of `getXraiShorts`: the channel-cooldown selector that
    appends to `finalFeed` and rewrites `channelCooldown`. An appended
    channel's counter is set to 3 and every other positive counter drops by
    one, so a channel can come back only after 3 entries from other
    channels. */
module Cooldown {
  import opened Seqs
  import opened Videos
  import opened Ranking

  const CooldownSlots := 3
  const MinScore := -50.0

  datatype Selection = Selection(feed: seq<Video>, cooldown: map<string, int>)

  const Empty := Selection([], map[])

  /** `channelCooldown.get(c) || 0`. */
  function CooldownOf(cd: map<string, int>, c: string): int
  {
    if c in cd then cd[c] else 0
  }

  /** The counters after appending an entry of channel `c`. */
  function Rearm(cd: map<string, int>, c: string): map<string, int>
  {
    map k | k in cd.Keys + {c} :: if k == c then CooldownSlots else if cd[k] > 0 then cd[k] - 1 else cd[k]
  }

  predicate Admits(s: Selection, item: Scored)
  {
    item.score >= MinScore && CooldownOf(s.cooldown, item.video.channelId) == 0
  }

  /** One `addVideoSafely(item)` call, on values. */
  function Offer(s: Selection, item: Scored): Selection
  {
    if Admits(s, item) then
      Selection(s.feed + [item.video], Rearm(s.cooldown, item.video.channelId))
    else s
  }

  /** Any two entries of one channel have at least 3 entries between them. */
  ghost predicate Spaced(feed: seq<Video>)
  {
    forall i, j :: 0 <= i < j < |feed| && feed[i].channelId == feed[j].channelId ==> j - i > CooldownSlots
  }

  /** Counters stay in 0..3 and each entry's channel still has at least the
      cooldown that the entries after it have not yet worn off. */
  ghost predicate Valid(s: Selection)
  {
    && (forall k :: k in s.cooldown ==> 0 <= s.cooldown[k] <= CooldownSlots)
    && (forall i :: 0 <= i < |s.feed| ==>
          CooldownOf(s.cooldown, s.feed[i].channelId) >= CooldownSlots - (|s.feed| - 1 - i))
    && Spaced(s.feed)
  }

  lemma EmptyValid()
    ensures Valid(Empty)
  {
  }

  /** An item is appended exactly when its score is at least -50 and its
      channel is not cooling down; otherwise nothing changes. */
  lemma OfferAppends(s: Selection, item: Scored)
    ensures Offer(s, item).feed == s.feed + [item.video] <==> Admits(s, item)
    ensures !Admits(s, item) ==> Offer(s, item) == s
  {
    if !Admits(s, item) {
      assert |Offer(s, item).feed| == |s.feed|;
    }
  }

  /** `addVideoSafely` keeps the counters in range and the feed spaced. */
  lemma OfferValid(s: Selection, item: Scored)
    requires Valid(s)
    ensures Valid(Offer(s, item))
  {
    if Admits(s, item) {
      var c := item.video.channelId;
      var n := |s.feed|;
      var r := Offer(s, item);
      forall i | 0 <= i < |r.feed|
        ensures CooldownOf(r.cooldown, r.feed[i].channelId) >= CooldownSlots - (|r.feed| - 1 - i)
      {
        if i < n {
          assert r.feed[i] == s.feed[i];
        }
      }
      forall i, j | 0 <= i < j < |r.feed| && r.feed[i].channelId == r.feed[j].channelId
        ensures j - i > CooldownSlots
      {
        assert r.feed[i] == s.feed[i];
        if j < n {
          assert r.feed[j] == s.feed[j];
        }
      }
    }
  }

  /** `items.forEach(addVideoSafely)`. */
  function OfferAll(s: Selection, items: seq<Scored>): Selection
  {
    if items == [] then s else Offer(OfferAll(s, items[..|items| - 1]), items[|items| - 1])
  }

  lemma {:induction false} OfferAllValid(s: Selection, items: seq<Scored>)
    requires Valid(s)
    ensures Valid(OfferAll(s, items))
  {
    if items != [] {
      OfferAllValid(s, items[..|items| - 1]);
      OfferValid(OfferAll(s, items[..|items| - 1]), items[|items| - 1]);
    }
  }

  /** `items.forEach(addVideoSafely)` only appends: the old feed stays a
      prefix, at most one entry per item is added, and every added entry is
      an item's video scoring at least -50. */
  lemma {:induction false} OfferAllAppends(s: Selection, items: seq<Scored>)
    ensures var r := OfferAll(s, items);
      && |s.feed| <= |r.feed| <= |s.feed| + |items|
      && r.feed[..|s.feed|] == s.feed
      && forall k :: |s.feed| <= k < |r.feed| ==>
           exists x :: x in items && x.video == r.feed[k] && x.score >= MinScore
  {
    if items != [] {
      var init := items[..|items| - 1];
      var x := items[|items| - 1];
      var p := OfferAll(s, init);
      OfferAllAppends(s, init);
      var r := Offer(p, x);
      assert OfferAll(s, items) == r;
      forall k | |s.feed| <= k < |r.feed|
        ensures exists y :: y in items && y.video == r.feed[k] && y.score >= MinScore
      {
        if k < |p.feed| {
          assert r.feed[k] == p.feed[k];
          var y :| y in init && y.video == p.feed[k] && y.score >= MinScore;
          assert y in items;
        } else {
          assert r.feed[k] == x.video && x in items;
        }
      }
      assert r.feed[..|s.feed|] == p.feed[..|s.feed|];
      assert forall k :: |s.feed| <= k < |r.feed| ==>
           exists x :: x in items && x.video == r.feed[k] && x.score >= MinScore;
    }
  }

  /** A phase over items with distinct ids appends entries with distinct
      ids: an item is offered once, and only its own video can be added. */
  lemma {:induction false} OfferAllAddsDistinct(s: Selection, items: seq<Scored>)
    requires DistinctBy(items, ScoredId)
    ensures |s.feed| <= |OfferAll(s, items).feed|
    ensures DistinctIds(OfferAll(s, items).feed[|s.feed|..])
  {
    OfferAllAppends(s, items);
    if items != [] {
      var init := items[..|items| - 1];
      var x := items[|items| - 1];
      var p := OfferAll(s, init);
      assert DistinctBy(init, ScoredId) by {
        forall i, j | 0 <= i < j < |init| ensures ScoredId(init[i]) != ScoredId(init[j]) {
          assert init[i] == items[i] && init[j] == items[j];
        }
      }
      OfferAllAddsDistinct(s, init);
      OfferAllAppends(s, init);
      var r := Offer(p, x);
      if Admits(p, x) {
        var added := r.feed[|s.feed|..];
        assert added == p.feed[|s.feed|..] + [x.video];
        forall i, j | 0 <= i < j < |added| ensures added[i].id != added[j].id {
          if j < |added| - 1 {
            assert added[i] == p.feed[|s.feed|..][i] && added[j] == p.feed[|s.feed|..][j];
          } else {
            assert added[i] == p.feed[|s.feed| + i];
            var y :| y in init && y.video == p.feed[|s.feed| + i] && y.score >= MinScore;
            var m :| 0 <= m < |init| && init[m] == y;
            assert items[m] == y && ScoredId(items[m]) != ScoredId(items[|items| - 1]);
          }
        }
      }
    }
  }

  /** The corrected call: an item whose id is already in the feed is
      skipped, as the backfill phase already does. */
  function OfferFresh(s: Selection, item: Scored): Selection
  {
    if item.video.id in IdSet(s.feed) then s else Offer(s, item)
  }

  function OfferFreshAll(s: Selection, items: seq<Scored>): Selection
  {
    if items == [] then s else OfferFresh(OfferFreshAll(s, items[..|items| - 1]), items[|items| - 1])
  }

  /** The corrected selector keeps the cooldown invariant and never repeats
      an id. */
  lemma {:induction false} OfferFreshAllValid(s: Selection, items: seq<Scored>)
    requires Valid(s) && DistinctIds(s.feed)
    ensures Valid(OfferFreshAll(s, items)) && DistinctIds(OfferFreshAll(s, items).feed)
  {
    if items != [] {
      var p := OfferFreshAll(s, items[..|items| - 1]);
      var x := items[|items| - 1];
      OfferFreshAllValid(s, items[..|items| - 1]);
      if x.video.id !in IdSet(p.feed) {
        OfferValid(p, x);
        var f := Offer(p, x).feed;
        forall i, j | 0 <= i < j < |f| ensures f[i].id != f[j].id {
          assert f[i] == p.feed[i];
          if j < |p.feed| {
            assert f[j] == p.feed[j];
          } else {
            assert f[i] in p.feed;
          }
        }
      }
    }
  }

  /** The corrected selector only appends: it keeps the old feed as a
      prefix, appends at most one entry per item, and every appended entry
      is an item's video whose score is at least -50 and whose id was not
      in the feed before. */
  lemma {:induction false} OfferFreshAllAppends(s: Selection, items: seq<Scored>)
    ensures var r := OfferFreshAll(s, items);
      && |s.feed| <= |r.feed| <= |s.feed| + |items|
      && r.feed[..|s.feed|] == s.feed
      && forall k :: |s.feed| <= k < |r.feed| ==>
           r.feed[k].id !in IdSet(s.feed) && exists x :: x in items && x.video == r.feed[k] && x.score >= MinScore
  {
    if items != [] {
      var init := items[..|items| - 1];
      var x := items[|items| - 1];
      var p := OfferFreshAll(s, init);
      OfferFreshAllAppends(s, init);
      var r := OfferFresh(p, x);
      forall k | |s.feed| <= k < |r.feed|
        ensures r.feed[k].id !in IdSet(s.feed) && exists y :: y in items && y.video == r.feed[k] && y.score >= MinScore
      {
        if k < |p.feed| {
          assert r.feed[k] == p.feed[k];
          var y :| y in init && y.video == p.feed[k] && y.score >= MinScore;
          assert y in items;
        } else {
          assert r.feed[k] == x.video && x in items;
          assert x.video.id !in IdSet(p.feed);
          forall w | w in s.feed ensures w.id != x.video.id {
            var m :| 0 <= m < |s.feed| && s.feed[m] == w;
            assert p.feed[m] == w;
          }
        }
      }
    }
  }

  // A popular pool of four channels and a personalized pool that repeats the
  // first popular video.
  const VideoA := Video("A", "a", "ch1", "One", "", "0:30", "PT30S")
  const VideoB := Video("B", "b", "ch2", "Two", "", "0:30", "PT30S")
  const VideoC := Video("C", "c", "ch3", "Three", "", "0:30", "PT30S")
  const VideoD := Video("D", "d", "ch4", "Four", "", "0:30", "PT30S")
  const PopularPool := [Scored(VideoA, 10.0), Scored(VideoB, 9.0), Scored(VideoC, 8.0), Scored(VideoD, 7.0)]
  const PersonalizedPool := [Scored(VideoA, 6.0)]

  /** After the popular pool the first channel has cooled down again; the
      corrected selector takes the same four entries. */
  lemma PopularRun()
    ensures OfferAll(Empty, PopularPool).feed == [VideoA, VideoB, VideoC, VideoD]
    ensures CooldownOf(OfferAll(Empty, PopularPool).cooldown, "ch1") == 0
    ensures OfferFreshAll(Empty, PopularPool) == OfferAll(Empty, PopularPool)
  {
    var popular := PopularPool;
    var s1 := Offer(Empty, popular[0]);
    assert s1.feed == [VideoA] && s1.cooldown["ch1"] == 3;
    assert "ch2" !in s1.cooldown.Keys;
    var s2 := Offer(s1, popular[1]);
    assert s2.feed == [VideoA, VideoB] && s2.cooldown["ch1"] == 2;
    assert "ch3" !in s2.cooldown.Keys;
    var s3 := Offer(s2, popular[2]);
    assert s3.feed == [VideoA, VideoB, VideoC] && s3.cooldown["ch1"] == 1;
    assert "ch4" !in s3.cooldown.Keys;
    var s4 := Offer(s3, popular[3]);
    assert s4.feed == [VideoA, VideoB, VideoC, VideoD] && s4.cooldown["ch1"] == 0;
    assert popular[..1] == [popular[0]] && popular[..1][..0] == [];
    assert popular[..2][..1] == popular[..1] && popular[..3][..2] == popular[..2];
    assert popular[..4] == popular;
    assert OfferAll(Empty, popular[..1]) == s1;
    assert OfferAll(Empty, popular[..2]) == s2;
    assert OfferAll(Empty, popular[..3]) == s3;
    assert OfferAll(Empty, popular) == s4;
    FreshRun(s1, s2, s3);
  }

  lemma FreshRun(s1: Selection, s2: Selection, s3: Selection)
    requires s1 == Offer(Empty, PopularPool[0]) && s2 == Offer(s1, PopularPool[1]) && s3 == Offer(s2, PopularPool[2])
    requires s1.feed == [VideoA] && s2.feed == [VideoA, VideoB] && s3.feed == [VideoA, VideoB, VideoC]
    ensures OfferFreshAll(Empty, PopularPool) == Offer(s3, PopularPool[3])
  {
    var popular := PopularPool;
    assert popular[..1] == [popular[0]] && popular[..1][..0] == [];
    assert popular[..2][..1] == popular[..1] && popular[..3][..2] == popular[..2];
    assert popular[..4] == popular;
    assert "B" !in IdSet(s1.feed);
    assert "C" !in IdSet(s2.feed) by {
      forall v | v in s2.feed ensures v.id != "C" {}
    }
    assert "D" !in IdSet(s3.feed) by {
      forall v | v in s3.feed ensures v.id != "D" {}
    }
    assert OfferFreshAll(Empty, popular[..1]) == s1;
    assert OfferFreshAll(Empty, popular[..2]) == s2;
    assert OfferFreshAll(Empty, popular[..3]) == s3;
  }

  /** As written: the personalized repeat of the first popular video is
      appended a second time. */
  lemma DuplicateAcrossPools()
    ensures OfferAll(OfferAll(Empty, PopularPool), PersonalizedPool).feed == [VideoA, VideoB, VideoC, VideoD, VideoA]
    ensures !DistinctIds(OfferAll(OfferAll(Empty, PopularPool), PersonalizedPool).feed)
  {
    PopularRun();
    var s4 := OfferAll(Empty, PopularPool);
    assert PersonalizedPool[..0] == [];
    var s5 := Offer(s4, PersonalizedPool[0]);
    assert s5.feed == [VideoA, VideoB, VideoC, VideoD, VideoA];
    assert s5.feed[0].id == s5.feed[4].id;
  }

  /** Corrected: the repeat is skipped. */
  lemma FreshSkipsDuplicate()
    ensures OfferFreshAll(OfferFreshAll(Empty, PopularPool), PersonalizedPool).feed == [VideoA, VideoB, VideoC, VideoD]
  {
    PopularRun();
    var s4 := OfferFreshAll(Empty, PopularPool);
    assert PersonalizedPool[..0] == [];
    assert VideoA in s4.feed;
  }

  /** The selector state of `getXraiShorts`: the `finalFeed` array and the
      `channelCooldown` map its closure updates. */
  class Selector {
    var finalFeed: seq<Video>
    var channelCooldown: map<string, int>

    function State(): Selection
      reads this
    {
      Selection(finalFeed, channelCooldown)
    }

    constructor ()
      ensures State() == Empty
    {
      finalFeed := [];
      channelCooldown := map[];
    }

    /** `addVideoSafely(item)`, with the decrement loop over the map entries. */
    method AddVideoSafely(item: Scored)
      modifies this
      ensures State() == Offer(old(State()), item)
    {
      if item.score < MinScore {
        return;
      }
      var cId := item.video.channelId;
      var cooldown := if cId in channelCooldown then channelCooldown[cId] else 0;
      if cooldown == 0 {
        ghost var before := channelCooldown;
        finalFeed := finalFeed + [item.video];
        channelCooldown := channelCooldown[cId := CooldownSlots];
        var pending := channelCooldown.Keys;
        while pending != {}
          invariant finalFeed == old(finalFeed) + [item.video]
          invariant pending <= before.Keys + {cId}
          invariant channelCooldown.Keys == before.Keys + {cId}
          invariant channelCooldown[cId] == CooldownSlots
          invariant forall k :: k in before && k != cId ==>
            channelCooldown[k] == if k in pending || before[k] <= 0 then before[k] else before[k] - 1
          decreases pending
        {
          var key :| key in pending;
          var val := channelCooldown[key];
          if key != cId && val > 0 {
            channelCooldown := channelCooldown[key := val - 1];
          }
          pending := pending - {key};
        }
        assert channelCooldown == Rearm(before, cId);
        assert before == old(channelCooldown) && finalFeed == old(finalFeed) + [item.video];
        assert Admits(old(State()), item);
      }
    }

    /** `items.forEach(addVideoSafely)`. */
    method AddAll(items: seq<Scored>)
      modifies this
      ensures State() == OfferAll(old(State()), items)
    {
      var i := 0;
      while i < |items|
        invariant 0 <= i <= |items|
        invariant State() == OfferAll(old(State()), items[..i])
      {
        assert items[..i + 1][..i] == items[..i];
        AddVideoSafely(items[i]);
        i := i + 1;
      }
      assert items[..i] == items;
    }

    /** The corrected call: skip an id the feed already holds. */
    method AddFreshVideo(item: Scored)
      modifies this
      ensures State() == OfferFresh(old(State()), item)
    {
      var used := set v | v in finalFeed :: v.id;
      if item.video.id !in used {
        AddVideoSafely(item);
      }
    }

    /** `items.forEach(...)` over the corrected call. */
    method AddAllFresh(items: seq<Scored>)
      modifies this
      ensures State() == OfferFreshAll(old(State()), items)
    {
      var i := 0;
      while i < |items|
        invariant 0 <= i <= |items|
        invariant State() == OfferFreshAll(old(State()), items[..i])
      {
        assert items[..i + 1][..i] == items[..i];
        AddFreshVideo(items[i]);
        i := i + 1;
      }
      assert items[..i] == items;
    }
  }
}

/** The home page's feed (`pages/HomePage.tsx`): `parseISODuration` and the
    `loadRecommended` pipeline (capped sources, trending fallback, dedup by
    id through a `Map`, the longer-than-a-minute filter, shuffle). Its
    `shuffleArray` is the same swap loop as the recommender's and is
    `Shuffle.ShuffleArray` here. */
module HomePage {
  import opened Strings
  import opened Seqs
  import opened Videos
  import opened Shuffle

  // ---------------------------------------------------------------------
  // parseISODuration: /PT(?:(\d+)H)?(?:(\d+)M)?(?:(\d+)S)?/, unanchored

  /** One optional group `(?:(\d+)U)?` at the start of `s`: the captured
      number and what follows, or 0 and `s` itself when the group does not
      match. A shorter digit run cannot be followed by `U` either, so the
      greedy run decides. */
  datatype Step = Step(value: nat, rest: string)

  function Component(s: string, unit: char): (r: Step)
    ensures |r.rest| <= |s|
  {
    var n := DigitRun(s);
    if 0 < n < |s| && s[n] == unit then Step(DecimalValue(s[..n]), s[n + 1..]) else Step(0, s)
  }

  /** The first position at or after `from` where "PT" occurs: where the
      unanchored regular expression matches (all its groups are optional). */
  function FindPT(s: string, from: nat): (r: Option<nat>)
    ensures r.Some? ==> from <= r.value && OccursAt(s, "PT", r.value)
    ensures r.Some? ==> forall j :: from <= j < r.value ==> !OccursAt(s, "PT", j)
    ensures r.None? ==> forall j :: from <= j ==> !OccursAt(s, "PT", j)
    decreases |s| - from
  {
    if from + 2 > |s| then None
    else if s[from..from + 2] == "PT" then Some(from)
    else FindPT(s, from + 1)
  }

  /** `parseISODuration`: hours, minutes and seconds read after the first
      "PT", each counting 0 when its group is absent; no day or week
      component is read. */
  function ParseISODuration(iso: string): (seconds: nat)
    ensures (forall j :: !OccursAt(iso, "PT", j)) ==> seconds == 0
  {
    if iso == "" then 0
    else match FindPT(iso, 0)
      case None => 0
      case Some(i) => ParseTime(iso[i + 2..])
  }

  /** What follows "PT": the three optional groups in order. */
  function ParseTime(t: string): nat
  {
    var h := Component(t, 'H');
    var m := Component(h.rest, 'M');
    var s := Component(m.rest, 'S');
    h.value * 3600 + m.value * 60 + s.value
  }

  function OrZero(n: Option<nat>): nat
  {
    if n.Some? then n.value else 0
  }

  /** A designator group of a duration: its number then its letter, or
      nothing. */
  function Part(n: Option<nat>, unit: char): string
  {
    if n.Some? then NatToDecimal(n.value) + [unit] else ""
  }

  /** The time-only duration format: "PT", then hours, minutes and seconds,
      each optional (section 4.4.3.2 of ISO 8601:2004). */
  function FormatDuration(h: Option<nat>, m: Option<nat>, s: Option<nat>): string
  {
    "PT" + Part(h, 'H') + Part(m, 'M') + Part(s, 'S')
  }

  lemma ComponentPresent(n: nat, unit: char, rest: string)
    requires !IsAsciiDigit(unit)
    ensures Component(Part(Some(n), unit) + rest, unit) == Step(n, rest)
  {
    var d := NatToDecimal(n);
    assert Part(Some(n), unit) + rest == d + [unit] + rest;
    DigitRunStops(d, unit, rest);
    assert (d + [unit] + rest)[..|d|] == d;
    assert (d + [unit] + rest)[|d| + 1..] == rest;
    DecimalRoundTrip(n);
  }

  /** A group whose letter is not `unit` (or no group) leaves `unit`'s
      group unmatched. */
  lemma ComponentAbsent(n: Option<nat>, other: char, rest: string, unit: char)
    requires !IsAsciiDigit(other) && other != unit
    requires n.Some? || rest == ""
    ensures Component(Part(n, other) + rest, unit) == Step(0, Part(n, other) + rest)
  {
    if n.Some? {
      var d := NatToDecimal(n.value);
      assert Part(n, other) + rest == d + [other] + rest;
      DigitRunStops(d, other, rest);
    }
  }

  lemma SecondsGroup(s: Option<nat>)
    ensures Component(Part(s, 'S'), 'S') == Step(OrZero(s), "")
  {
    if s.Some? {
      ComponentPresent(s.value, 'S', "");
      assert Part(s, 'S') + "" == Part(s, 'S');
    }
  }

  lemma MinutesGroup(m: Option<nat>, s: Option<nat>)
    ensures Component(Part(m, 'M') + Part(s, 'S'), 'M') == Step(OrZero(m), Part(s, 'S'))
  {
    if m.Some? {
      ComponentPresent(m.value, 'M', Part(s, 'S'));
    } else if s.Some? {
      ComponentAbsent(s, 'S', "", 'M');
      assert Part(s, 'S') + "" == Part(s, 'S');
    }
  }

  lemma HoursGroup(h: Option<nat>, m: Option<nat>, s: Option<nat>)
    ensures Component(Part(h, 'H') + (Part(m, 'M') + Part(s, 'S')), 'H') == Step(OrZero(h), Part(m, 'M') + Part(s, 'S'))
  {
    if h.Some? {
      ComponentPresent(h.value, 'H', Part(m, 'M') + Part(s, 'S'));
    } else if m.Some? {
      ComponentAbsent(m, 'M', Part(s, 'S'), 'H');
    } else if s.Some? {
      ComponentAbsent(s, 'S', "", 'H');
      assert Part(s, 'S') + "" == Part(s, 'S');
    }
  }

  lemma ParseTimeFormatted(h: Option<nat>, m: Option<nat>, s: Option<nat>)
    ensures ParseTime(Part(h, 'H') + (Part(m, 'M') + Part(s, 'S'))) == OrZero(h) * 3600 + OrZero(m) * 60 + OrZero(s)
  {
    HoursGroup(h, m, s);
    MinutesGroup(m, s);
    SecondsGroup(s);
  }

  lemma ParseAfterPT(tail: string)
    ensures ParseISODuration("PT" + tail) == ParseTime(tail)
  {
    var iso := "PT" + tail;
    assert iso[0..2] == "PT";
    assert iso[2..] == tail;
  }

  /** Parsing a formatted duration gives its length in seconds. */
  lemma ParseFormatted(h: Option<nat>, m: Option<nat>, s: Option<nat>)
    ensures ParseISODuration(FormatDuration(h, m, s)) == OrZero(h) * 3600 + OrZero(m) * 60 + OrZero(s)
  {
    var tail := Part(h, 'H') + (Part(m, 'M') + Part(s, 'S'));
    assert FormatDuration(h, m, s) == "PT" + tail;
    ParseAfterPT(tail);
    ParseTimeFormatted(h, m, s);
  }

  lemma ParseExample()
    ensures ParseISODuration("PT1H2M3S") == 3723
  {
    assert NatToDecimal(1) == "1" && NatToDecimal(2) == "2" && NatToDecimal(3) == "3";
    assert FormatDuration(Some(1), Some(2), Some(3)) == "PT1H2M3S";
    ParseFormatted(Some(1), Some(2), Some(3));
  }

  /** A duration with a day component has no "PT" and reads as 0 s. */
  lemma ParseDaysIsZero()
    ensures ParseISODuration("P1DT2H") == 0
  {
    var iso := "P1DT2H";
    assert iso[4..6] != "PT" by { assert iso[4..6][0] == '2'; }
    assert iso[3..5] != "PT" by { assert iso[3..5][1] == '2'; }
    assert iso[2..4] != "PT" by { assert iso[2..4][0] == 'D'; }
    assert iso[1..3] != "PT" by { assert iso[1..3][0] == '1'; }
    assert iso[0..2] != "PT" by { assert iso[0..2][1] == '1'; }
    assert FindPT(iso, 4) == None;
    assert FindPT(iso, 2) == None;
    assert FindPT(iso, 0) == None;
  }

  // ---------------------------------------------------------------------
  // loadRecommended

  const MaxSearchTerms := 10
  const MaxChannels := 15
  const VideosPerChannel := 10
  const FallbackThreshold := 20
  const MinSeconds := 60

  /** A subscription's video, with the channel fields taken from the
      subscription itself. */
  function FromSubscription(v: Video, c: Channel): (r: Video)
    ensures r.channelName == c.name && r.channelAvatarUrl == c.avatarUrl && r.channelId == c.id
    ensures r.id == v.id && r.title == v.title && r.isoDuration == v.isoDuration
  {
    v.(channelName := c.name, channelAvatarUrl := c.avatarUrl, channelId := c.id)
  }

  /** The settled search results, in term order; a rejected search or one
      without a `videos` array gives nothing. */
  function SearchBatches(terms: seq<string>, search: string -> Option<seq<Video>>): seq<Video>
  {
    if terms == [] then []
    else SearchBatches(terms[..|terms| - 1], search) + ArrayOrEmpty(search(terms[|terms| - 1]))
  }

  /** The first ten videos of one subscription, relabelled. */
  function ChannelBatch(c: Channel, fetched: Option<seq<Video>>): (r: seq<Video>)
    ensures |r| <= VideosPerChannel
    ensures forall v :: v in r ==> exists w :: w in Take(ArrayOrEmpty(fetched), VideosPerChannel) && v == FromSubscription(w, c)
  {
    var vs := Take(ArrayOrEmpty(fetched), VideosPerChannel);
    seq(|vs|, i requires 0 <= i < |vs| => FromSubscription(vs[i], c))
  }

  function ChannelBatches(subs: seq<Channel>, videosOf: string -> Option<seq<Video>>): seq<Video>
  {
    if subs == [] then []
    else ChannelBatches(subs[..|subs| - 1], videosOf) + ChannelBatch(subs[|subs| - 1], videosOf(subs[|subs| - 1].id))
  }

  /** `personalizedVideos` before the fallback: the searches of the first
      ten history terms, then the batches of the first fifteen subscriptions. */
  function Personalized(history: seq<string>, subs: seq<Channel>,
                        search: string -> Option<seq<Video>>, videosOf: string -> Option<seq<Video>>): seq<Video>
  {
    SearchBatches(Take(history, MaxSearchTerms), search) + ChannelBatches(Take(subs, MaxChannels), videosOf)
  }

  lemma {:induction false} SearchBatchesFrom(terms: seq<string>, search: string -> Option<seq<Video>>, v: Video)
    requires v in SearchBatches(terms, search)
    ensures exists t :: t in terms && v in ArrayOrEmpty(search(t))
  {
    var init := terms[..|terms| - 1];
    if v in SearchBatches(init, search) {
      SearchBatchesFrom(init, search, v);
      var t :| t in init && v in ArrayOrEmpty(search(t));
      assert t in terms;
    } else {
      assert terms[|terms| - 1] in terms;
    }
  }

  lemma {:induction false} ChannelBatchesFrom(subs: seq<Channel>, videosOf: string -> Option<seq<Video>>, v: Video)
    requires v in ChannelBatches(subs, videosOf)
    ensures exists c, w :: c in subs && w in Take(ArrayOrEmpty(videosOf(c.id)), VideosPerChannel) && v == FromSubscription(w, c)
  {
    var init := subs[..|subs| - 1];
    var c := subs[|subs| - 1];
    if v in ChannelBatches(init, videosOf) {
      ChannelBatchesFrom(init, videosOf, v);
      var c', w :| c' in init && w in Take(ArrayOrEmpty(videosOf(c'.id)), VideosPerChannel) && v == FromSubscription(w, c');
      assert c' in subs;
    } else {
      assert v in ChannelBatch(c, videosOf(c.id));
      assert c in subs;
    }
  }

  lemma {:induction false} ChannelBatchesSize(subs: seq<Channel>, videosOf: string -> Option<seq<Video>>)
    ensures |ChannelBatches(subs, videosOf)| <= VideosPerChannel * |subs|
  {
    if subs != [] {
      ChannelBatchesSize(subs[..|subs| - 1], videosOf);
    }
  }

  /** Only the first ten terms are searched and only the first fifteen
      subscriptions are read, at most ten videos each, relabelled with the
      subscription's channel. */
  lemma PersonalizedSources(history: seq<string>, subs: seq<Channel>,
                            search: string -> Option<seq<Video>>, videosOf: string -> Option<seq<Video>>)
    ensures forall v :: v in Personalized(history, subs, search, videosOf) ==>
      || (exists t :: t in Take(history, MaxSearchTerms) && v in ArrayOrEmpty(search(t)))
      || (exists c, w :: c in Take(subs, MaxChannels) && w in Take(ArrayOrEmpty(videosOf(c.id)), VideosPerChannel)
                        && v == FromSubscription(w, c))
    ensures |ChannelBatches(Take(subs, MaxChannels), videosOf)| <= VideosPerChannel * MaxChannels
  {
    forall v | v in Personalized(history, subs, search, videosOf)
      ensures || (exists t :: t in Take(history, MaxSearchTerms) && v in ArrayOrEmpty(search(t)))
              || (exists c, w :: c in Take(subs, MaxChannels) && w in Take(ArrayOrEmpty(videosOf(c.id)), VideosPerChannel)
                                && v == FromSubscription(w, c))
    {
      if v in SearchBatches(Take(history, MaxSearchTerms), search) {
        SearchBatchesFrom(Take(history, MaxSearchTerms), search, v);
      } else {
        ChannelBatchesFrom(Take(subs, MaxChannels), videosOf, v);
      }
    }
    ChannelBatchesSize(Take(subs, MaxChannels), videosOf);
  }

  /** The trending fallback: appended only below twenty personalized videos. */
  function WithFallback(personalized: seq<Video>, trending: seq<Video>): (r: seq<Video>)
    ensures |personalized| >= FallbackThreshold ==> r == personalized
    ensures |personalized| < FallbackThreshold ==> r == personalized + trending
  {
    if |personalized| < FallbackThreshold then personalized + trending else personalized
  }

  /** A JavaScript `Map` from ids to videos: its keys in insertion order
      and the value stored under each. */
  datatype IdMap = IdMap(keys: seq<string>, values: map<string, Video>)

  /** `map.set(v.id, v)`: a new key goes to the end, an existing key keeps
      its place and takes the new value. */
  function SetEntry(m: IdMap, v: Video): IdMap
  {
    if v.id in m.values then m.(values := m.values[v.id := v])
    else IdMap(m.keys + [v.id], m.values[v.id := v])
  }

  /** The position of the first entry of `s` with id `id`, or `|s|` when
      there is none. */
  function FirstIndex(s: seq<Video>, id: string): (r: nat)
    ensures r <= |s|
    ensures r < |s| ==> s[r].id == id
    ensures forall q :: 0 <= q < r ==> s[q].id != id
  {
    if s == [] then 0
    else if s[0].id == id then 0
    else 1 + FirstIndex(s[1..], id)
  }

  /** Appending an entry leaves the first position of every id of the old
      list where it was, and puts a new id at the end. */
  lemma FirstIndexSnoc(init: seq<Video>, v: Video, id: string)
    ensures FirstIndex(init, id) < |init| ==> FirstIndex(init + [v], id) == FirstIndex(init, id)
    ensures FirstIndex(init, id) == |init| && v.id == id ==> FirstIndex(init + [v], id) == |init|
  {
    var s := init + [v];
    var r1 := FirstIndex(s, id);
    var r2 := FirstIndex(init, id);
    if r2 < |init| {
      assert s[r2] == init[r2];
    } else if v.id == id {
      assert s[|init|] == v;
    }
  }

  /** `new Map(list.map(v => [v.id, v]))`. */
  function BuildMap(s: seq<Video>): (m: IdMap)
    ensures forall x :: x in m.keys <==> x in m.values
    ensures forall i, j :: 0 <= i < j < |m.keys| ==> m.keys[i] != m.keys[j]
    ensures forall id :: id in m.values ==> m.values[id].id == id && m.values[id] in s
    ensures forall i :: 0 <= i < |s| ==> s[i].id in m.values
  {
    if s == [] then IdMap([], map[])
    else
      var init := s[..|s| - 1];
      var m := BuildMap(init);
      assert forall i :: 0 <= i < |init| ==> s[i] == init[i];
      SetEntry(m, s[|s| - 1])
  }

  /** Every key occurs in `s`, and a key listed earlier first occurs
      earlier. */
  ghost predicate KeysInFirstOrder(s: seq<Video>, keys: seq<string>)
  {
    && (forall i :: 0 <= i < |keys| ==> FirstIndex(s, keys[i]) < |s|)
    && (forall i, j :: 0 <= i < j < |keys| ==> FirstIndex(s, keys[i]) < FirstIndex(s, keys[j]))
  }

  /** The keys of the `Map` are in first-insertion order. */
  lemma {:induction false} BuildMapOrder(s: seq<Video>)
    ensures KeysInFirstOrder(s, BuildMap(s).keys)
  {
    if s != [] {
      var init := s[..|s| - 1];
      var v := s[|s| - 1];
      var m := BuildMap(init);
      assert s == init + [v];
      assert BuildMap(s) == SetEntry(m, v);
      BuildMapOrder(init);
      FirstIndexAfterSet(init, v, m);
    }
  }

  /** The ordering step of `BuildMap`: the keys of `init`'s map keep their
      first positions, and a new id comes after all of them. */
  lemma FirstIndexAfterSet(init: seq<Video>, v: Video, m: IdMap)
    requires forall x :: x in m.keys <==> x in m.values
    requires forall i :: 0 <= i < |init| ==> init[i].id in m.values
    requires KeysInFirstOrder(init, m.keys)
    ensures KeysInFirstOrder(init + [v], SetEntry(m, v).keys)
  {
    var s := init + [v];
    forall i | 0 <= i < |m.keys| ensures FirstIndex(s, m.keys[i]) == FirstIndex(init, m.keys[i]) {
      FirstIndexSnoc(init, v, m.keys[i]);
    }
    if v.id !in m.values {
      FirstIndexSnoc(init, v, v.id);
      var r := SetEntry(m, v);
      assert r.keys == m.keys + [v.id];
      assert FirstIndex(init, v.id) == |init|;
    }
  }

  /** `Array.from(map.values())`. */
  function MapDedup(s: seq<Video>): seq<Video>
  {
    var m := BuildMap(s);
    seq(|m.keys|, i requires 0 <= i < |m.keys| => m.values[m.keys[i]])
  }

  /** The deduplicated list holds each id of the input once, and only
      entries of the input. */
  lemma MapDedupSpec(s: seq<Video>)
    ensures DistinctIds(MapDedup(s))
    ensures IdSet(MapDedup(s)) == IdSet(s)
    ensures forall v :: v in MapDedup(s) ==> v in s
  {
    var m := BuildMap(s);
    var r := MapDedup(s);
    assert forall i :: 0 <= i < |r| ==> r[i].id == m.keys[i];
    forall x | x in IdSet(s) ensures x in IdSet(r) {
      var v :| v in s && v.id == x;
      var q :| 0 <= q < |s| && s[q] == v;
      assert x in m.keys;
      var i :| 0 <= i < |m.keys| && m.keys[i] == x;
      assert r[i].id == x;
    }
  }

  lemma SetEntryOther(m: IdMap, v: Video, id: string)
    requires id in m.values && id != v.id
    ensures id in SetEntry(m, v).values && SetEntry(m, v).values[id] == m.values[id]
  {
  }

  /** No entry after position `j` shares its id. */
  predicate LastOfId(s: seq<Video>, j: int)
    requires 0 <= j < |s|
  {
    forall k :: j < k < |s| ==> s[k].id != s[j].id
  }

  lemma LastOfIdSnoc(init: seq<Video>, x: Video, j: nat)
    requires j < |init| && LastOfId(init, j) && x.id != init[j].id
    ensures LastOfId(init + [x], j)
  {
    var s := init + [x];
    forall k | j < k < |s| ensures s[k].id != s[j].id {
      if k < |init| {
        assert s[k] == init[k];
      }
    }
  }

  /** The value kept under an id is its last occurrence. */
  lemma {:induction false} MapValuesLast(s: seq<Video>, q: nat)
    requires q < |s|
    ensures exists j :: q <= j < |s| && s[j] == BuildMap(s).values[s[q].id] && LastOfId(s, j)
  {
    var n := |s| - 1;
    var id := s[q].id;
    var m := BuildMap(s);
    if s[n].id == id {
      assert m.values[id] == s[n];
      assert LastOfId(s, n);
    } else {
      var init := s[..n];
      assert s == init + [s[n]];
      assert init[q] == s[q];
      MapValuesLast(init, q);
      var mi := BuildMap(init);
      var j :| q <= j < |init| && init[j] == mi.values[id] && LastOfId(init, j);
      assert s[j] == init[j];
      assert m == SetEntry(mi, s[n]);
      SetEntryOther(mi, s[n], id);
      LastOfIdSnoc(init, s[n], j);
    }
  }

  /** The `Map` built entry by entry. */
  method DedupeById(list: seq<Video>) returns (unique: seq<Video>)
    ensures unique == MapDedup(list)
  {
    var keys: seq<string> := [];
    var values: map<string, Video> := map[];
    for i := 0 to |list|
      invariant IdMap(keys, values) == BuildMap(list[..i])
    {
      var v := list[i];
      assert list[..i + 1][..i] == list[..i];
      if v.id !in values {
        keys := keys + [v.id];
      }
      values := values[v.id := v];
    }
    assert list[..|list|] == list;
    unique := seq(|keys|, i requires 0 <= i < |keys| => values[keys[i]]);
  }

  predicate IsLong(v: Video)
  {
    ParseISODuration(v.isoDuration) > MinSeconds
  }

  /** `filter(v => parseISODuration(v.isoDuration) > 60)`. */
  function LongOnly(s: seq<Video>): (r: seq<Video>)
    ensures forall v :: v in r <==> v in s && IsLong(v)
    ensures IsSubsequence(r, s)
  {
    if s == [] then []
    else
      var init := s[..|s| - 1];
      var last := s[|s| - 1];
      var r := LongOnly(init);
      assert s == init + [last];
      SubsequenceExtend(r, init, last);
      if IsLong(last) then SubsequenceAppendBoth(r, init, last); r + [last] else r
  }

  lemma {:induction false} LongOnlyDistinct(s: seq<Video>)
    requires DistinctIds(s)
    ensures DistinctIds(LongOnly(s))
  {
    if s != [] {
      var init := s[..|s| - 1];
      var last := s[|s| - 1];
      LongOnlyDistinct(init);
      var r := LongOnly(init);
      if IsLong(last) {
        forall i | 0 <= i < |r| ensures r[i].id != last.id {
          assert r[i] in init;
          var q :| 0 <= q < |init| && init[q] == r[i];
          assert s[q] == r[i];
        }
      }
    }
  }

  /** `loadRecommended`: the settled sources, the trending fallback (whose
      failure sends the page to its error state, `None`), the dedup by id,
      the duration filter and the shuffle. */
  method LoadRecommended(history: seq<string>, subs: seq<Channel>,
                         search: string -> Option<seq<Video>>, videosOf: string -> Option<seq<Video>>,
                         trending: Option<seq<Video>>, rand: nat -> nat)
    returns (shown: Option<seq<Video>>)
    ensures shown.None? <==> |Personalized(history, subs, search, videosOf)| < FallbackThreshold && trending.None?
    ensures shown.Some? ==>
      multiset(shown.value) == multiset(LongOnly(MapDedup(WithFallback(Personalized(history, subs, search, videosOf), ArrayOrEmpty(trending)))))
    ensures shown.Some? ==> DistinctIds(shown.value)
    ensures shown.Some? ==> forall v :: v in shown.value ==>
      && IsLong(v)
      && (|| v in Personalized(history, subs, search, videosOf)
          || (|Personalized(history, subs, search, videosOf)| < FallbackThreshold && v in trending.value))
  {
    var personalized := Personalized(history, subs, search, videosOf);
    ghost var sources := personalized;
    if |personalized| < FallbackThreshold {
      if trending.None? {
        return None;
      }
      personalized := personalized + trending.value;
    }
    assert personalized == WithFallback(sources, ArrayOrEmpty(trending));
    var unique := DedupeById(personalized);
    MapDedupSpec(personalized);
    var regular := LongOnly(unique);
    LongOnlyDistinct(unique);
    var shuffled := ShuffleArray(regular, rand);
    DistinctIdsAsMultiset(regular);
    DistinctIdsAsMultiset(shuffled);
    forall v | v in shuffled ensures v in regular {
      assert v in multiset(shuffled);
    }
    shown := Some(shuffled);
  }
}

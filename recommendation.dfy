/** The helpers of utils/recommendation.ts that both feed assemblers use:
    `cleanTitleForSearch`, `isShortVideo`, the NG-keyword match, and the
    seen-set filter `filterAndDedupe` of the home feed. */
module Recommendation {
  import opened Strings
  import opened Seqs
  import opened Videos

  // ---------------------------------------------------------------------
  // cleanTitleForSearch

  predicate IsLineTerminator(c: char)
  {
    c == '\n' || c == '\r' || c == '\U{2028}' || c == '\U{2029}'
  }

  /** The closing bracket for the three bracket pairs the title cleaner
      removes: 【】, [] and (). */
  function CloserOf(c: char): (r: char)
  {
    if c == '【' then '】' else if c == '[' then ']' else if c == '(' then ')' else c
  }

  predicate IsOpener(c: char)
  {
    c == '【' || c == '[' || c == '('
  }

  /** Where the lazy `.*?` followed by `close` stops: the first `close` in
      `t`, provided no line terminator (which `.` does not match) comes first. */
  function FindClose(t: string, close: char): (r: int)
    ensures -1 <= r < |t|
    ensures r >= 0 ==> t[r] == close && forall k :: 0 <= k < r ==> t[k] != close && !IsLineTerminator(t[k])
    ensures r < 0 ==> forall k :: 0 <= k < |t| && t[k] == close ==> exists m :: 0 <= m < k && IsLineTerminator(t[m])
  {
    if t == [] then -1
    else if t[0] == close then 0
    else if IsLineTerminator(t[0]) then -1
    else
      var r := FindClose(t[1..], close);
      if r < 0 then
        assert forall k :: 1 <= k < |t| && t[k] == close ==> t[1..][k - 1] == close;
        -1
      else r + 1
  }

  /** `title.replace(/【.*?】|\[.*?\]|\(.*?\)/g, '')`. */
  function StripBrackets(s: string): (r: string)
    ensures |r| <= |s|
    ensures (forall k :: 0 <= k < |s| ==> !IsOpener(s[k])) ==> r == s
    decreases |s|
  {
    if s == [] then []
    else if IsOpener(s[0]) && FindClose(s[1..], CloserOf(s[0])) >= 0 then
      StripBrackets(s[1..][FindClose(s[1..], CloserOf(s[0])) + 1..])
    else
      [s[0]] + StripBrackets(s[1..])
  }

  /** `cleanTitleForSearch`: bracket groups removed, trimmed, then the first
      four of its space-separated pieces joined back with spaces. */
  function CleanTitleForSearch(title: string): string
  {
    Join(Take(Split(Trim(StripBrackets(title)), ' '), 4), ' ')
  }

  /** The cleaned title has at most four space-separated words (at most three
      spaces), is a prefix of the trimmed bracket-free title, and is all of it
      when that has at most four words. */
  lemma CleanTitleWords(title: string)
    ensures Count(CleanTitleForSearch(title), ' ') <= 3
    ensures |Split(CleanTitleForSearch(title), ' ')| <= 4
    ensures IsPrefix(CleanTitleForSearch(title), Trim(StripBrackets(title)))
    ensures Count(Trim(StripBrackets(title)), ' ') <= 3 ==> CleanTitleForSearch(title) == Trim(StripBrackets(title))
  {
    var t := Trim(StripBrackets(title));
    var parts := Split(t, ' ');
    var kept := Take(parts, 4);
    SplitPartsHaveNoSeparator(t, ' ');
    assert forall k :: 0 <= k < |kept| ==> ' ' !in kept[k] by {
      forall k | 0 <= k < |kept| ensures ' ' !in kept[k] {
        assert kept[k] == parts[k];
      }
    }
    JoinCount(kept, ' ');
    SplitPartsHaveNoSeparator(Join(kept, ' '), ' ');
    JoinPrefix(parts, |kept|, ' ');
    assert parts[..|kept|] == kept;
    JoinSplit(t, ' ');
  }

  // ---------------------------------------------------------------------
  // isShortVideo

  /** `isShortVideo`: `parseDuration(isoDuration, duration)` seconds in
      (0, 60], or "#shorts" in the lower-cased title. `parseDuration` lives
      outside this model and is the parameter `parse`. */
  predicate IsShortVideo(v: Video, parse: (string, string) -> int)
  {
    var seconds := parse(v.isoDuration, v.duration);
    (seconds > 0 && seconds <= 60) || Contains(Lower(v.title), "#shorts")
  }

  /** The short-form entries of `items` (`want`) or the long-form ones, in order. */
  function ShortsOf(items: seq<Video>, parse: (string, string) -> int, want: bool): (r: seq<Video>)
    ensures |r| <= |items|
  {
    if items == [] then []
    else
      var init := ShortsOf(items[..|items| - 1], parse, want);
      var v := items[|items| - 1];
      if IsShortVideo(v, parse) == want then init + [v] else init
  }

  lemma ShortsOfMembers(items: seq<Video>, parse: (string, string) -> int, want: bool)
    ensures forall v :: v in ShortsOf(items, parse, want) <==> v in items && IsShortVideo(v, parse) == want
    ensures IsSubsequence(ShortsOf(items, parse, want), items)
  {
    ShortsOfIn(items, parse, want);
    ShortsOfInOrder(items, parse, want);
  }

  /** An entry is kept exactly when it is in the input and of the wanted form. */
  lemma {:induction false} ShortsOfIn(items: seq<Video>, parse: (string, string) -> int, want: bool)
    ensures forall v :: v in ShortsOf(items, parse, want) <==> v in items && IsShortVideo(v, parse) == want
  {
    if items != [] {
      var init := items[..|items| - 1];
      var v := items[|items| - 1];
      var kept := ShortsOf(init, parse, want);
      ShortsOfIn(init, parse, want);
      assert items == init + [v];
      forall w
        ensures w in ShortsOf(items, parse, want) <==> w in items && IsShortVideo(w, parse) == want
      {
        assert w in init + [v] <==> w in init || w == v;
        assert w in kept + [v] <==> w in kept || w == v;
      }
    }
  }

  /** The kept entries keep their input order. */
  lemma {:induction false} ShortsOfInOrder(items: seq<Video>, parse: (string, string) -> int, want: bool)
    ensures IsSubsequence(ShortsOf(items, parse, want), items)
  {
    if items != [] {
      var init := items[..|items| - 1];
      var v := items[|items| - 1];
      ShortsOfInOrder(init, parse, want);
      assert items == init + [v];
      if IsShortVideo(v, parse) == want {
        SubsequenceAppendBoth(ShortsOf(init, parse, want), init, v);
      } else {
        SubsequenceExtend(ShortsOf(init, parse, want), init, v);
      }
    }
  }

  /** The two halves of the split partition the input. */
  lemma {:induction false} ShortsOfPartition(items: seq<Video>, parse: (string, string) -> int)
    ensures multiset(ShortsOf(items, parse, false)) + multiset(ShortsOf(items, parse, true)) == multiset(items)
  {
    if items != [] {
      var init := items[..|items| - 1];
      ShortsOfPartition(init, parse);
      assert items == init + [items[|items| - 1]];
    }
  }

  /** The `for (const v of ...)` loop that pushes each item onto the shorts
      list or the long-form list. */
  method SplitShorts(items: seq<Video>, parse: (string, string) -> int) returns (long: seq<Video>, shorts: seq<Video>)
    ensures long == ShortsOf(items, parse, false) && shorts == ShortsOf(items, parse, true)
    ensures multiset(long) + multiset(shorts) == multiset(items)
    ensures forall v :: v in shorts <==> v in items && IsShortVideo(v, parse)
    ensures forall v :: v in long <==> v in items && !IsShortVideo(v, parse)
  {
    long, shorts := [], [];
    var i := 0;
    while i < |items|
      invariant 0 <= i <= |items|
      invariant long == ShortsOf(items[..i], parse, false)
      invariant shorts == ShortsOf(items[..i], parse, true)
    {
      assert items[..i + 1][..i] == items[..i];
      if IsShortVideo(items[i], parse) {
        shorts := shorts + [items[i]];
      } else {
        long := long + [items[i]];
      }
      i := i + 1;
    }
    assert items[..i] == items;
    ShortsOfPartition(items, parse);
    ShortsOfMembers(items, parse, true);
    ShortsOfMembers(items, parse, false);
  }

  // ---------------------------------------------------------------------
  // exclusion rules

  /** `` `${title} ${channelName}`.toLowerCase() `` */
  function FullText(v: Video): string
  {
    Lower(v.title + " " + v.channelName)
  }

  /** `ngKeywords.some(ng => fullText.includes(ng.toLowerCase()))` */
  predicate MatchesNgKeyword(v: Video, ngKeywords: seq<string>)
  {
    exists k :: 0 <= k < |ngKeywords| && Contains(FullText(v), Lower(ngKeywords[k]))
  }

  /** Sum of the negative weights of the given keywords; a keyword without a
      weight adds 0. Repeated keywords count each time. */
  function NegativeScore(keywords: seq<string>, negative: map<string, real>): real
  {
    if keywords == [] then 0.0
    else NegativeScore(keywords[..|keywords| - 1], negative)
         + (if keywords[|keywords| - 1] in negative then negative[keywords[|keywords| - 1]] else 0.0)
  }

  /** The caller's exclusion state. `keywords` is `extractKeywords`, which
      lives outside this model. */
  datatype Exclusions = Exclusions(
    ngKeywords: seq<string>,
    ngChannelIds: set<string>,
    negative: map<string, real>,
    keywords: string -> seq<string>)

  /** The checks of `filterAndDedupe` other than the seen-set one. */
  predicate Admissible(v: Video, ex: Exclusions)
  {
    && !MatchesNgKeyword(v, ex.ngKeywords)
    && v.channelId !in ex.ngChannelIds
    && NegativeScore(ex.keywords(v.title) + ex.keywords(v.channelName), ex.negative) <= 2.0
  }

  // ---------------------------------------------------------------------
  // filterAndDedupe

  datatype Filtered = Filtered(kept: seq<Video>, seen: set<string>)

  /** What `filterAndDedupe(videos)` keeps and what the shared seen set holds
      afterwards, starting from `seen`. */
  function Dedupe(videos: seq<Video>, seen: set<string>, ex: Exclusions): Filtered
  {
    if videos == [] then Filtered([], seen)
    else
      var r := Dedupe(videos[..|videos| - 1], seen, ex);
      var v := videos[|videos| - 1];
      if v.id !in r.seen && Admissible(v, ex) then Filtered(r.kept + [v], r.seen + {v.id}) else r
  }

  /** Every survivor passes every exclusion rule and was not seen before;
      survivors have distinct ids and are exactly what the filter adds to the
      seen set. */
  lemma DedupeSound(videos: seq<Video>, seen: set<string>, ex: Exclusions)
    ensures var r := Dedupe(videos, seen, ex);
      && (forall v :: v in r.kept ==> Admissible(v, ex) && v.id !in seen)
      && DistinctIds(r.kept)
      && r.seen == seen + IdSet(r.kept)
  {
    DedupeAdmissible(videos, seen, ex);
    DedupeDistinct(videos, seen, ex);
  }

  /** Every survivor passes every exclusion rule and was not seen before. */
  lemma {:induction false} DedupeAdmissible(videos: seq<Video>, seen: set<string>, ex: Exclusions)
    ensures var r := Dedupe(videos, seen, ex);
      && (forall v :: v in r.kept ==> Admissible(v, ex) && v.id !in seen)
      && seen <= r.seen
  {
    if videos != [] {
      var init := videos[..|videos| - 1];
      var v := videos[|videos| - 1];
      var r := Dedupe(init, seen, ex);
      DedupeAdmissible(init, seen, ex);
      if v.id !in r.seen && Admissible(v, ex) {
        forall w | w in r.kept + [v] ensures Admissible(w, ex) && w.id !in seen {
          assert w in r.kept || w == v;
        }
      }
    }
  }

  /** Survivors have distinct ids and are exactly what the filter adds to the
      seen set. */
  lemma {:induction false} DedupeDistinct(videos: seq<Video>, seen: set<string>, ex: Exclusions)
    ensures var r := Dedupe(videos, seen, ex);
      && DistinctIds(r.kept)
      && r.seen == seen + IdSet(r.kept)
  {
    if videos != [] {
      var init := videos[..|videos| - 1];
      var v := videos[|videos| - 1];
      var r := Dedupe(init, seen, ex);
      DedupeDistinct(init, seen, ex);
      if v.id !in r.seen && Admissible(v, ex) {
        var kept := r.kept + [v];
        assert IdSet(kept) == IdSet(r.kept) + {v.id};
        assert forall k :: 0 <= k < |r.kept| ==> r.kept[k].id != v.id by {
          forall k | 0 <= k < |r.kept| ensures r.kept[k].id != v.id {
            assert r.kept[k].id in IdSet(r.kept);
          }
        }
        assert DistinctIds(kept) by {
          forall i, j | 0 <= i < j < |kept| ensures kept[i].id != kept[j].id {
            if j < |r.kept| {
              assert kept[i] == r.kept[i] && kept[j] == r.kept[j];
            } else {
              assert kept[i] == r.kept[i];
            }
          }
        }
      }
    }
  }

  /** Survivors keep their input order. */
  lemma {:induction false} DedupeOrder(videos: seq<Video>, seen: set<string>, ex: Exclusions)
    ensures IsSubsequence(Dedupe(videos, seen, ex).kept, videos)
  {
    if videos != [] {
      var init := videos[..|videos| - 1];
      var v := videos[|videos| - 1];
      var r := Dedupe(init, seen, ex);
      DedupeOrder(init, seen, ex);
      assert videos == init + [v];
      if v.id !in r.seen && Admissible(v, ex) {
        SubsequenceAppendBoth(r.kept, init, v);
      } else {
        SubsequenceExtend(r.kept, init, v);
      }
    }
  }

  /** Nothing admissible slips through unrecorded: after the filter, every
      input item is either excluded by a rule or has its id in the seen set. */
  lemma {:induction false} DedupeComplete(videos: seq<Video>, seen: set<string>, ex: Exclusions)
    ensures var r := Dedupe(videos, seen, ex);
      && seen <= r.seen
      && forall v :: v in videos ==> v.id in r.seen || !Admissible(v, ex)
  {
    if videos != [] {
      var init := videos[..|videos| - 1];
      DedupeComplete(init, seen, ex);
      assert videos == init + [videos[|videos| - 1]];
    }
  }

  /** `filterAndDedupe`: the `filter` callback adds each survivor's id to the
      closure's seen set as it accepts it. */
  method FilterAndDedupe(videos: seq<Video>, seen: set<string>, ex: Exclusions)
    returns (kept: seq<Video>, seenAfter: set<string>)
    ensures Filtered(kept, seenAfter) == Dedupe(videos, seen, ex)
    ensures forall v :: v in kept ==> Admissible(v, ex) && v.id !in seen
    ensures DistinctIds(kept) && IsSubsequence(kept, videos)
    ensures seenAfter == seen + IdSet(kept)
    ensures forall v :: v in videos ==> v.id in seenAfter || !Admissible(v, ex)
  {
    kept, seenAfter := [], seen;
    var i := 0;
    while i < |videos|
      invariant 0 <= i <= |videos|
      invariant Filtered(kept, seenAfter) == Dedupe(videos[..i], seen, ex)
    {
      var v := videos[i];
      assert videos[..i + 1][..i] == videos[..i];
      if v.id in seenAfter {
      } else if MatchesNgKeyword(v, ex.ngKeywords) {
      } else if v.channelId in ex.ngChannelIds {
      } else {
        var score := NegativeScore(ex.keywords(v.title) + ex.keywords(v.channelName), ex.negative);
        if score <= 2.0 {
          seenAfter := seenAfter + {v.id};
          kept := kept + [v];
        }
      }
      i := i + 1;
    }
    assert videos[..i] == videos;
    DedupeSound(videos, seen, ex);
    DedupeOrder(videos, seen, ex);
    DedupeComplete(videos, seen, ex);
  }
}

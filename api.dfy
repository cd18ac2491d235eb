/** The serverless API (`api/index.js`): the related-video top-up of
    `/api/video`, the comment walk of `/api/comments`, the page walk and
    avatar normalisation of `/api/channel`, and the missing-parameter check
    every handler makes.

    The upstream client is abstract. An awaited call either throws,
    resolves to `null`/`undefined`, or resolves to a value (`Fetch`), and
    `next(k)` is the outcome of the k-th continuation call of a walk. A
    `null` continuation makes the handler's next property access throw a
    `TypeError`, which the handler's `catch` answers like any other throw. */
module Api {
  import opened Strings
  import opened Seqs

  datatype Fetch<T> = Threw | Null | Got(value: T)

  /** 200 with a body, 400 for a missing parameter, 500 for a throw. */
  datatype Response<T> = Ok(body: T) | BadRequest | ServerError

  /** A query parameter is truthy: present and not the empty string. */
  predicate Present(param: Option<string>)
  {
    param.Some? && param.value != ""
  }

  /** The head every handler shares: `createYoutube()` runs first (a throw
      there is a 500), then a falsy required parameter is a 400 and the
      handler stops. */
  function Guard(clientOk: bool, param: Option<string>): (r: Response<string>)
    ensures r.ServerError? <==> !clientOk
    ensures r.BadRequest? <==> clientOk && !Present(param)
    ensures r.Ok? <==> clientOk && Present(param)
    ensures r.Ok? ==> r.body == param.value && r.body != ""
  {
    if !clientOk then ServerError
    else if !Present(param) then BadRequest
    else Ok(param.value)
  }

  // ---------------------------------------------------------------------
  // /api/video: the related-video top-up

  /** An entry of a watch-next feed; an empty `id` is a falsy one. */
  datatype Item = Item(id: string, title: string)

  /** What the top-up reads from a watch page or a continuation of it:
      `watch_next_feed` and `related_videos` (`None` when not an array) and
      whether it has a `getWatchNextContinuation` method. */
  datatype WatchFeed = WatchFeed(watchNext: Option<seq<Item>>, related: Option<seq<Item>>, hasContinuation: bool)

  const MaxRelated := 50
  const MaxRelatedContinuations := 2

  /** `allCandidates`: the array-valued feeds of the watch page, in order. */
  function Candidates(info: WatchFeed): seq<Item>
  {
    ArrayOrEmpty(info.watchNext) + ArrayOrEmpty(info.related)
  }

  function TruthyIds(s: seq<Item>): set<string>
  {
    set x | x in s && x.id != "" :: x.id
  }

  /** `x` is in the `watch_next_feed` array of the k-th continuation. */
  predicate FetchedItem(next: nat -> Fetch<WatchFeed>, k: nat, x: Item)
  {
    next(k).Got? && x in ArrayOrEmpty(next(k).value.watchNext)
  }

  /** `x` came from one of the first `calls` continuations. */
  predicate FromContinuation(next: nat -> Fetch<WatchFeed>, calls: nat, x: Item)
  {
    exists k :: 0 <= k < calls && FetchedItem(next, k, x)
  }

  /** Whether the feed held after `k` continuation calls offers another. */
  predicate ContinuesAfter(info: WatchFeed, next: nat -> Fetch<WatchFeed>, k: nat)
  {
    if k == 0 then info.hasContinuation else next(k - 1).Got? && next(k - 1).value.hasContinuation
  }

  /** Every entry from position `from` on has a truthy id that no earlier
      entry has. */
  predicate AppendedFresh(r: seq<Item>, from: nat)
  {
    forall i :: from <= i < |r| ==> r[i].id != "" && r[i].id !in TruthyIds(r[..i])
  }

  lemma TruthyIdsSnoc(r: seq<Item>, v: Item)
    ensures TruthyIds(r + [v]) == TruthyIds(r) + (if v.id != "" then {v.id} else {})
  {
    assert forall x :: x in r + [v] <==> x in r || x == v;
  }

  lemma TruthyIdsPrefix(a: seq<Item>, r: seq<Item>)
    requires |a| <= |r| && r[..|a|] == a
    ensures TruthyIds(a) <= TruthyIds(r)
  {
    forall x | x in a ensures x in r {
      var i :| 0 <= i < |a| && a[i] == x;
      assert r[i] == x;
    }
  }

  /** The inner `for` over one continuation page: stop at 50 entries, append
      only entries with a truthy id not yet in `seenIds`. */
  method AppendUnseen(related: seq<Item>, seen: set<string>, page: seq<Item>)
    returns (r: seq<Item>, seen': set<string>)
    requires seen == TruthyIds(related)
    ensures seen' == TruthyIds(r)
    ensures |related| <= |r| && r[..|related|] == related
    ensures |related| >= MaxRelated ==> r == related
    ensures |related| < MaxRelated ==> |r| <= MaxRelated
    ensures forall i :: |related| <= i < |r| ==> r[i] in page
    ensures AppendedFresh(related, 0) ==> AppendedFresh(r, 0)
    ensures forall i :: |related| <= i < |r| ==> r[i].id != "" && r[i].id !in TruthyIds(r[..i])
    ensures |r| < MaxRelated ==> forall x :: x in page && x.id != "" ==> x.id in seen'
  {
    r, seen' := related, seen;
    var j := 0;
    while j < |page|
      invariant 0 <= j <= |page|
      invariant seen' == TruthyIds(r)
      invariant |related| <= |r| && r[..|related|] == related
      invariant |related| >= MaxRelated ==> r == related
      invariant |related| < MaxRelated ==> |r| <= MaxRelated
      invariant forall i :: |related| <= i < |r| ==> r[i] in page
      invariant forall i :: |related| <= i < |r| ==> r[i].id != "" && r[i].id !in TruthyIds(r[..i])
      invariant |r| < MaxRelated ==> forall k :: 0 <= k < j && page[k].id != "" ==> page[k].id in seen'
    {
      if |r| >= MaxRelated {
        break;
      }
      var v := page[j];
      if v.id != "" && v.id !in seen' {
        TruthyIdsSnoc(r, v);
        assert (r + [v])[..|r|] == r;
        forall i | |related| <= i < |r| ensures (r + [v])[..i] == r[..i] { }
        seen' := seen' + {v.id};
        r := r + [v];
      }
      j := j + 1;
    }
    if AppendedFresh(related, 0) {
      forall i | 0 <= i < |related| ensures r[i].id != "" && r[i].id !in TruthyIds(r[..i]) {
        assert r[..i] == related[..i];
        assert r[i] == related[i];
      }
    }
  }

  /** What the top-up holds after `calls` continuations: the candidates
      untouched at the front, then fresh entries drawn from the fetched
      pages, and, while below 50 entries, every truthy id those pages
      offered. */
  ghost predicate Held(candidates: seq<Item>, related: seq<Item>, next: nat -> Fetch<WatchFeed>, calls: nat)
  {
    && |candidates| <= |related| && related[..|candidates|] == candidates
    && AppendedFresh(related, |candidates|)
    && (forall i :: |candidates| <= i < |related| ==> FromContinuation(next, calls, related[i]))
    && (|related| < MaxRelated ==>
          forall k, x :: 0 <= k < calls && FetchedItem(next, k, x) && x.id != "" ==> x.id in TruthyIds(related))
  }

  /** One pass of the `while` after a continuation call that did not throw:
      a `null` result appends nothing, a page appends its unseen entries. */
  method ContinueWith(candidates: seq<Item>, related: seq<Item>, seen: set<string>, next: nat -> Fetch<WatchFeed>, calls: nat)
    returns (related': seq<Item>, seen': set<string>)
    requires seen == TruthyIds(related)
    requires Held(candidates, related, next, calls)
    requires |related| < MaxRelated
    ensures seen' == TruthyIds(related')
    ensures Held(candidates, related', next, calls + 1)
    ensures |related| <= |related'| <= MaxRelated
    ensures !next(calls).Got? ==> related' == related
  {
    var r := next(calls);
    related', seen' := related, seen;
    if r.Got? && r.value.watchNext.Some? {
      related', seen' := AppendUnseen(related, seen, r.value.watchNext.value);
      TruthyIdsPrefix(related, related');
      assert related'[..|candidates|] == related[..|candidates|];
      forall i | |candidates| <= i < |related'| ensures related'[i].id != "" && related'[i].id !in TruthyIds(related'[..i]) {
        if i < |related| {
          assert related'[..i] == related[..i];
          assert related'[i] == related[i];
        }
      }
    }
    forall i | |candidates| <= i < |related'| ensures FromContinuation(next, calls + 1, related'[i]) {
      if i < |related| {
        assert related'[i] == related[i];
        var k :| 0 <= k < calls && FetchedItem(next, k, related[i]);
        assert FetchedItem(next, k, related'[i]);
      } else {
        assert FetchedItem(next, calls, related'[i]);
      }
    }
    if |related'| < MaxRelated {
      forall k, x | 0 <= k < calls + 1 && FetchedItem(next, k, x) && x.id != "" ensures x.id in TruthyIds(related') {
        if k < calls {
          assert x.id in TruthyIds(related);
        } else {
          assert r.Got? && x in ArrayOrEmpty(r.value.watchNext);
        }
      }
    }
  }

  /** The `try` block of `/api/video` after `getInfo`: copy the candidates
      (duplicates and all) while recording their truthy ids, then, while
      fewer than 50 entries are held and fewer than 2 continuations were
      taken, fetch the next continuation and append its unseen entries.
      `calls` counts `getWatchNextContinuation` calls; when `failed`, a
      throw reached the `catch` and `watch_next_feed` keeps its value. */
  method TopUpRelated(info: WatchFeed, next: nat -> Fetch<WatchFeed>)
    returns (watchNext: Option<seq<Item>>, calls: nat, failed: bool)
    ensures calls <= MaxRelatedContinuations
    ensures failed <==> (exists k :: 0 <= k < calls && next(k).Threw?) || (calls >= 1 && next(0).Null?)
    ensures failed ==> watchNext == info.watchNext
    ensures !failed ==> watchNext.Some? && |Candidates(info)| <= |watchNext.value|
    ensures !failed ==> watchNext.value[..|Candidates(info)|] == Candidates(info)
    ensures |Candidates(info)| >= MaxRelated || !info.hasContinuation ==>
      !failed && calls == 0 && watchNext == Some(Candidates(info))
    ensures !failed && |Candidates(info)| < MaxRelated ==> |watchNext.value| <= MaxRelated
    ensures !failed ==> AppendedFresh(watchNext.value, |Candidates(info)|)
    ensures !failed ==> forall i :: |Candidates(info)| <= i < |watchNext.value| ==>
      FromContinuation(next, calls, watchNext.value[i])
    ensures !failed && |watchNext.value| < MaxRelated ==>
      forall k, x :: 0 <= k < calls && FetchedItem(next, k, x) && x.id != "" ==> x.id in TruthyIds(watchNext.value)
    ensures !failed && |watchNext.value| < MaxRelated ==>
      calls == MaxRelatedContinuations || !ContinuesAfter(info, next, calls)
  {
    var candidates := Candidates(info);
    var seen: set<string> := {};
    var related: seq<Item> := [];
    for i := 0 to |candidates|
      invariant related == candidates[..i]
      invariant seen == TruthyIds(related)
    {
      TruthyIdsSnoc(related, candidates[i]);
      if candidates[i].id != "" {
        seen := seen + {candidates[i].id};
      }
      related := related + [candidates[i]];
    }
    assert related == candidates;
    assert related[..|candidates|] == candidates;
    // `None` once `currentFeed` is `null`
    var current: Option<bool> := Some(info.hasContinuation);
    calls, failed := 0, false;
    while |related| < MaxRelated && calls < MaxRelatedContinuations
      invariant calls <= MaxRelatedContinuations
      invariant seen == TruthyIds(related)
      invariant Held(candidates, related, next, calls)
      invariant |candidates| >= MaxRelated || !info.hasContinuation ==> related == candidates && calls == 0
      invariant |candidates| < MaxRelated ==> |related| <= MaxRelated
      invariant forall k :: 0 <= k < calls ==> !next(k).Threw?
      invariant current.None? <==> calls >= 1 && next(calls - 1).Null?
      invariant current.Some? ==> current.value == ContinuesAfter(info, next, calls)
      invariant calls >= 1 && next(0).Null? ==> calls == 1 && |related| < MaxRelated
    {
      if current.None? {
        // `typeof null.getWatchNextContinuation` throws
        failed := true;
        break;
      }
      if !current.value {
        break;
      }
      var r := next(calls);
      if r.Threw? {
        calls := calls + 1;
        failed := true;
        break;
      }
      related, seen := ContinueWith(candidates, related, seen, next, calls);
      current := if r.Null? then None else Some(r.value.hasContinuation);
      assert current.Some? ==> ContinuesAfter(info, next, calls + 1) == current.value;
      calls := calls + 1;
    }
    watchNext := if failed then info.watchNext else Some(related);
  }

  method VideoEndpoint(clientOk: bool, id: Option<string>, info: Fetch<WatchFeed>, next: nat -> Fetch<WatchFeed>)
    returns (resp: Response<Option<seq<Item>>>, calls: nat, ghost failed: bool)
    ensures resp.BadRequest? <==> clientOk && !Present(id)
    ensures resp.Ok? <==> clientOk && Present(id) && info.Got?
    ensures !resp.Ok? ==> calls == 0 && !failed
    ensures calls <= MaxRelatedContinuations
    ensures resp.Ok? && !info.value.hasContinuation ==> resp.body == Some(Candidates(info.value))
    ensures resp.Ok? ==>
      (failed <==> (exists k :: 0 <= k < calls && next(k).Threw?) || (calls >= 1 && next(0).Null?))
    ensures resp.Ok? && failed ==> resp.body == info.value.watchNext
    ensures resp.Ok? && !failed ==>
      && resp.body.Some?
      && |Candidates(info.value)| <= |resp.body.value|
      && resp.body.value[..|Candidates(info.value)|] == Candidates(info.value)
      && (|Candidates(info.value)| < MaxRelated ==> |resp.body.value| <= MaxRelated)
      && AppendedFresh(resp.body.value, |Candidates(info.value)|)
      && forall i :: |Candidates(info.value)| <= i < |resp.body.value| ==>
           FromContinuation(next, calls, resp.body.value[i])
    ensures resp.Ok? && !failed && resp.body.Some? && |resp.body.value| < MaxRelated ==>
      && (calls == MaxRelatedContinuations || !ContinuesAfter(info.value, next, calls))
      && forall k, x :: 0 <= k < calls && FetchedItem(next, k, x) && x.id != "" ==> x.id in TruthyIds(resp.body.value)
  {
    failed := false;
    calls := 0;
    var g := Guard(clientOk, id);
    if !g.Ok? {
      resp := if g.BadRequest? then BadRequest else ServerError;
      return;
    }
    if !info.Got? {
      // `getInfo` threw, or its `null` result made `info.watch_next_feed` throw
      resp := ServerError;
      return;
    }
    var watchNext;
    watchNext, calls, failed := TopUpRelated(info.value, next);
    resp := Ok(watchNext);
  }

  // ---------------------------------------------------------------------
  // Page walks shared by /api/comments and /api/channel

  /** A page of a paginated upstream list: its items (`None` when missing)
      and its `has_continuation` flag. */
  datatype Page<T> = Page(items: Option<seq<T>>, hasContinuation: bool)

  /** Everything accumulated so far, and the page held last. */
  datatype Progress<T> = Progress(items: seq<T>, last: Page<T>)

  /** The state after `n` continuation calls: the items of the first page
      and of each continuation, in fetch order and without dedup, or `None`
      when one of those calls threw or resolved to `null`. */
  function Walk<T>(first: Page<T>, next: nat -> Fetch<Page<T>>, n: nat): Option<Progress<T>>
  {
    if n == 0 then Some(Progress(ArrayOrEmpty(first.items), first))
    else
      var w := Walk(first, next, n - 1);
      if w.Some? && next(n - 1).Got? then
        Some(Progress(w.value.items + ArrayOrEmpty(next(n - 1).value.items), next(n - 1).value))
      else None
  }

  /** A walk only grows: an earlier state's items are a prefix of a later one's. */
  lemma {:induction false} WalkPrefix<T>(first: Page<T>, next: nat -> Fetch<Page<T>>, m: nat, n: nat)
    requires m <= n
    requires Walk(first, next, n).Some?
    ensures Walk(first, next, m).Some?
    ensures |Walk(first, next, m).value.items| <= |Walk(first, next, n).value.items|
    ensures Walk(first, next, n).value.items[..|Walk(first, next, m).value.items|] == Walk(first, next, m).value.items
  {
    if m < n {
      WalkPrefix(first, next, m, n - 1);
      var a := Walk(first, next, m).value.items;
      var b := Walk(first, next, n - 1).value.items;
      var c := Walk(first, next, n).value.items;
      assert c[..|b|] == b;
      assert c[..|a|] == b[..|a|];
    }
  }

  /** A walk fails exactly when one of its continuation calls did not
      resolve to a page. */
  lemma {:induction false} WalkFails<T>(first: Page<T>, next: nat -> Fetch<Page<T>>, n: nat)
    ensures Walk(first, next, n).None? <==> exists k :: 0 <= k < n && !next(k).Got?
  {
    if n > 0 {
      WalkFails(first, next, n - 1);
    }
  }

  // ---------------------------------------------------------------------
  // /api/comments

  const CommentLimit := 300
  const MaxCommentContinuations := 5

  /** The `while` of `/api/comments`: continue while fewer than 300 comments
      are held, the section has a continuation and fewer than 5 were taken.
      `None` when a continuation call threw or resolved to `null`. */
  method WalkComments<T>(first: Page<T>, next: nat -> Fetch<Page<T>>)
    returns (held: Option<seq<T>>, attempts: nat)
    ensures attempts <= MaxCommentContinuations
    ensures held.Some? <==> Walk(first, next, attempts).Some?
    ensures held.Some? ==> held.value == Walk(first, next, attempts).value.items
    ensures forall k :: 0 <= k < attempts ==>
      Walk(first, next, k).Some? && |Walk(first, next, k).value.items| < CommentLimit
      && Walk(first, next, k).value.last.hasContinuation
    ensures held.Some? ==>
      |held.value| >= CommentLimit || !Walk(first, next, attempts).value.last.hasContinuation
      || attempts == MaxCommentContinuations
  {
    var section := first;
    var all := ArrayOrEmpty(first.items);
    attempts := 0;
    while |all| < CommentLimit && section.hasContinuation && attempts < MaxCommentContinuations
      invariant attempts <= MaxCommentContinuations
      invariant Walk(first, next, attempts) == Some(Progress(all, section))
      invariant forall k :: 0 <= k < attempts ==>
        Walk(first, next, k).Some? && |Walk(first, next, k).value.items| < CommentLimit
        && Walk(first, next, k).value.last.hasContinuation
    {
      var r := next(attempts);
      if !r.Got? {
        attempts := attempts + 1;
        held := None;
        return;
      }
      section := r.value;
      all := all + ArrayOrEmpty(section.items);
      attempts := attempts + 1;
    }
    held := Some(all);
  }

  /** A text-bearing field: an object whose `text` may be missing, or a
      plain string (whose `.text` is `undefined`). */
  datatype Text = Runs(text: Option<string>) | Plain(s: string)

  function TextOf(t: Option<Text>): Option<string>
  {
    if t.Some? && t.value.Runs? then t.value.text else None
  }

  /** `x?.text ?? x ?? null`: the text when there is one, else the value itself. */
  function TextOrSelf(t: Option<Text>): (r: Option<Text>)
    ensures r.None? <==> t.None?
    ensures TextOf(t).Some? ==> r == Some(Plain(TextOf(t).value))
    ensures TextOf(t).None? ==> r == t
  {
    match t
    case None => None
    case Some(Runs(Some(s))) => Some(Plain(s))
    case Some(_) => t
  }

  datatype Thumb = Thumb(url: Option<string>)

  datatype Author = Author(id: Option<string>, name: Option<Text>, thumbnails: Option<seq<Thumb>>)

  /** The `comment` of a thread as the client returns it; every field may be
      missing. Counts are non-negative integers. */
  datatype CommentBody = CommentBody(
    content: Option<Text>,
    commentId: Option<string>,
    publishedTime: Option<Text>,
    author: Option<Author>,
    likeCount: Option<nat>,
    replyCount: Option<nat>,
    isPinned: Option<bool>)

  datatype Thread = Thread(comment: Option<CommentBody>)

  datatype AuthorOut = AuthorOut(id: Option<string>, name: Option<Text>, thumbnails: seq<Thumb>)

  datatype CommentOut = CommentOut(
    text: Option<string>,
    commentId: Option<string>,
    publishedTime: Option<Text>,
    author: AuthorOut,
    likeCount: string,
    replyCount: string,
    isPinned: bool)

  function CountOrZero(n: Option<nat>): nat
  {
    if n.Some? then n.value else 0
  }

  function CountText(n: Option<nat>): (r: string)
    ensures AllDigits(r) && DecimalValue(r) == CountOrZero(n)
    ensures n.None? ==> r == "0"
  {
    if n.Some? then DecimalRoundTrip(n.value); NatToDecimal(n.value) else "0"
  }

  /** The `map` of `/api/comments`: optional chaining with `??` defaults,
      so a missing field is `null`, except the counts ("0"), `is_pinned`
      (false) and the author's thumbnails ([]). */
  function ShapeComment(t: Thread): (r: CommentOut)
    ensures t.comment.None? ==>
      r == CommentOut(None, None, None, AuthorOut(None, None, []), "0", "0", false)
    ensures AllDigits(r.likeCount) && AllDigits(r.replyCount)
    ensures t.comment.Some? ==>
      && DecimalValue(r.likeCount) == CountOrZero(t.comment.value.likeCount)
      && DecimalValue(r.replyCount) == CountOrZero(t.comment.value.replyCount)
      && r.commentId == t.comment.value.commentId
      && r.isPinned == (t.comment.value.isPinned == Some(true))
      && r.text == TextOf(t.comment.value.content)
      && r.publishedTime == TextOrSelf(t.comment.value.publishedTime)
    ensures t.comment.Some? && t.comment.value.author.None? ==> r.author == AuthorOut(None, None, [])
    ensures t.comment.Some? && t.comment.value.author.Some? ==>
      var a := t.comment.value.author.value;
      && r.author.id == a.id
      && r.author.name == TextOrSelf(a.name)
      && (a.thumbnails.Some? ==> r.author.thumbnails == a.thumbnails.value)
      && (a.thumbnails.None? ==> r.author.thumbnails == [])
  {
    match t.comment
    case None => CommentOut(None, None, None, AuthorOut(None, None, []), "0", "0", false)
    case Some(c) =>
      var author :=
        if c.author.Some? then
          AuthorOut(c.author.value.id, TextOrSelf(c.author.value.name), ArrayOrEmpty(c.author.value.thumbnails))
        else AuthorOut(None, None, []);
      CommentOut(
        TextOf(c.content),
        c.commentId,
        TextOrSelf(c.publishedTime),
        author,
        CountText(c.likeCount),
        CountText(c.replyCount),
        if c.isPinned.Some? then c.isPinned.value else false)
  }

  /** `/api/comments`: guard, first section, walk, then the first 300
      comments in fetch order, each shaped. */
  method CommentsEndpoint(clientOk: bool, id: Option<string>, first: Fetch<Page<Thread>>, next: nat -> Fetch<Page<Thread>>)
    returns (resp: Response<seq<CommentOut>>, attempts: nat)
    ensures resp.BadRequest? <==> clientOk && !Present(id)
    ensures !clientOk || !Present(id) || !first.Got? ==> resp == (if clientOk && !Present(id) then BadRequest else ServerError) && attempts == 0
    ensures attempts <= MaxCommentContinuations
    ensures resp.Ok? ==> first.Got? && Walk(first.value, next, attempts).Some?
    ensures resp.Ok? ==>
      var held := Walk(first.value, next, attempts).value.items;
      && |resp.body| == (if |held| < CommentLimit then |held| else CommentLimit)
      && forall i :: 0 <= i < |resp.body| ==> resp.body[i] == ShapeComment(held[i])
    ensures clientOk && Present(id) && first.Got? ==>
      && (resp.Ok? <==> Walk(first.value, next, attempts).Some?)
      && forall k :: 0 <= k < attempts ==>
           Walk(first.value, next, k).Some? && |Walk(first.value, next, k).value.items| < CommentLimit
           && Walk(first.value, next, k).value.last.hasContinuation
    ensures resp.Ok? ==>
      var w := Walk(first.value, next, attempts).value;
      |w.items| >= CommentLimit || !w.last.hasContinuation || attempts == MaxCommentContinuations
  {
    attempts := 0;
    var g := Guard(clientOk, id);
    if !g.Ok? {
      resp := if g.BadRequest? then BadRequest else ServerError;
      return;
    }
    if !first.Got? {
      resp := ServerError;
      return;
    }
    var held;
    held, attempts := WalkComments(first.value, next);
    if held.None? {
      resp := ServerError;
      return;
    }
    var kept := Take(held.value, CommentLimit);
    resp := Ok(seq(|kept|, i requires 0 <= i < |kept| => ShapeComment(kept[i])));
  }

  // ---------------------------------------------------------------------
  // /api/channel

  /** How many continuations `for (let i = 1; i < targetPage; i++)` may
      take; `None` is a `page` that `parseInt` reads as `NaN`. */
  function PagesToFetch(targetPage: Option<int>): nat
  {
    if targetPage.Some? && targetPage.value > 1 then targetPage.value - 1 else 0
  }

  /** The page loop of `/api/channel`: fetch a continuation while pages
      remain and the feed has one, accumulating every page's videos. */
  method WalkChannel<T>(first: Page<T>, next: nat -> Fetch<Page<T>>, targetPage: Option<int>)
    returns (result: Option<Progress<T>>, calls: nat)
    ensures calls <= PagesToFetch(targetPage)
    ensures result == Walk(first, next, calls)
    ensures forall k :: 0 <= k < calls ==>
      Walk(first, next, k).Some? && Walk(first, next, k).value.last.hasContinuation
    ensures result.Some? ==> calls == PagesToFetch(targetPage) || !result.value.last.hasContinuation
  {
    var feed := first;
    var all := ArrayOrEmpty(first.items);
    calls := 0;
    var pages := PagesToFetch(targetPage);
    while calls < pages
      invariant calls <= pages
      invariant Walk(first, next, calls) == Some(Progress(all, feed))
      invariant forall k :: 0 <= k < calls ==>
        Walk(first, next, k).Some? && Walk(first, next, k).value.last.hasContinuation
    {
      if !feed.hasContinuation {
        break;
      }
      var r := next(calls);
      if !r.Got? {
        calls := calls + 1;
        result := None;
        return;
      }
      feed := r.value;
      all := all + ArrayOrEmpty(feed.items);
      calls := calls + 1;
    }
    result := Some(Progress(all, feed));
  }

  /** An avatar as the client may hold it: a thumbnail array, an object
      with an optional `url`, or a string. */
  datatype AvatarValue = Thumbs(thumbs: seq<Thumb>) | Picture(url: Option<string>) | Url(s: string)

  /** The avatar after normalisation: `null`, `undefined`, a URL string, or
      the chosen value unchanged. */
  datatype AvatarOut = NullAvatar | Undefined | Link(url: string) | Unchanged(value: AvatarValue)

  /** Truthiness of an avatar candidate: arrays and objects always, strings
      when non-empty. */
  predicate TruthyAvatar(a: Option<AvatarValue>)
  {
    a.Some? && a.value != Url("")
  }

  /** `metadata?.avatar || header?.avatar || header?.author?.thumbnails || null`. */
  function ChosenAvatar(meta: Option<AvatarValue>, header: Option<AvatarValue>, author: Option<AvatarValue>): (r: Option<AvatarValue>)
    ensures r.None? <==> !TruthyAvatar(meta) && !TruthyAvatar(header) && !TruthyAvatar(author)
    ensures r.Some? ==> TruthyAvatar(r) && (r == meta || r == header || r == author)
    ensures TruthyAvatar(meta) ==> r == meta
  {
    if TruthyAvatar(meta) then meta
    else if TruthyAvatar(header) then header
    else if TruthyAvatar(author) then author
    else None
  }

  /** A non-empty array becomes its first entry's `url`, an object with a
      truthy `url` becomes that `url`, anything else stays as it is. */
  function NormalizeAvatar(a: Option<AvatarValue>): AvatarOut
  {
    match a
    case None => NullAvatar
    case Some(Thumbs(ts)) =>
      if |ts| > 0 then (if ts[0].url.Some? then Link(ts[0].url.value) else Undefined)
      else Unchanged(Thumbs(ts))
    case Some(Picture(u)) => if u.Some? && u.value != "" then Link(u.value) else Unchanged(Picture(u))
    case Some(Url(s)) => Unchanged(Url(s))
  }

  /** A URL in the response was the first thumbnail's or the object's own
      `url` of the first truthy candidate, and an array avatar is never
      returned as an array unless it is empty. */
  lemma AvatarProvenance(meta: Option<AvatarValue>, header: Option<AvatarValue>, author: Option<AvatarValue>)
    ensures var chosen := ChosenAvatar(meta, header, author);
      var out := NormalizeAvatar(chosen);
      && (out.Link? ==>
            || (chosen.Some? && chosen.value.Thumbs? && |chosen.value.thumbs| > 0 && chosen.value.thumbs[0].url == Some(out.url))
            || (chosen.Some? && chosen.value.Picture? && chosen.value.url == Some(out.url) && out.url != ""))
      && (out.Unchanged? && out.value.Thumbs? ==> out.value.thumbs == [])
      && (out.NullAvatar? <==> chosen.None?)
  {
  }

  /** `metadata?.title || header?.title?.text || header?.author?.name || null`. */
  function ChannelName(metaTitle: Option<string>, headerTitle: Option<string>, authorName: Option<string>): (r: Option<string>)
    ensures r.Some? ==> r.value != "" && (r == metaTitle || r == headerTitle || r == authorName)
    ensures r.None? <==> !Present(metaTitle) && !Present(headerTitle) && !Present(authorName)
    ensures Present(metaTitle) ==> r == metaTitle
  {
    if Present(metaTitle) then metaTitle
    else if Present(headerTitle) then headerTitle
    else if Present(authorName) then authorName
    else None
  }

  /** The channel fields the handler reads; each may be missing. */
  datatype ChannelInfo = ChannelInfo(
    metaTitle: Option<string>,
    headerTitle: Option<string>,
    authorName: Option<string>,
    metaAvatar: Option<AvatarValue>,
    headerAvatar: Option<AvatarValue>,
    authorThumbnails: Option<AvatarValue>)

  datatype ChannelBody<T> = ChannelBody(
    name: Option<string>,
    avatar: AvatarOut,
    page: Option<int>,
    videos: seq<T>,
    hasContinuation: bool)

  /** `/api/channel`: guard, `getChannel`, `getVideos`, the page walk, then
      the name and the normalised avatar. `targetPage` is `parseInt(page)`. */
  method ChannelEndpoint<T>(
    clientOk: bool, id: Option<string>, channel: Fetch<ChannelInfo>,
    first: Fetch<Page<T>>, next: nat -> Fetch<Page<T>>, targetPage: Option<int>)
    returns (resp: Response<ChannelBody<T>>, calls: nat)
    ensures resp.BadRequest? <==> clientOk && !Present(id)
    ensures !clientOk || !Present(id) || !channel.Got? || !first.Got? ==> !resp.Ok? && calls == 0
    ensures calls <= PagesToFetch(targetPage)
    ensures resp.Ok? ==> channel.Got? && first.Got? && Walk(first.value, next, calls).Some?
    ensures resp.Ok? ==>
      var w := Walk(first.value, next, calls).value;
      var c := channel.value;
      && resp.body.videos == w.items
      && resp.body.hasContinuation == w.last.hasContinuation
      && resp.body.page == targetPage
      && resp.body.name == ChannelName(c.metaTitle, c.headerTitle, c.authorName)
      && resp.body.avatar == NormalizeAvatar(ChosenAvatar(c.metaAvatar, c.headerAvatar, c.authorThumbnails))
    ensures resp.Ok? ==> calls == PagesToFetch(targetPage) || !resp.body.hasContinuation
    ensures clientOk && Present(id) && channel.Got? && first.Got? ==>
      && (resp.Ok? <==> Walk(first.value, next, calls).Some?)
      && forall k :: 0 <= k < calls ==>
           Walk(first.value, next, k).Some? && Walk(first.value, next, k).value.last.hasContinuation
  {
    calls := 0;
    var g := Guard(clientOk, id);
    if !g.Ok? {
      resp := if g.BadRequest? then BadRequest else ServerError;
      return;
    }
    if !channel.Got? || !first.Got? {
      resp := ServerError;
      return;
    }
    var w;
    w, calls := WalkChannel(first.value, next, targetPage);
    if w.None? {
      resp := ServerError;
      return;
    }
    var c := channel.value;
    var name := ChannelName(c.metaTitle, c.headerTitle, c.authorName);
    var avatar := NormalizeAvatar(ChosenAvatar(c.metaAvatar, c.headerAvatar, c.authorThumbnails));
    resp := Ok(ChannelBody(name, avatar, targetPage, w.value.items, w.value.last.hasContinuation));
  }
}

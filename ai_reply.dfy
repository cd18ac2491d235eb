/** What the front end's AI context makes of the language model's reply when
    it asks for discovery search queries (contexts/AiContext.tsx): the reply is
    split into lines, each line loses its list numbering, its bullet and its
    double quotes and is trimmed, and the first five non-empty lines are the
    queries. Without an engine there are none; when the request fails, the
    user's top interests stand in. The engine, the prompt and the interests
    themselves are not modelled: the outcome of the request and the interest
    list are parameters. */
module AiReply {
  import opened Seqs
  import opened Strings

  /** `slice(0, 5)` on the queries and on the fallback interests. */
  const MaxQueries := 5

  /** A line starts with a list number: `^\d+\.` matches it. */
  predicate IsNumbered(line: string)
  {
    0 < DigitRun(line) < |line| && line[DigitRun(line)] == '.'
  }

  /** `line.replace(/^\d+\.\s*\/, '')`: shorter than the line exactly when
      the line is numbered, and then not starting with white space. */
  function StripNumbering(line: string): (r: string)
    ensures |r| <= |line|
    ensures |r| < |line| <==> IsNumbered(line)
    ensures |r| < |line| ==> r == [] || !IsJsSpace(r[0])
  {
    if IsNumbered(line) then
      var rest := line[DigitRun(line) + 1..];
      rest[LeadingSpaces(rest)..]
    else line
  }

  /** `line.replace(/^- \s*\/, '')`: shorter than the line exactly when the
      line starts with a dash and a space, and then not starting with white
      space. */
  function StripBullet(line: string): (r: string)
    ensures |r| <= |line|
    ensures |r| < |line| <==> IsPrefix("- ", line)
    ensures |r| < |line| ==> r == [] || !IsJsSpace(r[0])
  {
    if IsPrefix("- ", line) then
      var rest := line[2..];
      rest[LeadingSpaces(rest)..]
    else line
  }

  /** `line.replace(/"/g, '')`: every double quote removed, nothing else. */
  function RemoveQuotes(line: string): (r: string)
    ensures forall i :: 0 <= i < |r| ==> r[i] != '"'
    ensures |r| == |line| - Count(line, '"')
    ensures (forall i :: 0 <= i < |line| ==> line[i] != '"') ==> r == line
  {
    if line == [] then []
    else if line[0] == '"' then RemoveQuotes(line[1..])
    else [line[0]] + RemoveQuotes(line[1..])
  }

  /** What a cleaned, non-empty line looks like: no white space at either
      end and no double quote. */
  predicate IsQuery(q: string)
  {
    && q != []
    && !IsJsSpace(q[0]) && !IsJsSpace(q[|q| - 1])
    && forall i :: 0 <= i < |q| ==> q[i] != '"'
  }

  /** The clean-up of one line of the reply. */
  function CleanLine(line: string): string
  {
    CleanAfterNumbering(StripNumbering(line))
  }

  /** The clean-up steps that follow the removal of the numbering. */
  function CleanAfterNumbering(s: string): string
  {
    Trim(RemoveQuotes(StripBullet(s)))
  }

  /** A cleaned line is empty or a query, and no longer than the line. */
  lemma CleanLineIsQuery(line: string)
    ensures CleanLine(line) != [] ==> IsQuery(CleanLine(line))
    ensures |CleanLine(line)| <= |line|
  {
  }

  /** `lines.map(f)`. */
  function MapLines(f: string -> string, lines: seq<string>): (r: seq<string>)
    ensures |r| == |lines|
    ensures forall i :: 0 <= i < |lines| ==> r[i] == f(lines[i])
  {
    if lines == [] then []
    else MapLines(f, lines[..|lines| - 1]) + [f(lines[|lines| - 1])]
  }

  /** `lines.map(f).filter(line => line.length > 0)`. */
  function NonEmptyImages(f: string -> string, lines: seq<string>): (r: seq<string>)
    ensures |r| <= |lines|
  {
    if lines == [] then []
    else
      var last := f(lines[|lines| - 1]);
      NonEmptyImages(f, lines[..|lines| - 1]) + (if last == [] then [] else [last])
  }

  /** The non-empty images keep the order of the lines: they are a
      subsequence of the images. */
  lemma {:induction false} NonEmptyImagesInOrder(f: string -> string, lines: seq<string>)
    ensures IsSubsequence(NonEmptyImages(f, lines), MapLines(f, lines))
  {
    if lines != [] {
      var init := lines[..|lines| - 1];
      var last := f(lines[|lines| - 1]);
      NonEmptyImagesInOrder(f, init);
      assert MapLines(f, lines) == MapLines(f, init) + [last];
      if last == [] {
        assert NonEmptyImages(f, lines) == NonEmptyImages(f, init);
        SubsequenceExtend(NonEmptyImages(f, init), MapLines(f, init), last);
      } else {
        assert NonEmptyImages(f, lines) == NonEmptyImages(f, init) + [last];
        SubsequenceAppendBoth(NonEmptyImages(f, init), MapLines(f, init), last);
      }
    }
  }

  /** The non-empty images are exactly the images that are not empty. */
  lemma {:induction false} NonEmptyImagesMembers(f: string -> string, lines: seq<string>)
    ensures forall q :: q in NonEmptyImages(f, lines) <==> q != [] && q in MapLines(f, lines)
  {
    if lines != [] {
      var init := lines[..|lines| - 1];
      var last := f(lines[|lines| - 1]);
      NonEmptyImagesMembers(f, init);
      var kept := NonEmptyImages(f, init);
      var images := MapLines(f, init);
      assert MapLines(f, lines) == images + [last];
      forall q
        ensures q in NonEmptyImages(f, lines) <==> q != [] && q in MapLines(f, lines)
      {
        assert q in images + [last] <==> q in images || q == last;
        assert q in kept + [last] <==> q in kept || q == last;
      }
    }
  }

  /** Lines whose images are given non-empty strings keep exactly those. */
  lemma {:induction false} NonEmptyImagesExact(f: string -> string, lines: seq<string>, qs: seq<string>)
    requires |lines| == |qs|
    requires forall i :: 0 <= i < |qs| ==> qs[i] != [] && f(lines[i]) == qs[i]
    ensures NonEmptyImages(f, lines) == qs
  {
    if lines != [] {
      NonEmptyImagesExact(f, lines[..|lines| - 1], qs[..|qs| - 1]);
      assert qs == qs[..|qs| - 1] + [qs[|qs| - 1]];
    }
  }

  /** The queries of a reply's lines: each cleaned, the empty ones dropped. */
  function Queries(lines: seq<string>): seq<string>
  {
    NonEmptyImages(CleanLine, lines)
  }

  /** Every query is a query: non-empty, trimmed, without double quotes. */
  lemma QueriesAreQueries(lines: seq<string>)
    ensures forall k :: 0 <= k < |Queries(lines)| ==> IsQuery(Queries(lines)[k])
  {
    NonEmptyImagesMembers(CleanLine, lines);
    var queries := Queries(lines);
    var cleaned := MapLines(CleanLine, lines);
    forall k | 0 <= k < |queries|
      ensures IsQuery(queries[k])
    {
      assert queries[k] in queries;
      var i :| 0 <= i < |lines| && cleaned[i] == queries[k];
      CleanLineIsQuery(lines[i]);
    }
  }

  /** How the request for queries ended: no engine could be loaded, the
      request threw, or the engine replied with a message whose content may
      be absent. */
  datatype Completion = NoEngine | Failed | Replied(content: Option<string>)

  /** `getAiRecommendations`, from the outcome of the request and the user's
      top interests. */
  function AiRecommendations(completion: Completion, interests: seq<string>): (r: seq<string>)
    ensures |r| <= MaxQueries
    ensures completion.NoEngine? ==> r == []
    ensures completion.Failed? ==> |r| == Min(|interests|, MaxQueries) && r == interests[..|r|]
    ensures completion.Replied? ==> forall k :: 0 <= k < |r| ==> IsQuery(r[k])
  {
    match completion
    case NoEngine => []
    case Failed => Take(interests, MaxQueries)
    case Replied(content) =>
      var text := if content.Some? then content.value else "";
      QueriesAreQueries(Split(text, '\n'));
      Take(Queries(Split(text, '\n')), MaxQueries)
  }

  function Min(a: int, b: int): int
  {
    if a <= b then a else b
  }

  /** An absent or empty reply gives no queries (not the interests). */
  lemma EmptyReply(interests: seq<string>)
    ensures AiRecommendations(Replied(None), interests) == []
    ensures AiRecommendations(Replied(Some("")), interests) == []
  {
    assert Split("", '\n') == [""];
    assert NonEmptyImages(CleanLine, [""]) == NonEmptyImages(CleanLine, []) + [];
  }

  /** How the model may write one query on its line. */
  datatype Marker = Plain | Numbered(n: nat) | Bullet

  function Marked(m: Marker, q: string): string
  {
    match m
    case Plain => q
    case Numbered(n) => NatToDecimal(n) + ". " + q
    case Bullet => "- " + q
  }

  /** A query the model can write as is: clean, on one line, and not itself
      starting like a numbered or bulleted line. */
  predicate IsPlainQuery(q: string)
  {
    IsQuery(q) && '\n' !in q && !IsNumbered(q) && !IsPrefix("- ", q)
  }

  /** A plain query is left as it is by the clean-up. */
  lemma CleanPlain(q: string)
    requires IsPlainQuery(q)
    ensures StripNumbering(q) == q
    ensures CleanAfterNumbering(q) == q
  {
    assert StripBullet(q) == q;
    assert RemoveQuotes(q) == q;
    TrimNoSpaceEnds(q);
  }

  /** The number and the dot, and the white space after them, are removed. */
  lemma StripNumbered(n: nat, q: string)
    requires IsPlainQuery(q)
    ensures StripNumbering(NatToDecimal(n) + ". " + q) == q
  {
    var d := NatToDecimal(n);
    var line := d + ". " + q;
    assert line == d + ['.'] + (" " + q);
    DigitRunStops(d, '.', " " + q);
    assert line[|d| + 1..] == " " + q;
    assert (" " + q)[1..] == q;
    assert LeadingSpaces(" " + q) == 1;
  }

  /** A bulleted line has no number, and loses the dash and the white space
      after it. */
  lemma StripBulleted(q: string)
    requires IsPlainQuery(q)
    ensures StripNumbering("- " + q) == "- " + q
    ensures StripBullet("- " + q) == q
  {
    var line := "- " + q;
    assert DigitRun(line) == 0;
    assert line[2..] == q;
  }

  /** A marked line is one line. */
  lemma MarkedOneLine(m: Marker, q: string)
    requires IsPlainQuery(q)
    ensures '\n' !in Marked(m, q)
  {
    if m.Numbered? {
      var d := NatToDecimal(m.n);
      assert forall i :: 0 <= i < |d| ==> IsAsciiDigit(d[i]);
    }
  }

  /** Cleaning a marked line gives back the query. */
  lemma CleanMarked(m: Marker, q: string)
    requires IsPlainQuery(q)
    ensures CleanLine(Marked(m, q)) == q
  {
    CleanPlain(q);
    match m
    case Plain =>
    case Numbered(n) =>
      StripNumbered(n, q);
    case Bullet =>
      StripBulleted(q);
      assert CleanAfterNumbering("- " + q) == Trim(RemoveQuotes(q));
  }

  /** The lines of a list of marked queries. */
  function MarkedLines(ms: seq<Marker>, qs: seq<string>): (r: seq<string>)
    requires |ms| == |qs|
    ensures |r| == |qs|
  {
    seq(|qs|, i requires 0 <= i < |qs| => Marked(ms[i], qs[i]))
  }

  /** A reply listing queries one per line, each plain, numbered or bulleted,
      yields its first five queries. */
  lemma ListedReply(ms: seq<Marker>, qs: seq<string>, interests: seq<string>)
    requires |ms| == |qs| >= 1
    requires forall i :: 0 <= i < |qs| ==> IsPlainQuery(qs[i])
    ensures AiRecommendations(Replied(Some(Join(MarkedLines(ms, qs), '\n'))), interests) == Take(qs, MaxQueries)
  {
    var lines := MarkedLines(ms, qs);
    forall i | 0 <= i < |qs|
      ensures CleanLine(lines[i]) == qs[i] && '\n' !in lines[i]
    {
      CleanMarked(ms[i], qs[i]);
      MarkedOneLine(ms[i], qs[i]);
    }
    SplitJoin(lines, '\n');
    NonEmptyImagesExact(CleanLine, lines, qs);
  }
}

/** The thumbnail URL rewriting of the front end (utils/proxyThumbnail.ts): a
    YouTube thumbnail URL becomes a route of the application's own thumbnail
    endpoint, any other image URL a route of its image proxy. */
module ProxyThumbnail {
  import opened Seqs
  import opened Strings

  /** The characters of the class `[a-zA-Z0-9_-]`. */
  predicate IsIdChar(c: char)
  {
    ('a' <= c <= 'z') || ('A' <= c <= 'Z') || ('0' <= c <= '9') || c == '_' || c == '-'
  }

  /** A video id as the pattern captures it: eleven id characters. */
  predicate IsVideoId(id: string)
  {
    |id| == 11 && forall k :: 0 <= k < |id| ==> IsIdChar(id[k])
  }

  /** `/\/vi\/([a-zA-Z0-9_-]{11})\//` matches `url` at index `i`; the id is
      `url[i + 4..i + 15]`. */
  predicate VideoIdAt(url: string, i: int)
  {
    0 <= i && i + 16 <= |url| && url[i..i + 4] == "/vi/"
    && IsVideoId(url[i + 4..i + 15]) && url[i + 15] == '/'
  }

  /** The leftmost index at or after `from` where the video-id pattern matches
      (`String.prototype.match` with a non-global pattern). */
  function FindVideoId(url: string, from: nat): (r: Option<nat>)
    ensures r.Some? ==> from <= r.value && VideoIdAt(url, r.value)
    ensures r.Some? ==> forall j :: from <= j < r.value ==> !VideoIdAt(url, j)
    ensures r.None? <==> forall j :: from <= j ==> !VideoIdAt(url, j)
    decreases |url| - from
  {
    if from + 16 > |url| then None
    else if VideoIdAt(url, from) then Some(from)
    else FindVideoId(url, from + 1)
  }

  /** The file names of the alternatives of the quality group, in the order
      the pattern tries them. */
  const QualityFiles: seq<string> := ["maxresdefault", "sddefault", "hqdefault", "mqdefault", "default"]

  /** What alternative `n` of `/\/(maxresdefault|…|default)\.jpg/` matches. */
  function Pattern(n: nat): string
    requires n < |QualityFiles|
  {
    "/" + QualityFiles[n] + ".jpg"
  }

  /** Alternative `n` of the quality pattern matches at `i`. */
  predicate FileAt(url: string, i: int, n: nat)
    requires n < |QualityFiles|
  {
    OccursAt(url, Pattern(n), i)
  }

  /** The first alternative, from the `k`-th on, that matches at `i`. */
  function AlternativeAt(url: string, i: int, k: nat): (r: Option<nat>)
    requires k <= |QualityFiles|
    ensures r.Some? ==> k <= r.value < |QualityFiles| && FileAt(url, i, r.value)
    ensures r.Some? ==> forall n :: k <= n < r.value ==> !FileAt(url, i, n)
    ensures r.None? <==> forall n :: k <= n < |QualityFiles| ==> !FileAt(url, i, n)
    decreases |QualityFiles| - k
  {
    if k == |QualityFiles| then None
    else if FileAt(url, i, k) then Some(k)
    else AlternativeAt(url, i, k + 1)
  }

  /** A match of the quality pattern: where, and which alternative. */
  datatype Match = Match(at: nat, alternative: nat)

  /** The leftmost match of the quality pattern at or after `from`. */
  function FindQuality(url: string, from: nat): (r: Option<Match>)
    ensures r.Some? ==> from <= r.value.at && AlternativeAt(url, r.value.at, 0) == Some(r.value.alternative)
    ensures r.Some? ==> forall j :: from <= j < r.value.at ==> AlternativeAt(url, j, 0).None?
    ensures r.None? <==> forall j :: from <= j ==> AlternativeAt(url, j, 0).None?
    decreases |url| - from
  {
    if from >= |url| then None
    else match AlternativeAt(url, from, 0)
      case Some(n) => Some(Match(from, n))
      case None => FindQuality(url, from + 1)
  }

  /** The `quality` query value: the matched file name with its first
      `default` removed, `hq` when nothing matched or nothing is left. */
  function QualityParam(m: Option<Match>): string
    requires m.Some? ==> m.value.alternative < |QualityFiles|
  {
    var quality := if m.None? then "hq" else ReplaceFirst(QualityFiles[m.value.alternative], "default", "");
    if quality == "" then "hq" else quality
  }

  const ThumbnailRoute := "/api/thumbnail/"
  const ProxyRoute := "/api/proxy-thumbnail?url="

  /** The stored `useProxyThumbnail` setting turns the proxy off only when it
      is exactly `false`; `None` is a setting never stored. */
  predicate UseProxy(stored: Option<string>)
  {
    stored != Some("false")
  }

  /** `getProxyThumbnailUrl`. The stored setting and `encodeURIComponent` are
      parameters. */
  function GetProxyThumbnailUrl(originalUrl: string, stored: Option<string>, encodeUriComponent: string -> string): (r: string)
    ensures r == [] <==> originalUrl == []
    ensures originalUrl != [] && !UseProxy(stored) ==> r == originalUrl
  {
    if originalUrl == [] then []
    else if !UseProxy(stored) then originalUrl
    else match FindVideoId(originalUrl, 0)
      case Some(i) => ThumbnailRoute + originalUrl[i + 4..i + 15] + "?quality=" + QualityParam(FindQuality(originalUrl, 0))
      case None => ProxyRoute + encodeUriComponent(originalUrl)
  }

  /** The qualities `getDirectThumbnailUrl` accepts. */
  datatype Quality = MaxRes | SD | HQ | MQ | Default

  function QualityName(q: Quality): string
  {
    match q
    case MaxRes => "maxres"
    case SD => "sd"
    case HQ => "hq"
    case MQ => "mq"
    case Default => "default"
  }

  /** The alternative of the quality pattern naming YouTube's file for `q`. */
  function FileOf(q: Quality): (n: nat)
    ensures n < |QualityFiles|
  {
    match q
    case MaxRes => 0
    case SD => 1
    case HQ => 2
    case MQ => 3
    case Default => 4
  }

  /** `getDirectThumbnailUrl`, whose quality defaults to `hq`. */
  function GetDirectThumbnailUrl(videoId: string, quality: Option<Quality>): (r: string)
    ensures quality.None? ==> r == ThumbnailRoute + videoId + "?quality=hq"
    ensures quality.Some? ==> r == ThumbnailRoute + videoId + "?quality=" + QualityName(quality.value)
  {
    ThumbnailRoute + videoId + "?quality=" + QualityName(if quality.None? then HQ else quality.value)
  }

  /** The quality the proxy asks for when it sees YouTube's file for `q`: the
      smallest file, `default.jpg`, is asked for as `hq`. */
  function Proxied(q: Quality): Quality
  {
    if q == Default then HQ else q
  }

  /** Removing the first `default` from a file name ending in it leaves the
      part before, when that part has no earlier `de`. */
  lemma StripDefault(prefix: string)
    requires forall j :: 0 <= j < |prefix| ==> prefix[j] != 'd' || (prefix + "default")[j + 1] != 'e'
    ensures ReplaceFirst(prefix + "default", "default", "") == prefix
  {
    var name := prefix + "default";
    assert name[|prefix|..] == "default";
    forall j | 0 <= j < |prefix|
      ensures !OccursAt(name, "default", j)
    {
      assert name[j] == prefix[j];
    }
    ReplaceFirstAt(name, "default", "", |prefix|);
    assert name[..|prefix|] == prefix;
  }

  /** The `quality` value read off a matched file name is the name of the
      quality that file stands for, `default` read as `hq`. */
  lemma QualityParamOfFile(at: nat, q: Quality)
    ensures QualityParam(Some(Match(at, FileOf(q)))) == QualityName(Proxied(q))
  {
    match q
    case MaxRes =>
      assert QualityFiles[0] == "maxres" + "default";
      StripDefault("maxres");
    case SD =>
      assert QualityFiles[1] == "sd" + "default";
      StripDefault("sd");
    case HQ =>
      assert QualityFiles[2] == "hq" + "default";
      StripDefault("hq");
    case MQ =>
      assert QualityFiles[3] == "mq" + "default";
      StripDefault("mq");
    case Default =>
      assert QualityFiles[4] == "" + "default";
      StripDefault("");
  }

  /** Whatever the URL, the proxy asks for one of four qualities, never
      `default`. */
  lemma QualityParamRange(m: Option<Match>)
    requires m.Some? ==> m.value.alternative < |QualityFiles|
    ensures QualityParam(m) in ["maxres", "sd", "hq", "mq"]
  {
    if m.Some? {
      var n := m.value.alternative;
      var q := [MaxRes, SD, HQ, MQ, Default][n];
      assert FileOf(q) == n;
      QualityParamOfFile(m.value.at, q);
    }
  }

  /** Without a video id in the URL, the URL goes through the image proxy;
      with one, the result names that id and one of four qualities. */
  lemma ProxyThumbnailShape(originalUrl: string, stored: Option<string>, encodeUriComponent: string -> string)
    requires originalUrl != [] && UseProxy(stored)
    ensures var r := GetProxyThumbnailUrl(originalUrl, stored, encodeUriComponent);
            || ((forall j :: !VideoIdAt(originalUrl, j)) && r == ProxyRoute + encodeUriComponent(originalUrl))
            || (exists i, q :: VideoIdAt(originalUrl, i) && q in ["maxres", "sd", "hq", "mq"]
                               && r == ThumbnailRoute + originalUrl[i + 4..i + 15] + "?quality=" + q)
  {
    var found := FindVideoId(originalUrl, 0);
    if found.Some? {
      QualityParamRange(FindQuality(originalUrl, 0));
    }
  }

  /** A YouTube thumbnail URL: `<host>/vi/<id>/<file>.jpg<rest>`. */
  function ThumbnailUrl(host: string, id: string, q: Quality, rest: string): string
  {
    host + "/vi/" + id + "/" + QualityFiles[FileOf(q)] + ".jpg" + rest
  }

  /** The characters of a thumbnail URL around its id. */
  lemma ThumbnailUrlLayout(host: string, id: string, q: Quality, rest: string)
    requires IsVideoId(id)
    ensures var url := ThumbnailUrl(host, id, q, rest);
            && |url| == |host| + 16 + |Pattern(FileOf(q))| - 1 + |rest|
            && url[..|host|] == host
            && url[|host|..|host| + 4] == "/vi/"
            && url[|host| + 4..|host| + 15] == id
            && url[|host| + 15..] == Pattern(FileOf(q)) + rest
  {
    var url := ThumbnailUrl(host, id, q, rest);
    assert url == host + "/vi/" + id + Pattern(FileOf(q)) + rest;
  }

  /** The leftmost video-id match of a thumbnail URL is its own id, provided
      its host does not contain `/vi/`. */
  lemma VideoIdOfThumbnailUrl(host: string, id: string, q: Quality, rest: string)
    requires IsVideoId(id)
    requires forall j :: !OccursAt(host, "/vi/", j)
    ensures FindVideoId(ThumbnailUrl(host, id, q, rest), 0) == Some(|host|)
  {
    var url := ThumbnailUrl(host, id, q, rest);
    ThumbnailUrlLayout(host, id, q, rest);
    assert VideoIdAt(url, |host|);
    forall j | 0 <= j < |host|
      ensures !VideoIdAt(url, j)
    {
      if j + 4 <= |host| {
        assert url[j..j + 4] == host[j..j + 4];
        assert !OccursAt(host, "/vi/", j);
      } else if j == |host| - 1 {
        assert url[j..j + 4][1] == url[|host|..|host| + 4][0];
      } else if j == |host| - 2 {
        assert url[j..j + 4][2] == url[|host|..|host| + 4][0];
      } else {
        assert url[j + 4..j + 15][2] == url[|host|..|host| + 4][3];
      }
    }
  }

  /** Facts about each alternative the proofs below use: it starts with the
      only `/` it contains, ends in `.jpg`, and holds id characters between. */
  lemma PatternShape(n: nat)
    requires n < |QualityFiles|
    ensures var p := Pattern(n);
            && |p| >= 9 && |p| != 16 && p[0] == '/' && p[1] != 'v' && p[|p| - 4] == '.'
            && p[|p| - 4..] == ".jpg"
            && (forall k :: 1 <= k < |p| ==> p[k] != '/')
            && (forall k :: 1 <= k < |p| - 4 ==> IsIdChar(p[k]))
  {
    var p := Pattern(n);
    var name := QualityFiles[n];
    assert p == "/" + name + ".jpg";
    assert forall k :: 0 <= k < |name| ==> IsIdChar(name[k]);
    forall k | 1 <= k < |p|
      ensures p[k] != '/'
    {
      if k < |p| - 4 {
        assert p[k] == name[k - 1];
      } else {
        assert p[k] == ".jpg"[k - |p| + 4];
      }
    }
    forall k | 1 <= k < |p| - 4
      ensures IsIdChar(p[k])
    {
      assert p[k] == name[k - 1];
    }
  }

  /** No alternative of the quality pattern matches a thumbnail URL inside
      its host, provided the host does not contain `.jpg`. */
  lemma NoFileInHost(host: string, id: string, q: Quality, rest: string, j: nat, n: nat)
    requires IsVideoId(id) && n < |QualityFiles|
    requires forall k :: !OccursAt(host, ".jpg", k)
    requires j < |host|
    ensures !FileAt(ThumbnailUrl(host, id, q, rest), j, n)
  {
    var url := ThumbnailUrl(host, id, q, rest);
    var p := Pattern(n);
    ThumbnailUrlLayout(host, id, q, rest);
    PatternShape(n);
    if j + |p| <= |url| {
      var window := url[j..j + |p|];
      if j + |p| <= |host| {
        assert window == url[..|host|][j..j + |p|];
        assert window[|p| - 4..] == host[j + |p| - 4..j + |p|];
        assert !OccursAt(host, ".jpg", j + |p| - 4);
      } else {
        var k := |host| - j;
        assert window[k] == url[|host|..|host| + 4][0] == '/';
        assert p[k] != '/';
      }
    }
  }

  /** No alternative of the quality pattern matches a thumbnail URL within its
      `/vi/<id>` part. */
  lemma NoFileInIdPart(host: string, id: string, q: Quality, rest: string, j: nat, n: nat)
    requires IsVideoId(id) && n < |QualityFiles|
    requires |host| <= j < |host| + 15
    ensures !FileAt(ThumbnailUrl(host, id, q, rest), j, n)
  {
    var url := ThumbnailUrl(host, id, q, rest);
    var p := Pattern(n);
    ThumbnailUrlLayout(host, id, q, rest);
    PatternShape(n);
    if j + |p| <= |url| {
      var window := url[j..j + |p|];
      if j == |host| {
        assert window[1] == url[|host|..|host| + 4][1];
      } else if j < |host| + 3 {
        assert window[0] == url[|host|..|host| + 4][j - |host|];
      } else if j == |host| + 3 {
        var d := |p| - 4;
        if d <= 11 {
          assert window[d] == url[|host| + 4..|host| + 15][d - 1];
        } else {
          assert window[12] == url[|host| + 15..][0];
        }
      } else {
        assert window[0] == url[|host| + 4..|host| + 15][j - |host| - 4];
      }
    }
  }

  /** The leftmost quality match of a thumbnail URL is its own file name. */
  lemma QualityOfThumbnailUrl(host: string, id: string, q: Quality, rest: string)
    requires IsVideoId(id)
    requires forall k :: !OccursAt(host, ".jpg", k)
    ensures FindQuality(ThumbnailUrl(host, id, q, rest), 0) == Some(Match(|host| + 15, FileOf(q)))
  {
    var url := ThumbnailUrl(host, id, q, rest);
    var at := |host| + 15;
    ThumbnailUrlLayout(host, id, q, rest);
    forall j, n | 0 <= j < at && 0 <= n < |QualityFiles|
      ensures !FileAt(url, j, n)
    {
      if j < |host| {
        NoFileInHost(host, id, q, rest, j, n);
      } else {
        NoFileInIdPart(host, id, q, rest, j, n);
      }
    }
    assert FileAt(url, at, FileOf(q)) by {
      assert url[at..at + |Pattern(FileOf(q))|] == (Pattern(FileOf(q)) + rest)[..|Pattern(FileOf(q))|];
    }
    forall n | 0 <= n < FileOf(q)
      ensures !FileAt(url, at, n)
    {
      var file := QualityFiles[FileOf(q)];
      assert url[at + 1] == (Pattern(FileOf(q)) + rest)[1] == file[0];
      assert url[at + 2] == (Pattern(FileOf(q)) + rest)[2] == file[1];
      if at + |Pattern(n)| <= |url| {
        assert url[at..at + |Pattern(n)|][1] == url[at + 1];
        assert url[at..at + |Pattern(n)|][2] == url[at + 2];
      }
    }
    assert AlternativeAt(url, at, 0) == Some(FileOf(q));
    var found := FindQuality(url, 0);
    assert found.Some?;
  }

  /** Through the proxy, a YouTube thumbnail URL becomes the route
      `getDirectThumbnailUrl` gives for its id and quality, `default.jpg`
      asked for as `hq`. */
  lemma ProxyOfThumbnailUrl(host: string, id: string, q: Quality, rest: string,
                            stored: Option<string>, encodeUriComponent: string -> string)
    requires IsVideoId(id) && UseProxy(stored)
    requires forall k :: !OccursAt(host, "/vi/", k)
    requires forall k :: !OccursAt(host, ".jpg", k)
    ensures GetProxyThumbnailUrl(ThumbnailUrl(host, id, q, rest), stored, encodeUriComponent)
            == GetDirectThumbnailUrl(id, Some(Proxied(q)))
  {
    var url := ThumbnailUrl(host, id, q, rest);
    ThumbnailUrlLayout(host, id, q, rest);
    VideoIdOfThumbnailUrl(host, id, q, rest);
    QualityOfThumbnailUrl(host, id, q, rest);
    QualityParamOfFile(|host| + 15, q);
  }
}

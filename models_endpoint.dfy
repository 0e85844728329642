/**
 * Model discovery in src/services/api.ts: `resolveModelsEndpoint` rewrites
 * the path of the generation endpoint into a `models` URL, and
 * `fetchModels` picks the model list out of the reply.
 */
module ModelsEndpoint {
  import opened Wrappers
  import opened Text
  import opened ApiPayload

  /**
   * A URL that `new URL(...)` accepted, split around its path: `href` is
   * `head + pathname + tail` (the tail holds search and hash).
   * `hasOpaquePath` marks a URL without a hierarchical path, as
   * `localhost:8080/v1` (scheme `localhost:`) or `foo:` parse.
   */
  datatype Url = Url(head: string, pathname: string, tail: string, hasOpaquePath: bool)

  function Href(u: Url): string {
    u.head + u.pathname + u.tail
  }

  /** The `pathname` setter, which leaves a URL without a hierarchical path as it is. */
  function SetPathname(u: Url, p: string): (r: Url)
    ensures u.hasOpaquePath ==> r == u
    ensures !u.hasOpaquePath ==> r.pathname == p && r.head == u.head && r.tail == u.tail && !r.hasOpaquePath
  {
    if u.hasOpaquePath then u else u.(pathname := p)
  }

  /** Index of the first '/' in `p`, or `|p|` when there is none. */
  function SlashIndex(p: string): (i: nat)
    ensures i <= |p|
    ensures forall k :: 0 <= k < i ==> p[k] != '/'
    ensures i < |p| ==> p[i] == '/'
  {
    if p == [] || p[0] == '/' then 0 else 1 + SlashIndex(p[1..])
  }

  /** A path segment as `filter(Boolean)` keeps it: non-empty and slash-free. */
  predicate IsSegment(s: string) {
    s != [] && '/' !in s
  }

  /** `pathname.split('/').filter(Boolean)` */
  function Segments(p: string): (segs: seq<string>)
    ensures forall k :: 0 <= k < |segs| ==> IsSegment(segs[k])
    decreases |p|
  {
    if p == [] then []
    else
      var i := SlashIndex(p);
      if i == |p| then [p]
      else (if i == 0 then [] else [p[..i]]) + Segments(p[i + 1..])
  }

  /** `segments.join('/')` */
  function JoinSlash(segs: seq<string>): string {
    if |segs| == 0 then ""
    else if |segs| == 1 then segs[0]
    else segs[0] + "/" + JoinSlash(segs[1..])
  }

  lemma {:induction false} SegmentsOfJoin(segs: seq<string>)
    requires forall k :: 0 <= k < |segs| ==> IsSegment(segs[k])
    ensures Segments(JoinSlash(segs)) == segs
  {
    if |segs| == 1 {
      assert SlashIndex(segs[0]) == |segs[0]|;
    } else if |segs| > 1 {
      var s0 := segs[0];
      var p := JoinSlash(segs);
      assert p == s0 + "/" + JoinSlash(segs[1..]);
      assert SlashIndex(p) == |s0| by {
        assert p[|s0|] == '/';
        assert forall k :: 0 <= k < |s0| ==> p[k] == s0[k];
        SlashIndexIs(p, |s0|);
      }
      assert p[..|s0|] == s0;
      assert p[|s0| + 1..] == JoinSlash(segs[1..]);
      SegmentsOfJoin(segs[1..]);
    }
  }

  lemma {:induction false} SlashIndexIs(p: string, i: nat)
    requires i < |p| && p[i] == '/'
    requires forall k :: 0 <= k < i ==> p[k] != '/'
    ensures SlashIndex(p) == i
  {
    if i > 0 {
      SlashIndexIs(p[1..], i - 1);
    }
  }

  /** Round trip: the pathname the rewrite writes, `'/' + segments.join('/')`, splits back into exactly those segments. */
  lemma SegmentsOfPathname(segs: seq<string>)
    requires forall k :: 0 <= k < |segs| ==> IsSegment(segs[k])
    ensures Segments("/" + JoinSlash(segs)) == segs
  {
    var p := "/" + JoinSlash(segs);
    assert SlashIndex(p) == 0;
    assert p[1..] == JoinSlash(segs);
    SegmentsOfJoin(segs);
  }

  predicate IsCompletionSegment(s: string) {
    s == "completions" || s == "complete" || s == "generate"
  }

  /**
   * The segment rewrite for a path that does not already end in `models`:
   * drop a trailing completion segment, then turn a final `chat` into
   * `models`, else append `models`.
   */
  function RewriteSegments(segs: seq<string>): (r: seq<string>)
    ensures |r| > 0 && r[|r| - 1] == "models"
    ensures |r| - 1 <= |segs| && r[..|r| - 1] == segs[..|r| - 1]
  {
    if |segs| > 0 && IsCompletionSegment(segs[|segs| - 1]) then
      var rest := segs[..|segs| - 1];
      if |rest| > 0 && rest[|rest| - 1] == "chat" then rest[|rest| - 1 := "models"]
      else rest + ["models"]
    else segs + ["models"]
  }

  /** The pathname of the models URL for a parsed endpoint. */
  function ModelsPathname(pathname: string): string {
    var segs := Segments(pathname);
    if |segs| > 0 && segs[|segs| - 1] == "models" then pathname
    else "/" + JoinSlash(RewriteSegments(segs))
  }

  /** The models URL for `endpoint`, given what `new URL(endpoint)` produced (`None` when it throws). */
  function ModelsUrl(endpoint: string, parsed: Option<Url>): string {
    match parsed
    case None => StripTrailingSlash(endpoint) + "/models"
    case Some(url) => Href(SetPathname(url, ModelsPathname(url.pathname)))
  }

  /** `resolveModelsEndpoint`, editing its `segments` array with pop, index assignment and push. */
  method ResolveModelsEndpoint(endpoint: string, parsed: Option<Url>) returns (r: string)
    ensures r == ModelsUrl(endpoint, parsed)
  {
    if parsed.None? {
      return StripTrailingSlash(endpoint) + "/models";
    }
    var url := parsed.value;
    var segments := Segments(url.pathname);
    if |segments| == 0 {
      assert RewriteSegments(segments) == ["models"];
      url := SetPathname(url, "/models");
      return Href(url);
    }
    var lastSegment := segments[|segments| - 1];
    if lastSegment == "models" {
      return Href(url);
    }
    segments := EditSegments(segments);
    url := SetPathname(url, "/" + JoinSlash(segments));
    return Href(url);
  }

  /** The pop, index assignment and push that `resolveModelsEndpoint` applies to a path not ending in `models`. */
  method EditSegments(original: seq<string>) returns (segments: seq<string>)
    ensures segments == RewriteSegments(original)
  {
    segments := original;
    if |segments| > 0 {
      var lastSegment := segments[|segments| - 1];
      if lastSegment == "completions" || lastSegment == "complete" || lastSegment == "generate" {
        segments := segments[..|segments| - 1];
        if |segments| > 0 && segments[|segments| - 1] == "chat" {
          segments := segments[|segments| - 1 := "models"];
        } else {
          segments := segments + ["models"];
        }
        return;
      }
    }
    segments := segments + ["models"];
  }

  lemma RewrittenSegmentsAreSegments(segs: seq<string>)
    requires forall k :: 0 <= k < |segs| ==> IsSegment(segs[k])
    ensures forall k :: 0 <= k < |RewriteSegments(segs)| ==> IsSegment(RewriteSegments(segs)[k])
  {
    var r := RewriteSegments(segs);
    forall k | 0 <= k < |r| ensures IsSegment(r[k]) {
      if k < |r| - 1 { assert r[k] == segs[..|r| - 1][k]; }
    }
  }

  /** The path written for rewritten segments splits back into segments ending in `models`. */
  lemma RewrittenPathEndsInModels(segs: seq<string>)
    requires forall k :: 0 <= k < |segs| ==> IsSegment(segs[k])
    ensures var r := Segments("/" + JoinSlash(RewriteSegments(segs)));
      |r| > 0 && r[|r| - 1] == "models"
  {
    RewrittenSegmentsAreSegments(segs);
    SegmentsOfPathname(RewriteSegments(segs));
  }

  /**
   * For a URL with a hierarchical path, the path of the models URL ends in a
   * `models` segment and only the path changes; a URL without one comes
   * back as it was parsed.
   */
  lemma ModelsUrlEndsInModels(endpoint: string, url: Url)
    ensures !url.hasOpaquePath ==> ModelsUrl(endpoint, Some(url)) == url.head + ModelsPathname(url.pathname) + url.tail
    ensures url.hasOpaquePath ==> ModelsUrl(endpoint, Some(url)) == Href(url)
    ensures var segs := Segments(ModelsPathname(url.pathname));
      |segs| > 0 && segs[|segs| - 1] == "models"
  {
    ModelsPathnameEndsInModels(url.pathname);
  }

  /** The models pathname always ends in a `models` segment. */
  lemma ModelsPathnameEndsInModels(pathname: string)
    ensures var segs := Segments(ModelsPathname(pathname));
      |segs| > 0 && segs[|segs| - 1] == "models"
  {
    var segs := Segments(pathname);
    if !(|segs| > 0 && segs[|segs| - 1] == "models") {
      RewrittenPathEndsInModels(segs);
    }
  }

  /** A URL without a hierarchical path is its own models URL: the setter ignores the rewritten path. */
  lemma OpaquePathIsKept(endpoint: string, url: Url)
    requires url.hasOpaquePath
    ensures ModelsUrl(endpoint, Some(url)) == Href(url)
  {
  }

  /**
   * An endpoint typed without its scheme, as `localhost:8080/v1/chat/completions`,
   * parses with scheme `localhost:` and the non-hierarchical path
   * `8080/v1/chat/completions`, here `prefix/chat/<completion>`. The setter
   * ignores the rewritten path `/prefix/models`, so the models URL is the
   * chat endpoint itself.
   */
  lemma SchemelessHostKeepsChatEndpoint(head: string, prefix: seq<string>, last: string, tail: string)
    requires forall k :: 0 <= k < |prefix| ==> IsSegment(prefix[k])
    requires IsCompletionSegment(last)
    ensures var url := Url(head, JoinSlash(prefix + ["chat", last]), tail, true);
      && ModelsUrl(Href(url), Some(url)) == Href(url)
      && ModelsPathname(url.pathname) == "/" + JoinSlash(prefix + ["models"])
  {
    var segs := prefix + ["chat", last];
    ChatSegments(prefix, last);
    SegmentsOfJoin(segs);
  }

  /** The fallback for an unparsable endpoint strips at most one trailing '/' and appends `/models`. */
  lemma FallbackAppendsModels(endpoint: string)
    ensures EndsWith(ModelsUrl(endpoint, None), "/models")
    ensures !EndsWith(endpoint, "/") ==> ModelsUrl(endpoint, None) == endpoint + "/models"
    ensures EndsWith(endpoint, "/") ==> ModelsUrl(endpoint, None) == endpoint[..|endpoint| - 1] + "/models"
  {
  }

  lemma ChatRewrite(prefix: seq<string>, last: string)
    requires IsCompletionSegment(last)
    ensures RewriteSegments(prefix + ["chat", last]) == prefix + ["models"]
  {
    var segs := prefix + ["chat", last];
    var rest := segs[..|segs| - 1];
    assert segs[|segs| - 1] == last;
    assert rest == prefix + ["chat"];
    assert rest[|rest| - 1] == "chat";
    assert rest[|rest| - 1 := "models"] == prefix + ["models"];
  }

  lemma AppendSegments(prefix: seq<string>, tail: seq<string>)
    requires forall k :: 0 <= k < |prefix| ==> IsSegment(prefix[k])
    requires forall k :: 0 <= k < |tail| ==> IsSegment(tail[k])
    ensures forall k :: 0 <= k < |prefix + tail| ==> IsSegment((prefix + tail)[k])
  {
  }

  /** A `.../chat/completions` path (or `chat/complete`, `chat/generate`) becomes `.../models`. */
  lemma ChatCompletionsBecomesModels(prefix: seq<string>, last: string)
    requires forall k :: 0 <= k < |prefix| ==> IsSegment(prefix[k])
    requires IsCompletionSegment(last)
    ensures ModelsPathname("/" + JoinSlash(prefix + ["chat", last])) == "/" + JoinSlash(prefix + ["models"])
  {
    ChatSegments(prefix, last);
    RewrittenPathname(prefix + ["chat", last], prefix + ["models"]);
  }

  /** `prefix/chat/<completion>` is a list of segments not ending in `models` that the rewrite turns into `prefix/models`. */
  lemma ChatSegments(prefix: seq<string>, last: string)
    requires forall k :: 0 <= k < |prefix| ==> IsSegment(prefix[k])
    requires IsCompletionSegment(last)
    ensures var segs := prefix + ["chat", last];
      && (forall k :: 0 <= k < |segs| ==> IsSegment(segs[k]))
      && segs[|segs| - 1] != "models"
      && RewriteSegments(segs) == prefix + ["models"]
  {
    CompletionIsSegment(last);
    assert IsSegment("chat");
    AppendSegments(prefix, ["chat", last]);
    ChatRewrite(prefix, last);
  }

  /** A path not ending in `models` is replaced by the path of its rewritten segments. */
  lemma RewrittenPathname(segs: seq<string>, out: seq<string>)
    requires forall k :: 0 <= k < |segs| ==> IsSegment(segs[k])
    requires |segs| > 0 && segs[|segs| - 1] != "models"
    requires RewriteSegments(segs) == out
    ensures ModelsPathname("/" + JoinSlash(segs)) == "/" + JoinSlash(out)
  {
    ModelsPathnameOfSegments(segs);
  }

  /** The models pathname of a pathname written from segments, by the segments alone. */
  lemma ModelsPathnameOfSegments(segs: seq<string>)
    requires forall k :: 0 <= k < |segs| ==> IsSegment(segs[k])
    ensures ModelsPathname("/" + JoinSlash(segs))
         == if |segs| > 0 && segs[|segs| - 1] == "models" then "/" + JoinSlash(segs) else "/" + JoinSlash(RewriteSegments(segs))
  {
    SegmentsOfPathname(segs);
  }

  lemma CompletionIsSegment(s: string)
    requires IsCompletionSegment(s)
    ensures IsSegment(s) && s != "models"
  {
  }

  /** A path whose last segment is neither `models` nor a completion segment gets `models` appended. */
  lemma OtherPathGetsModels(segs: seq<string>)
    requires forall k :: 0 <= k < |segs| ==> IsSegment(segs[k])
    requires |segs| > 0 ==> segs[|segs| - 1] != "models" && !IsCompletionSegment(segs[|segs| - 1])
    ensures ModelsPathname("/" + JoinSlash(segs)) == "/" + JoinSlash(segs + ["models"])
  {
    SegmentsOfPathname(segs);
  }

  /** A path already ending in `models` is left as it is. */
  lemma ModelsPathIsKept(segs: seq<string>)
    requires forall k :: 0 <= k < |segs| ==> IsSegment(segs[k])
    requires |segs| > 0 && segs[|segs| - 1] == "models"
    ensures ModelsPathname("/" + JoinSlash(segs)) == "/" + JoinSlash(segs)
  {
    ModelsPathnameOfSegments(segs);
  }

  /** One entry of the model list (`ApiModel`); `capabilities` is not modelled. */
  datatype ApiModel = ApiModel(id: string, name: Option<string>, description: Option<string>)

  /** A field of the parsed reply: absent, present but not an array, or an array. */
  datatype ListField = Absent | NotArray | Array(items: seq<ApiModel>)

  datatype ModelListResponse = ModelListResponse(data: ListField, models: ListField)

  /** `data.data` when it is an array, else `data.models` when it is an array, else `[]`. */
  function SelectModels(resp: ModelListResponse): (r: seq<ApiModel>)
    ensures resp.data.Array? ==> r == resp.data.items
    ensures !resp.data.Array? && resp.models.Array? ==> r == resp.models.items
    ensures !resp.data.Array? && !resp.models.Array? ==> r == []
  {
    if resp.data.Array? then resp.data.items
    else if resp.models.Array? then resp.models.items
    else []
  }

  /** What the GET to the models URL produced. */
  datatype ModelsReply = ModelsThrown(message: string) | ModelsNotOk(status: nat, body: string) | ModelsJson(response: ModelListResponse)

  /** The result `fetchModels` returns or throws for a reply. */
  function ModelsOutcome(reply: ModelsReply): (r: Result<seq<ApiModel>>)
    ensures r.Ok? ==> r.value != [] && reply.ModelsJson? && r.value == SelectModels(reply.response)
    ensures reply.ModelsJson? && SelectModels(reply.response) == [] ==> r == Err("模型列表为空")
    ensures reply.ModelsJson? && SelectModels(reply.response) != [] ==> r == Ok(SelectModels(reply.response))
    ensures reply.ModelsNotOk? ==> r == Err("获取模型列表失败 " + NatToString(reply.status) + ": " + reply.body)
    ensures reply.ModelsThrown? ==> r == Err(reply.message)
  {
    match reply
    case ModelsThrown(m) => Err(m)
    case ModelsNotOk(status, body) => Err("获取模型列表失败 " + NatToString(status) + ": " + body)
    case ModelsJson(resp) =>
      var models := SelectModels(resp);
      if |models| == 0 then Err("模型列表为空") else Ok(models)
  }

  /** `fetchModels`: `parse` stands for `new URL`, `server` for the GET. */
  method FetchModels(endpoint: string, defaults: Defaults, parse: string -> Option<Url>, server: string -> ModelsReply)
    returns (result: Result<seq<ApiModel>>)
    ensures var apiEndpoint := ResolveOverride(endpoint, defaults.endpoint);
      result == ModelsOutcome(server(ModelsUrl(apiEndpoint, parse(apiEndpoint))))
    ensures result.Ok? ==> result.value != []
  {
    var apiEndpoint := ResolveOverride(endpoint, defaults.endpoint);
    var modelsUrl := ResolveModelsEndpoint(apiEndpoint, parse(apiEndpoint));
    result := HandleModelsReply(server(modelsUrl));
  }

  /** The reply handling of `fetchModels`: throw for a failed request or an empty list, else return the list. */
  method HandleModelsReply(reply: ModelsReply) returns (result: Result<seq<ApiModel>>)
    ensures result == ModelsOutcome(reply)
  {
    match reply {
      case ModelsThrown(m) =>
        result := Err(m);
      case ModelsNotOk(status, body) =>
        result := Err("获取模型列表失败 " + NatToString(status) + ": " + body);
      case ModelsJson(resp) =>
        var models := SelectModels(resp);
        if |models| == 0 {
          result := Err("模型列表为空");
        } else {
          result := Ok(models);
        }
    }
  }
}

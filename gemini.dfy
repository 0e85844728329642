/**
 * The native Gemini client of Giga-Peach (services/gemini.ts):
 * `generateSingleImage` checks the key, builds the `generateContent` URL,
 * turns reference data URIs into `inlineData` parts, posts the payload and
 * either builds an error message or takes the first inline image of the
 * reply.
 */
module GeminiService {
  import opened Wrappers
  import opened Text
  import ApiPayload

  /** MODEL_NAME of constants.ts. */
  const ModelName := "gemini-3-pro-image-preview"
  const DefaultBase := "https://generativelanguage.googleapis.com"
  const MissingKeyMessage := "API Key is required"
  const NoImageDataMessage := "No image data found in response"
  const PngPrefix := "data:image/png;base64,"
  const Base64Marker := ";base64,"

  /** The options record; `referenceImages` and `baseUrl` are `None` when undefined. */
  datatype GenerateOptions = GenerateOptions(
    prompt: string,
    referenceImages: Option<seq<string>>,
    aspectRatio: string,
    resolution: string,
    apiKey: string,
    baseUrl: Option<string>)

  datatype InlineData = InlineData(mimeType: string, data: string)

  /** One entry of `contents[0].parts`. */
  datatype GeminiPart = InlinePart(inlineData: InlineData) | PromptPart(text: string)

  datatype GeminiImageConfig = GeminiImageConfig(aspectRatio: string, imageSize: string)

  /** The posted payload: one content holding the parts, and the image configuration. */
  datatype GeminiPayload = GeminiPayload(contents: seq<seq<GeminiPart>>, imageConfig: GeminiImageConfig)

  // ---------------------------------------------------------------------
  // URL

  /** `baseUrl?.trim() || DEFAULT_BASE` */
  function ApiBase(baseUrl: Option<string>): (r: string)
    ensures baseUrl.None? ==> r == DefaultBase
    ensures baseUrl.Some? ==> r == ApiPayload.ResolveOverride(baseUrl.value, DefaultBase)
  {
    match baseUrl
    case None => DefaultBase
    case Some(b) => ApiPayload.ResolveOverride(b, DefaultBase)
  }

  /** The `generateContent` URL for a base and an already trimmed key. */
  function GeminiUrl(base: string, key: string): string {
    base + "/v1beta/models/" + ModelName + ":generateContent?key=" + key
  }

  /** The URL starts with the base, names the model on the v1beta path and ends with the key. */
  lemma GeminiUrlShape(base: string, key: string)
    ensures StartsWith(GeminiUrl(base, key), base + "/v1beta/models/")
    ensures OccursAt(GeminiUrl(base, key), ModelName, |base| + |"/v1beta/models/"|)
    ensures EndsWith(GeminiUrl(base, key), ":generateContent?key=" + key)
  {
    var u := GeminiUrl(base, key);
    var m := "/v1beta/models/";
    assert u == (base + m) + ModelName + (":generateContent?key=" + key);
    OccursInner(u, base + m, ModelName, ":generateContent?key=" + key, 0);
    assert u[..|base + m|] == base + m;
  }

  /** A base URL with whitespace around it or a blank one is handled as the trimmed or the default base. */
  lemma ApiBaseIgnoresPadding(a: string, b: string, c: string)
    requires AllSpace(a) && AllSpace(c) && IsTrimmed(b) && b != ""
    ensures ApiBase(Some(a + b + c)) == b
    ensures AllSpace(a) ==> ApiBase(Some(a)) == DefaultBase
  {
    ApiPayload.ResolveOverrideIgnoresPadding(a, b, c, DefaultBase);
    TrimOfTrimmed(b);
  }

  // ---------------------------------------------------------------------
  // Data URIs: /^data:(.+);base64,(.+)$/

  /** `;base64,` at `i` splits `img` into a non-empty group 1 (after `data:`) and a non-empty group 2. */
  predicate SplitsAt(img: string, i: int) {
    5 < i && i + |Base64Marker| < |img| && OccursAt(img, Base64Marker, i)
  }

  predicate NoLineTerminator(s: string) {
    forall k :: 0 <= k < |s| ==> !IsLineTerminator(s[k])
  }

  /** The greatest split position at or below `hi`, if any. */
  function LastSplitAtMost(img: string, hi: int): (r: Option<nat>)
    ensures r.Some? ==> r.value <= hi && SplitsAt(img, r.value)
    ensures r.Some? ==> forall j :: r.value < j <= hi ==> !SplitsAt(img, j)
    ensures r.None? ==> forall j :: j <= hi ==> !SplitsAt(img, j)
    decreases hi
  {
    if hi <= 5 then None
    else if SplitsAt(img, hi) then Some(hi)
    else LastSplitAtMost(img, hi - 1)
  }

  /**
   * The match of `^data:(.+);base64,(.+)$` as `{mimeType, data}`: `.` does
   * not cross line terminators and the greedy group 1 takes the last
   * `;base64,` that leaves a non-empty group 2.
   */
  function SplitDataUri(img: string): (r: Option<InlineData>)
    ensures r.Some? <==> StartsWith(img, "data:") && NoLineTerminator(img) && exists i :: SplitsAt(img, i)
    ensures r.Some? ==> exists i :: (SplitsAt(img, i) && r.value == InlineData(img[5..i], img[i + |Base64Marker|..])
      && forall j :: i < j ==> !SplitsAt(img, j))
  {
    if StartsWith(img, "data:") && NoLineTerminator(img) then
      match LastSplitAtMost(img, |img| - |Base64Marker| - 1)
      case None => None
      case Some(i) => Some(InlineData(img[5..i], img[i + |Base64Marker|..]))
    else None
  }

  /** The data URI the code expects: `data:` + mime + `;base64,` + data. */
  function DataUri(d: InlineData): string {
    "data:" + d.mimeType + Base64Marker + d.data
  }

  /** The search stops at the greatest split point: one at `i` with none above it up to `hi` is the answer. */
  lemma {:induction false} LastSplitIs(img: string, hi: int, i: nat)
    requires i <= hi && SplitsAt(img, i)
    requires forall j :: i < j <= hi ==> !SplitsAt(img, j)
    ensures LastSplitAtMost(img, hi) == Some(i)
    decreases hi
  {
    if hi != i {
      LastSplitIs(img, hi - 1, i);
    }
  }

  /** A data URI built from line-terminator-free parts has no line terminator. */
  lemma DataUriNoLineTerminator(d: InlineData)
    requires NoLineTerminator(d.mimeType) && NoLineTerminator(d.data)
    ensures NoLineTerminator(DataUri(d))
  {
    var img := DataUri(d);
    var i := 5 + |d.mimeType|;
    var m := |Base64Marker|;
    forall k | 0 <= k < |img| ensures !IsLineTerminator(img[k]) {
      if k < 5 {
        assert img[k] == "data:"[k];
      } else if k < i {
        assert img[k] == d.mimeType[k - 5];
      } else if k < i + m {
        assert img[k] == Base64Marker[k - i];
      } else {
        assert img[k] == d.data[k - i - m];
      }
    }
  }

  /** The marker after the mime type is the last split point when the payload has no ';'. */
  lemma DataUriSplitsAfterMime(d: InlineData)
    requires d.mimeType != [] && d.data != []
    requires ';' !in d.data
    ensures SplitsAt(DataUri(d), 5 + |d.mimeType|)
    ensures forall j :: 5 + |d.mimeType| < j ==> !SplitsAt(DataUri(d), j)
  {
    var img := DataUri(d);
    var i := 5 + |d.mimeType|;
    var m := |Base64Marker|;
    assert img == ("data:" + d.mimeType) + Base64Marker + d.data;
    OccursInner(img, "data:" + d.mimeType, Base64Marker, d.data, 0);
    forall j | i < j ensures !SplitsAt(img, j) {
      if j < |img| {
        if j < i + m {
          assert img[j] == Base64Marker[j - i];
        } else {
          assert img[j] == d.data[j - i - m];
          assert d.data[j - i - m] in d.data;
        }
        NotMarkerAt(img, j);
      }
    }
  }

  /** Round trip: a data URI with a non-empty mime type and a non-empty payload free of ';' splits back into its parts. */
  lemma SplitDataUriRoundTrip(d: InlineData)
    requires d.mimeType != [] && d.data != []
    requires ';' !in d.data
    requires NoLineTerminator(d.mimeType) && NoLineTerminator(d.data)
    ensures SplitDataUri(DataUri(d)) == Some(d)
  {
    var img := DataUri(d);
    var i := 5 + |d.mimeType|;
    var m := |Base64Marker|;
    assert NoLineTerminator(img) by { DataUriNoLineTerminator(d); }
    assert LastSplitAtMost(img, |img| - m - 1) == Some(i) by {
      DataUriSplitsAfterMime(d);
      LastSplitIs(img, |img| - m - 1, i);
    }
    FourPartSlices("data:", d.mimeType, Base64Marker, d.data);
    SplitAtLast(img, i);
  }

  lemma FourPartSlices(a: string, b: string, c: string, e: string)
    ensures var s := a + b + c + e;
      && s[..|a|] == a && s[|a|..|a| + |b|] == b && s[|a| + |b| + |c|..] == e
  {
    var s := a + b + c + e;
    assert s[..|a|] == a;
    assert s[|a|..|a| + |b|] == b;
    assert s[|a| + |b| + |c|..] == e;
  }

  /** A `data:` image without line terminators whose last split is at `i` splits into the two sides of that marker. */
  lemma SplitAtLast(img: string, i: nat)
    requires StartsWith(img, "data:") && NoLineTerminator(img)
    requires LastSplitAtMost(img, |img| - |Base64Marker| - 1) == Some(i)
    ensures SplitDataUri(img) == Some(InlineData(img[5..i], img[i + |Base64Marker|..]))
  {
  }

  lemma NotMarkerAt(s: string, j: int)
    requires 0 <= j < |s| && s[j] != ';'
    ensures !OccursAt(s, Base64Marker, j)
  {
    assert j + |Base64Marker| <= |s| ==> s[j..j + |Base64Marker|][0] == s[j];
  }

  /** `data:a;base64,b;base64,c` is split at the second marker: group 1 keeps the first one. */
  lemma GreedyGroupKeepsFirstMarker(a: string, b: string, c: string)
    requires a != [] && c != []
    requires ';' !in c
    requires NoLineTerminator(a) && NoLineTerminator(b) && NoLineTerminator(c)
    ensures SplitDataUri(DataUri(InlineData(a + Base64Marker + b, c))) == Some(InlineData(a + Base64Marker + b, c))
  {
    var mime := a + Base64Marker + b;
    assert NoLineTerminator(mime) by {
      forall k | 0 <= k < |mime| ensures !IsLineTerminator(mime[k]) {
        if k < |a| {
          assert mime[k] == a[k];
        } else if k < |a| + |Base64Marker| {
          assert mime[k] == Base64Marker[k - |a|];
        } else {
          assert mime[k] == b[k - |a| - |Base64Marker|];
        }
      }
    }
    SplitDataUriRoundTrip(InlineData(mime, c));
  }

  // ---------------------------------------------------------------------
  // Parts

  /** The inline parts of the matching images, in input order. */
  function ImageParts(images: seq<string>): (ps: seq<GeminiPart>)
    ensures |ps| <= |images|
    ensures forall k :: 0 <= k < |ps| ==> ps[k].InlinePart?
  {
    if images == [] then []
    else
      var last := images[|images| - 1];
      ImageParts(images[..|images| - 1]) + (match SplitDataUri(last) case None => [] case Some(d) => [InlinePart(d)])
  }

  /** Filtering splits over concatenation: the parts keep the order of the images. */
  lemma {:induction false} ImagePartsAppend(a: seq<string>, b: seq<string>)
    ensures ImageParts(a + b) == ImageParts(a) + ImageParts(b)
    decreases |b|
  {
    if b == [] {
      assert a + b == a;
    } else {
      var n := |b| - 1;
      assert (a + b)[..|a + b| - 1] == a + b[..n];
      ImagePartsAppend(a, b[..n]);
    }
  }

  /** Each matching image yields exactly its split, each other image nothing. */
  lemma ImagePartsSingle(img: string)
    ensures SplitDataUri(img).Some? ==> ImageParts([img]) == [InlinePart(SplitDataUri(img).value)]
    ensures SplitDataUri(img).None? ==> ImageParts([img]) == []
  {
    assert [img][..0] == [];
  }

  /** When every image matches there is one inline part per image, holding its split, in order. */
  lemma {:induction false} AllMatchingImagesKept(images: seq<string>)
    requires forall i :: 0 <= i < |images| ==> SplitDataUri(images[i]).Some?
    ensures |ImageParts(images)| == |images|
    ensures forall i :: 0 <= i < |images| ==> ImageParts(images)[i] == InlinePart(SplitDataUri(images[i]).value)
  {
    if images != [] {
      var n := |images| - 1;
      var pre := images[..n];
      assert forall i :: 0 <= i < n ==> pre[i] == images[i];
      AllMatchingImagesKept(pre);
      var d := SplitDataUri(images[n]).value;
      assert ImageParts(images) == ImageParts(pre) + [InlinePart(d)];
      forall i | 0 <= i < |images| ensures ImageParts(images)[i] == InlinePart(SplitDataUri(images[i]).value) {
        if i < n {
          assert ImageParts(images)[i] == ImageParts(pre)[i];
        }
      }
    }
  }

  /** No image that fails the match contributes a part. */
  lemma {:induction false} NonMatchingImagesDropped(images: seq<string>)
    requires forall i :: 0 <= i < |images| ==> SplitDataUri(images[i]).None?
    ensures ImageParts(images) == []
  {
    if images != [] {
      NonMatchingImagesDropped(images[..|images| - 1]);
    }
  }

  /** The parts loop: one push per matching image, then the text part. */
  method BuildParts(prompt: string, referenceImages: Option<seq<string>>) returns (parts: seq<GeminiPart>)
    ensures parts == ImageParts(referenceImages.GetOr([])) + [PromptPart(prompt)]
    ensures |parts| >= 1 && parts[|parts| - 1] == PromptPart(prompt)
  {
    parts := [];
    if referenceImages.Some? && |referenceImages.value| > 0 {
      var images := referenceImages.value;
      var i := 0;
      while i < |images|
        invariant 0 <= i <= |images|
        invariant parts == ImageParts(images[..i])
      {
        var matches := SplitDataUri(images[i]);
        assert images[..i + 1][..i] == images[..i];
        if matches.Some? {
          parts := parts + [InlinePart(matches.value)];
        }
        i := i + 1;
      }
      assert images[..i] == images;
    }
    parts := parts + [PromptPart(prompt)];
  }

  /** The payload: the parts as the single content, and both image settings always present. */
  function BuildGeminiPayload(options: GenerateOptions, parts: seq<GeminiPart>): (p: GeminiPayload)
    ensures p.contents == [parts]
    ensures p.imageConfig.aspectRatio == options.aspectRatio && p.imageConfig.imageSize == options.resolution
  {
    GeminiPayload([parts], GeminiImageConfig(options.aspectRatio, options.resolution))
  }

  // ---------------------------------------------------------------------
  // Reply handling

  /** What `JSON.parse` made of a non-ok body: a throw, `null` (whose `.error` throws), or a value with an optional truthy `error.message`. */
  datatype ErrorBody = Unparsable | ParsedNull | Parsed(errorMessage: Option<string>)

  /** The message thrown for a non-ok reply. */
  function ErrorMessage(status: nat, body: string, parsed: ErrorBody): (m: string)
    ensures parsed.Parsed? && ApiPayload.Truthy(parsed.errorMessage) ==> m == parsed.errorMessage.value
    ensures parsed.Parsed? && !ApiPayload.Truthy(parsed.errorMessage) ==> m == "API Error: " + NatToString(status)
    ensures !parsed.Parsed? ==> m == "API Error: " + NatToString(status) + " - " + Take(body, 100)
  {
    var base := "API Error: " + NatToString(status);
    match parsed
    case Parsed(msg) => if ApiPayload.Truthy(msg) then msg.value else base
    case _ => base + " - " + Take(body, 100)
  }

  /** Without a server message the error names the status, and it never carries more than 100 characters of the body. */
  lemma ErrorMessageNamesStatus(status: nat, body: string, parsed: ErrorBody)
    requires !(parsed.Parsed? && ApiPayload.Truthy(parsed.errorMessage))
    ensures StartsWith(ErrorMessage(status, body, parsed), "API Error: " + NatToString(status))
    ensures |ErrorMessage(status, body, parsed)| <= |"API Error: " + NatToString(status)| + 3 + 100
    ensures !parsed.Parsed? ==> EndsWith(ErrorMessage(status, body, parsed), Take(body, 100))
    ensures !parsed.Parsed? && |body| <= 100 ==> EndsWith(ErrorMessage(status, body, parsed), body)
  {
    var base := "API Error: " + NatToString(status);
    var m := ErrorMessage(status, body, parsed);
    if !parsed.Parsed? {
      assert m == base + (" - " + Take(body, 100));
      assert m[..|base|] == base;
    } else {
      assert m == base;
    }
  }

  /** `inlineData` of a reply part, with the `data` field when present. */
  datatype InlineBlob = InlineBlob(mimeType: Option<string>, data: Option<string>)

  datatype ResponsePart = ResponsePart(inlineData: Option<InlineBlob>)

  /** `part.inlineData && part.inlineData.data` */
  predicate HasImageData(p: ResponsePart) {
    p.inlineData.Some? && ApiPayload.Truthy(p.inlineData.value.data)
  }

  /** Index of the first part with image data. */
  function FirstImageData(parts: seq<ResponsePart>): (r: Option<nat>)
    ensures r.Some? ==> r.value < |parts| && HasImageData(parts[r.value])
    ensures r.Some? ==> forall k :: 0 <= k < r.value ==> !HasImageData(parts[k])
    ensures r.None? ==> forall k :: 0 <= k < |parts| ==> !HasImageData(parts[k])
  {
    if parts == [] then None
    else if HasImageData(parts[0]) then Some(0)
    else match FirstImageData(parts[1..])
      case None => None
      case Some(k) => Some(k + 1)
  }

  /** The result for `candidates[0].content.parts` (`None` when that chain is falsy). */
  function ImageFromParts(parts: Option<seq<ResponsePart>>): (r: Result<string>)
    ensures r.Err? <==> parts.None? || FirstImageData(parts.value).None?
    ensures r.Err? ==> r.error == NoImageDataMessage
    ensures r.Ok? ==> StartsWith(r.value, PngPrefix)
  {
    match parts
    case None => Err(NoImageDataMessage)
    case Some(ps) =>
      match FirstImageData(ps)
      case None => Err(NoImageDataMessage)
      case Some(k) => Ok(PngPrefix + ps[k].inlineData.value.data.value)
  }

  /** The image is the first truthy `inlineData.data`, whatever mime type the reply names. */
  lemma FirstInlineDataWins(ps: seq<ResponsePart>, k: nat)
    requires k < |ps| && HasImageData(ps[k])
    requires forall j :: 0 <= j < k ==> !HasImageData(ps[j])
    ensures ImageFromParts(Some(ps)) == Ok(PngPrefix + ps[k].inlineData.value.data.value)
  {
    var f := FirstImageData(ps);
    assert f.Some?;
  }

  /** The extraction loop with its early return. */
  method ExtractImage(parts: Option<seq<ResponsePart>>) returns (r: Result<string>)
    ensures r == ImageFromParts(parts)
  {
    if parts.Some? {
      var ps := parts.value;
      var i := 0;
      while i < |ps|
        invariant 0 <= i <= |ps|
        invariant forall k :: 0 <= k < i ==> !HasImageData(ps[k])
      {
        var part := ps[i];
        if part.inlineData.Some? && part.inlineData.value.data.Some? && part.inlineData.value.data.value != "" {
          FirstInlineDataWins(ps, i);
          return Ok(PngPrefix + part.inlineData.value.data.value);
        }
        i := i + 1;
      }
    }
    return Err(NoImageDataMessage);
  }

  /** What the POST produced: a throw (network or reply JSON), a non-ok status, or the parsed `candidates[0].content.parts`. */
  datatype GeminiReply =
    | GeminiThrown(message: string)
    | GeminiNotOk(status: nat, body: string, parsed: ErrorBody)
    | GeminiBody(parts: Option<seq<ResponsePart>>)

  type GeminiServer = (string, GeminiPayload) -> GeminiReply

  /** The URL posted to for the trimmed key. */
  function RequestUrl(options: GenerateOptions): string {
    GeminiUrl(ApiBase(options.baseUrl), Trim(options.apiKey))
  }

  /** The payload posted: the image parts then the prompt. */
  function RequestPayload(options: GenerateOptions): GeminiPayload {
    BuildGeminiPayload(options, ImageParts(options.referenceImages.GetOr([])) + [PromptPart(options.prompt)])
  }

  /** What a reply becomes. */
  function ReplyOutcome(reply: GeminiReply): (r: Result<string>)
    ensures reply.GeminiThrown? ==> r == Err(reply.message)
    ensures reply.GeminiNotOk? ==> r == Err(ErrorMessage(reply.status, reply.body, reply.parsed))
    ensures reply.GeminiBody? ==> r == ImageFromParts(reply.parts)
  {
    match reply
    case GeminiThrown(m) => Err(m)
    case GeminiNotOk(status, body, parsed) => Err(ErrorMessage(status, body, parsed))
    case GeminiBody(parts) => ImageFromParts(parts)
  }

  /** What `generateSingleImage` returns (`Ok`) or throws (`Err`). */
  function GenerateSingleSpec(options: GenerateOptions, server: GeminiServer): Result<string> {
    if Trim(options.apiKey) == "" then Err(MissingKeyMessage)
    else ReplyOutcome(server(RequestUrl(options), RequestPayload(options)))
  }

  /** `generateSingleImage`; `server` stands for the POST. */
  method GenerateSingleImage(options: GenerateOptions, server: GeminiServer) returns (r: Result<string>)
    ensures r == GenerateSingleSpec(options, server)
  {
    var sanitizedApiKey := Trim(options.apiKey);
    if sanitizedApiKey == "" {
      return Err(MissingKeyMessage);
    }
    var apiBase := ApiBase(options.baseUrl);
    var url := GeminiUrl(apiBase, sanitizedApiKey);
    var parts := BuildParts(options.prompt, options.referenceImages);
    var payload := BuildGeminiPayload(options, parts);
    assert url == RequestUrl(options);
    assert payload == RequestPayload(options);
    r := HandleReply(server(url, payload));
  }

  /** The `try` block after the request: a failed fetch is rethrown, an error status reported, a body scanned. */
  method HandleReply(reply: GeminiReply) returns (r: Result<string>)
    ensures r == ReplyOutcome(reply)
  {
    match reply {
      case GeminiThrown(m) =>
        r := Err(m);
      case GeminiNotOk(status, body, parsed) =>
        r := Err(ErrorMessage(status, body, parsed));
      case GeminiBody(ps) =>
        r := ExtractImage(ps);
    }
  }

  /** A blank key fails before any request: the result is the same whatever the server would answer. */
  lemma BlankKeyFailsBeforeRequest(options: GenerateOptions, s1: GeminiServer, s2: GeminiServer)
    requires AllSpace(options.apiKey)
    ensures GenerateSingleSpec(options, s1) == Err(MissingKeyMessage)
    ensures GenerateSingleSpec(options, s1) == GenerateSingleSpec(options, s2)
  {
  }

  /** A successful call always answers a PNG data URI; with a usable key the outcome is that of the reply to the trimmed-key URL. */
  lemma GenerateSingleOutcome(options: GenerateOptions, server: GeminiServer)
    ensures GenerateSingleSpec(options, server).Ok? ==> StartsWith(GenerateSingleSpec(options, server).value, PngPrefix)
    ensures !AllSpace(options.apiKey) ==>
      GenerateSingleSpec(options, server) == ReplyOutcome(server(RequestUrl(options), RequestPayload(options)))
  {
  }
}

/**
 * The request body `generateImage` posts to an OpenAI-style chat-completions
 * endpoint (src/services/api.ts): endpoint and model resolution, the message
 * content whose shape depends on the number of reference images, and the
 * `image_config` / `tools` fields that depend on the model id.
 */
module ApiPayload {
  import opened Wrappers
  import opened Text

  /** `GenerateRequest` of src/types/index.ts; an optional field that is undefined is `None`. */
  datatype GenerateRequest = GenerateRequest(
    prompt: string,
    images: seq<string>,
    apikey: string,
    endpoint: string,
    model: string,
    aspectRatio: Option<string>,
    imageSize: Option<string>,
    enableGoogleSearch: bool)

  /** DEFAULT_API_ENDPOINT and DEFAULT_MODEL_ID, which come from src/config/api.ts (not part of this model). */
  datatype Defaults = Defaults(endpoint: string, modelId: string)

  datatype ContentPart = TextPart(text: string) | ImageUrlPart(url: string)

  /** `content` of the user message: the bare prompt, or a list of parts. */
  datatype MessageContent = PlainText(text: string) | PartList(parts: seq<ContentPart>)

  datatype ChatMessage = ChatMessage(role: string, content: MessageContent)

  /** `image_config`; a `None` field is a key that was never assigned. */
  datatype ImageConfig = ImageConfig(aspectRatio: Option<string>, imageSize: Option<string>)

  /** `{ google_search: {} }` */
  datatype Tool = GoogleSearch

  /** The payload record; `imageConfig` and `tools` are `None` when the key is absent. */
  datatype Payload = Payload(
    model: string,
    messages: seq<ChatMessage>,
    modalities: seq<string>,
    imageConfig: Option<ImageConfig>,
    tools: Option<seq<Tool>>)

  /** JavaScript truthiness of an optional string: defined and not empty. */
  predicate Truthy(o: Option<string>) {
    o.Some? && o.value != ""
  }

  const GeminiProImageMarker := "gemini-3-pro-image"

  /** `value?.trim() || default`: the trimmed override when it is not blank, the default otherwise. */
  function ResolveOverride(value: string, default: string): (r: string)
    ensures !AllSpace(value) ==> r == Trim(value) && r != "" && IsTrimmed(r)
    ensures AllSpace(value) ==> r == default
  {
    var t := Trim(value);
    if t != "" then t else default
  }

  /** Whitespace around an override never changes which endpoint or model is used. */
  lemma ResolveOverrideIgnoresPadding(a: string, value: string, b: string, default: string)
    requires AllSpace(a) && AllSpace(b) && IsTrimmed(value)
    ensures ResolveOverride(a + value + b, default) == ResolveOverride(value, default)
  {
    TrimPadding(a, value, b);
    TrimOfTrimmed(value);
  }

  /** `modelId.toLowerCase().includes('gemini-3-pro-image')` */
  predicate IsGemini3ProImage(modelId: string) {
    Contains(ToLower(modelId), GeminiProImageMarker)
  }

  /** The marker is found whatever the case of the model id. */
  lemma GeminiMarkerIgnoresCase(modelId: string)
    ensures IsGemini3ProImage(ToLower(modelId)) == IsGemini3ProImage(modelId)
  {
    ToLowerIdempotent(modelId);
  }

  /** The message content: the prompt alone with no reference image, otherwise a text part then one `image_url` part per image, in order. */
  function BuildContent(prompt: string, images: seq<string>): (c: MessageContent)
    ensures c.PlainText? <==> |images| == 0
    ensures |images| == 0 ==> c == PlainText(prompt)
    ensures |images| > 0 ==> c.PartList? && |c.parts| == |images| + 1 && c.parts[0] == TextPart(prompt)
    ensures c.PartList? ==> forall i :: 0 <= i < |images| ==> c.parts[i + 1] == ImageUrlPart(images[i])
  {
    if |images| == 0 then PlainText(prompt)
    else PartList([TextPart(prompt)] + seq(|images|, i requires 0 <= i < |images| => ImageUrlPart(images[i])))
  }

  /** The text carried by a content value: the bare text, or the first part's text. */
  function ContentPrompt(c: MessageContent): string {
    match c
    case PlainText(t) => t
    case PartList(ps) => if |ps| > 0 && ps[0].TextPart? then ps[0].text else ""
  }

  /** The URLs of the `image_url` parts, in order. */
  function PartUrls(ps: seq<ContentPart>): seq<string> {
    if ps == [] then []
    else (if ps[0].ImageUrlPart? then [ps[0].url] else []) + PartUrls(ps[1..])
  }

  function ContentImages(c: MessageContent): seq<string> {
    match c
    case PlainText(_) => []
    case PartList(ps) => PartUrls(ps)
  }

  lemma {:induction false} PartUrlsOfImages(images: seq<string>, ps: seq<ContentPart>)
    requires |ps| == |images|
    requires forall i :: 0 <= i < |images| ==> ps[i] == ImageUrlPart(images[i])
    ensures PartUrls(ps) == images
  {
    if ps != [] {
      PartUrlsOfImages(images[1..], ps[1..]);
    }
  }

  /** Round trip: the prompt and the reference images, in input order, can be read back from the content. */
  lemma ContentRoundTrip(prompt: string, images: seq<string>)
    ensures ContentPrompt(BuildContent(prompt, images)) == prompt
    ensures ContentImages(BuildContent(prompt, images)) == images
  {
    var c := BuildContent(prompt, images);
    if |images| > 0 {
      var ps := c.parts;
      assert PartUrls(ps) == PartUrls(ps[1..]) by {
        assert ps[0] == TextPart(prompt);
      }
      PartUrlsOfImages(images, ps[1..]);
    }
  }

  /** `image_config` as the code fills it, or `None` when it stays empty. */
  function BuildImageConfig(request: GenerateRequest, isGemini3ProImage: bool): (cfg: Option<ImageConfig>)
    ensures cfg.Some? <==> Truthy(request.aspectRatio) || (isGemini3ProImage && Truthy(request.imageSize))
    ensures cfg.Some? ==> (cfg.value.aspectRatio.Some? <==> Truthy(request.aspectRatio))
    ensures cfg.Some? ==> (cfg.value.imageSize.Some? <==> isGemini3ProImage && Truthy(request.imageSize))
    ensures cfg.Some? && cfg.value.aspectRatio.Some? ==> cfg.value.aspectRatio == request.aspectRatio
    ensures cfg.Some? && cfg.value.imageSize.Some? ==> cfg.value.imageSize == request.imageSize
  {
    var aspect := if Truthy(request.aspectRatio) then request.aspectRatio else None;
    var size := if isGemini3ProImage && Truthy(request.imageSize) then request.imageSize else None;
    if aspect.None? && size.None? then None else Some(ImageConfig(aspect, size))
  }

  /** The payload of one attempt. */
  function BuildPayload(request: GenerateRequest, defaults: Defaults): (p: Payload)
    ensures p.model == ResolveOverride(request.model, defaults.modelId)
    ensures p.messages == [ChatMessage("user", BuildContent(request.prompt, request.images))]
    ensures p.modalities == ["image", "text"]
    ensures p.imageConfig == BuildImageConfig(request, IsGemini3ProImage(p.model))
    ensures p.imageConfig.Some? <==> Truthy(request.aspectRatio) || (IsGemini3ProImage(p.model) && Truthy(request.imageSize))
    ensures p.tools.Some? <==> IsGemini3ProImage(p.model) && request.enableGoogleSearch
    ensures p.tools.Some? ==> p.tools.value == [GoogleSearch]
  {
    var modelId := ResolveOverride(request.model, defaults.modelId);
    var gemini := IsGemini3ProImage(modelId);
    Payload(
      modelId,
      [ChatMessage("user", BuildContent(request.prompt, request.images))],
      ["image", "text"],
      BuildImageConfig(request, gemini),
      if gemini && request.enableGoogleSearch then Some([GoogleSearch]) else None)
  }

  /** A model id without the marker never gets `image_size` or `tools`, whatever the request asks for. */
  lemma NonGeminiPayloadHasNoExtras(request: GenerateRequest, defaults: Defaults)
    requires !IsGemini3ProImage(ResolveOverride(request.model, defaults.modelId))
    ensures BuildPayload(request, defaults).tools.None?
    ensures BuildPayload(request, defaults).imageConfig.Some? ==> BuildPayload(request, defaults).imageConfig.value.imageSize.None?
    ensures BuildPayload(request, defaults).imageConfig.None? <==> !Truthy(request.aspectRatio)
  {
  }
}

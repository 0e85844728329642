/**
 * The attempt loop of `generateImage` (src/services/api.ts): up to
 * `maxRetries` attempts, each of which either returns the extracted image or
 * records an error as `lastError`. A refusal-looking reply is thrown inside
 * the attempt's `try`, caught like any other error, and so does not end the
 * loop early.
 */
module ApiRetry {
  import opened Wrappers
  import opened Text
  import opened ApiPayload
  import opened ApiExtract

  /**
   * What one attempt's network exchange produced:
   * `Thrown` when `fetch` or `response.json()` throws (its message),
   * `NotOk` for a non-2xx status with the body text,
   * `Json` for a parsed body, carrying `choices[0].message` when there is one (`choice`).
   */
  datatype Reply =
    | Thrown(message: string)
    | NotOk(status: nat, body: string)
    | Json(choice: Option<ApiMessage>)

  /** The remote endpoint: the reply to the given endpoint and payload on the given attempt. */
  type Server = (string, Payload, int) -> Reply

  /** How one attempt ends: with an image, or with the error that becomes `lastError`. */
  datatype AttemptResult = Image(url: string) | Failure(error: string)

  const ShortTextLimit := 200

  /** The default of `generateImage`'s `maxRetries` parameter. */
  const DefaultMaxRetries := 5

  const RejectionKeywords: seq<string> := [
    "cannot", "can't", "unable", "not able", "refuse", "rejected",
    "inappropriate", "against policy", "violate", "violation",
    "not allowed", "not permitted", "ethical", "safety",
    "sorry", "apologize", "i cannot", "i can't", "i am unable",
    "无法", "不能", "拒绝", "违反", "不允许", "不合适",
    "抱歉", "对不起", "政策", "规则", "安全", "道德"
  ]

  const RefusalPrefix := "模型拒绝生成图片: "
  const TextInsteadPrefix := "模型返回了文本而非图片: "
  const NoImageMessage := "模型未返回有效图片"
  const InvalidResponseMessage := "Invalid response from API"
  const UnknownError := "未知错误"

  /** The lower-cased text contains one of the keywords. */
  predicate ContainsRejection(text: string) {
    exists k | k in RejectionKeywords :: Contains(ToLower(text), k)
  }

  /** A reply the source takes for a refusal: non-blank, shorter than 200 characters, with a keyword. */
  predicate IsRefusal(text: string) {
    !AllSpace(text) && |text| < ShortTextLimit && ContainsRejection(text)
  }

  /** The error recorded for a message that carried no image. */
  function NoImageError(content: Option<string>): (e: string)
    ensures content.Some? && !AllSpace(content.value) && IsRefusal(content.value) ==> e == RefusalPrefix + content.value
    ensures content.Some? && !AllSpace(content.value) && !IsRefusal(content.value) ==> e == TextInsteadPrefix + content.value
    ensures (content.None? || AllSpace(content.value)) ==> e == NoImageMessage
  {
    var text := content.GetOr("");
    if Trim(text) != "" then
      if |text| < ShortTextLimit && ContainsRejection(text) then RefusalPrefix + text else TextInsteadPrefix + text
    else NoImageMessage
  }

  /** What one attempt yields, from its reply. */
  function AttemptOutcome(reply: Reply): AttemptResult {
    match reply
    case Thrown(m) => Failure(m)
    case NotOk(status, body) => Failure("API error " + NatToString(status) + ": " + body)
    case Json(None) => Failure(InvalidResponseMessage)
    case Json(Some(m)) =>
      match ExtractedImage(m)
      case Some(u) => Image(u)
      case None => Failure(NoImageError(m.content))
  }

  /** The final error: the attempt budget and the last error's message, or `未知错误` when there is none. */
  function ExhaustedMessage(maxRetries: int, lastError: Option<string>): (msg: string)
    ensures lastError.Some? && lastError.value != "" ==>
      msg == "在 " + IntToString(maxRetries) + " 次尝试后仍未能生成图片。最后错误: " + lastError.value
    ensures lastError.None? || lastError.value == "" ==>
      msg == "在 " + IntToString(maxRetries) + " 次尝试后仍未能生成图片。最后错误: " + UnknownError
  {
    var detail := if lastError.Some? && lastError.value != "" then lastError.value else UnknownError;
    "在 " + IntToString(maxRetries) + " 次尝试后仍未能生成图片。最后错误: " + detail
  }

  /** The outcome of attempt `attempt` against a server. */
  function OutcomeAt(server: Server, endpoint: string, payload: Payload, attempt: int): AttemptResult {
    AttemptOutcome(server(endpoint, payload, attempt))
  }

  /** The loop from attempt `attempt` on, with `lastError` recorded so far. */
  function RunAttempts(server: Server, endpoint: string, payload: Payload, attempt: int, maxRetries: int, lastError: Option<string>): Result<string>
    decreases maxRetries - attempt
  {
    if attempt > maxRetries then Err(ExhaustedMessage(maxRetries, lastError))
    else
      match OutcomeAt(server, endpoint, payload, attempt)
      case Image(u) => Ok(u)
      case Failure(e) => RunAttempts(server, endpoint, payload, attempt + 1, maxRetries, Some(e))
  }

  /** The result of `generateImage(request, maxRetries)`: the request is the same on every attempt. */
  function GenerateSpec(request: GenerateRequest, defaults: Defaults, maxRetries: int, server: Server): Result<string> {
    RunAttempts(server, ResolveOverride(request.endpoint, defaults.endpoint), BuildPayload(request, defaults), 1, maxRetries, None)
  }

  /** One step of the loop: an image ends it, a failure moves to the next attempt with that error. */
  lemma RunStep(server: Server, endpoint: string, payload: Payload, attempt: int, maxRetries: int, lastError: Option<string>)
    requires attempt <= maxRetries
    ensures var o := OutcomeAt(server, endpoint, payload, attempt);
      RunAttempts(server, endpoint, payload, attempt, maxRetries, lastError)
      == if o.Image? then Ok(o.url) else RunAttempts(server, endpoint, payload, attempt + 1, maxRetries, Some(o.error))
  {
  }

  /** The body of one attempt, from the reply it received to its image or its recorded error. */
  method Attempt(reply: Reply) returns (outcome: AttemptResult)
    ensures outcome == AttemptOutcome(reply)
  {
    match reply {
      case Thrown(m) =>
        outcome := Failure(m);
      case NotOk(status, body) =>
        outcome := Failure("API error " + NatToString(status) + ": " + body);
      case Json(None) =>
        outcome := Failure(InvalidResponseMessage);
      case Json(Some(message)) =>
        var imageUrl := ExtractImageUrl(message);
        if imageUrl.Some? {
          return Image(imageUrl.value);
        }
        // a text reply, a refusal or an empty message: the error recorded as `lastError`
        outcome := Failure(NoImageError(message.content));
    }
  }

  /** The attempt loop; each attempt re-resolves the endpoint and rebuilds the payload, as the source does. */
  method GenerateImage(request: GenerateRequest, defaults: Defaults, maxRetries: int, server: Server) returns (result: Result<string>)
    ensures result == GenerateSpec(request, defaults, maxRetries, server)
  {
    ghost var endpoint0 := ResolveOverride(request.endpoint, defaults.endpoint);
    ghost var payload0 := BuildPayload(request, defaults);
    ghost var spec := RunAttempts(server, endpoint0, payload0, 1, maxRetries, None);
    var lastError: Option<string> := None;
    var attempt := 1;
    while attempt <= maxRetries
      invariant attempt >= 1
      invariant RunAttempts(server, endpoint0, payload0, attempt, maxRetries, lastError) == spec
      decreases maxRetries - attempt
    {
      var apiEndpoint := ResolveOverride(request.endpoint, defaults.endpoint);
      var payload := BuildPayload(request, defaults);
      var outcome := Attempt(server(apiEndpoint, payload, attempt));
      RunStep(server, endpoint0, payload0, attempt, maxRetries, lastError);
      if outcome.Image? {
        return Ok(outcome.url);
      }
      lastError := Some(outcome.error);
      attempt := attempt + 1;
    }
    result := Err(ExhaustedMessage(maxRetries, lastError));
  }

  /** `generateImage(request)` with `maxRetries` omitted: five attempts. */
  method GenerateImageWithDefaultBudget(request: GenerateRequest, defaults: Defaults, server: Server) returns (result: Result<string>)
    ensures result == GenerateSpec(request, defaults, 5, server)
  {
    result := GenerateImage(request, defaults, DefaultMaxRetries, server);
  }

  /** With the default budget the final error reads `在 5 次尝试后…`. */
  lemma DefaultBudgetMessage(lastError: Option<string>)
    ensures ExhaustedMessage(DefaultMaxRetries, lastError)
         == "在 5 次尝试后仍未能生成图片。最后错误: " + (if lastError.Some? && lastError.value != "" then lastError.value else UnknownError)
  {
    assert IntToString(DefaultMaxRetries) == "5" by {
      assert DigitChar(5) == '5';
    }
  }

  /** The attempts in `[from, to]` all failed. */
  predicate AllFail(server: Server, endpoint: string, payload: Payload, from: int, to: int) {
    forall k :: from <= k <= to ==> OutcomeAt(server, endpoint, payload, k).Failure?
  }

  /** Success: the loop returns the image of the first attempt that yields one, if it is within the budget. */
  lemma {:induction false} RunReturnsFirstImage(server: Server, endpoint: string, payload: Payload, attempt: int, maxRetries: int, lastError: Option<string>, k: int)
    requires attempt <= k <= maxRetries
    requires AllFail(server, endpoint, payload, attempt, k - 1)
    requires OutcomeAt(server, endpoint, payload, k).Image?
    ensures RunAttempts(server, endpoint, payload, attempt, maxRetries, lastError) == Ok(OutcomeAt(server, endpoint, payload, k).url)
    decreases k - attempt
  {
    if attempt < k {
      var e := OutcomeAt(server, endpoint, payload, attempt).error;
      RunReturnsFirstImage(server, endpoint, payload, attempt + 1, maxRetries, Some(e), k);
    }
  }

  /** Exhaustion: when every attempt fails, the error names `maxRetries` and the last attempt's error. */
  lemma {:induction false} RunExhausts(server: Server, endpoint: string, payload: Payload, attempt: int, maxRetries: int, lastError: Option<string>)
    requires attempt <= maxRetries
    requires AllFail(server, endpoint, payload, attempt, maxRetries)
    ensures RunAttempts(server, endpoint, payload, attempt, maxRetries, lastError)
         == Err(ExhaustedMessage(maxRetries, Some(OutcomeAt(server, endpoint, payload, maxRetries).error)))
    decreases maxRetries - attempt
  {
    var e := OutcomeAt(server, endpoint, payload, attempt).error;
    if attempt < maxRetries {
      RunExhausts(server, endpoint, payload, attempt + 1, maxRetries, Some(e));
    }
  }

  /** Bounded: attempts beyond `maxRetries` are never made, so servers that agree on `1..maxRetries` give the same result. */
  lemma {:induction false} RunOnlyUsesBudget(s1: Server, s2: Server, endpoint: string, payload: Payload, attempt: int, maxRetries: int, lastError: Option<string>)
    requires forall k :: attempt <= k <= maxRetries ==> s1(endpoint, payload, k) == s2(endpoint, payload, k)
    ensures RunAttempts(s1, endpoint, payload, attempt, maxRetries, lastError) == RunAttempts(s2, endpoint, payload, attempt, maxRetries, lastError)
    decreases maxRetries - attempt
  {
    if attempt <= maxRetries {
      var e := OutcomeAt(s1, endpoint, payload, attempt);
      if e.Failure? {
        RunOnlyUsesBudget(s1, s2, endpoint, payload, attempt + 1, maxRetries, Some(e.error));
      }
    }
  }

  /** The whole call succeeds exactly when some attempt within the budget yields an image, and then returns the first one. */
  lemma GenerateSucceedsOnFirstImage(request: GenerateRequest, defaults: Defaults, maxRetries: int, server: Server, k: int)
    requires 1 <= k <= maxRetries
    requires AllFail(server, ResolveOverride(request.endpoint, defaults.endpoint), BuildPayload(request, defaults), 1, k - 1)
    requires OutcomeAt(server, ResolveOverride(request.endpoint, defaults.endpoint), BuildPayload(request, defaults), k).Image?
    ensures GenerateSpec(request, defaults, maxRetries, server)
         == Ok(OutcomeAt(server, ResolveOverride(request.endpoint, defaults.endpoint), BuildPayload(request, defaults), k).url)
  {
    RunReturnsFirstImage(server, ResolveOverride(request.endpoint, defaults.endpoint), BuildPayload(request, defaults), 1, maxRetries, None, k);
  }

  lemma GenerateFailsWhenAllAttemptsFail(request: GenerateRequest, defaults: Defaults, maxRetries: int, server: Server)
    requires 1 <= maxRetries
    requires AllFail(server, ResolveOverride(request.endpoint, defaults.endpoint), BuildPayload(request, defaults), 1, maxRetries)
    ensures GenerateSpec(request, defaults, maxRetries, server)
         == Err(ExhaustedMessage(maxRetries, Some(OutcomeAt(server, ResolveOverride(request.endpoint, defaults.endpoint), BuildPayload(request, defaults), maxRetries).error)))
  {
    RunExhausts(server, ResolveOverride(request.endpoint, defaults.endpoint), BuildPayload(request, defaults), 1, maxRetries, None);
  }

  /** With no attempt allowed nothing is sent and the error reports `未知错误`. */
  lemma GenerateWithoutBudget(request: GenerateRequest, defaults: Defaults, maxRetries: int, server: Server)
    requires maxRetries < 1
    ensures GenerateSpec(request, defaults, maxRetries, server) == Err(ExhaustedMessage(maxRetries, None))
    ensures ExhaustedMessage(maxRetries, None) == "在 " + IntToString(maxRetries) + " 次尝试后仍未能生成图片。最后错误: " + UnknownError
  {
    var endpoint, payload := ResolveOverride(request.endpoint, defaults.endpoint), BuildPayload(request, defaults);
    assert RunAttempts(server, endpoint, payload, 1, maxRetries, None) == Err(ExhaustedMessage(maxRetries, None));
  }

  /** A non-2xx reply on an attempt within the budget moves on to the next attempt, recording the status and body. */
  lemma HttpErrorIsRetried(server: Server, endpoint: string, payload: Payload, attempt: int, maxRetries: int,
                           lastError: Option<string>, status: nat, body: string)
    requires attempt <= maxRetries && server(endpoint, payload, attempt) == NotOk(status, body)
    ensures RunAttempts(server, endpoint, payload, attempt, maxRetries, lastError)
         == RunAttempts(server, endpoint, payload, attempt + 1, maxRetries, Some("API error " + NatToString(status) + ": " + body))
  {
    RunStep(server, endpoint, payload, attempt, maxRetries, lastError);
  }

  /** A refusal is only an error message: it is recorded and the next attempt still runs. */
  lemma RefusalDoesNotStopRetries(server: Server, endpoint: string, payload: Payload, maxRetries: int, text: string, url: string)
    requires 2 <= maxRetries
    requires IsRefusal(text) && !Contains(text, DataImagePrefix)
    requires server(endpoint, payload, 1) == Json(Some(ApiMessage(Some(text), [])))
    requires server(endpoint, payload, 2) == Json(Some(ApiMessage(None, [ImageEntry(Some(url))])))
    requires url != ""
    ensures OutcomeAt(server, endpoint, payload, 1) == Failure(RefusalPrefix + text)
    ensures RunAttempts(server, endpoint, payload, 1, maxRetries, None) == Ok(url)
  {
    var refusal, image := ApiMessage(Some(text), []), ApiMessage(None, [ImageEntry(Some(url))]);
    assert OutcomeAt(server, endpoint, payload, 1) == Failure(RefusalPrefix + text) by {
      NoDataUriNoImage(refusal);
      assert NoImageError(refusal.content) == RefusalPrefix + text;
      assert AttemptOutcome(Json(Some(refusal))) == Failure(NoImageError(refusal.content));
    }
    assert OutcomeAt(server, endpoint, payload, 2) == Image(url) by {
      StructuredImageWins(image);
      assert AttemptOutcome(Json(Some(image))) == Image(url);
    }
    RunStep(server, endpoint, payload, 1, maxRetries, None);
    RunStep(server, endpoint, payload, 2, maxRetries, Some(RefusalPrefix + text));
  }

  /**
   * Any short text with `cannot` in it is a refusal, wherever the word
   * appears and whatever surrounds it.
   */
  lemma CannotIsRefusal(a: string, b: string)
    requires |a| + |b| + 6 < ShortTextLimit
    ensures IsRefusal(a + "cannot" + b)
  {
    var text := a + "cannot" + b;
    assert text[|a|] == 'c' && !IsSpace(text[|a|]);
    var lower := ToLower(text);
    forall i | |a| <= i < |a| + 6 ensures lower[i] == text[i] {
      assert text[i] == "cannot"[i - |a|];
    }
    assert lower[|a|..|a| + 6] == "cannot";
    assert OccursAt(lower, "cannot", |a|);
    assert Contains(lower, RejectionKeywords[0]);
  }
}

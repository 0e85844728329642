# Nano Banana / Giga-Peach image client: a Dafny model

This project models the core of an image-generation web client, covering the
nano-banana Vue app and its Giga-Peach React sibling. The model covers:

* **The OpenAI-compatible API client** (`src/services/api.ts`).
  * `generateImage` builds a chat-completions payload from a request. It sends
    the payload up to `maxRetries` times.
  * It pulls an image out of each reply in four ways, in order: the structured
    `images` field, a bare `data:image/` content, a Markdown image, or a bare
    data URI inside text.
  * It turns text-only replies into "refused" or "text instead of an image"
    errors. When every attempt fails it reports the last error.
  * `fetchModels` and `resolveModelsEndpoint` derive the `/models` URL from a
    chat-completions endpoint and read the model list from it.
* **The Gemini client** (`services/gemini.ts`). `generateSingleImage` does the
  following, in order:
  1. checks the API key;
  2. builds the `generateContent` URL;
  3. splits reference data URIs into inline parts;
  4. builds the payload;
  5. maps HTTP errors to messages;
  6. takes the first inline image of the first candidate.
* **Browser key–value storage** (`src/utils/storage.ts`). The `LocalStorage`
  class keeps settings strings, the per-endpoint model cache (keys normalised
  by trimming, dropping one trailing slash and lower-casing), the custom
  prompts and the provider configurations.
* **The IndexedDB gallery and preset stores** (`services/storage.ts`):
  * put, delete and clear;
  * the newest-first listing through the `timestamp` index;
  * the cursor-based page below a timestamp;
  * seeding of the default presets (`constants.ts`) into an empty preset store.
* **The v1 → v2 migration** (`src/utils/migration.ts`). It turns custom
  prompts into presets once, guarded by a flag.
* **The theme state** (`src/composables/useTheme.ts`): the three-mode cycle,
  the effective theme, and once-only initialisation from the stored value.

## How the model is built

Pure logic is written as functions with contracts. Code that changes state is
written as methods, each proved against those functions:

* the retry loop, the endpoint rewrite, the part builder and the reply scan;
* the migration loop, the paginating cursor and the preset seeding loop;
* the methods of the `LocalStorage`, `GalleryDb`, `PresetTable` and
  `ThemeState` classes.

Everything outside the program's own logic is a parameter:

* the network: a function from endpoint, payload and attempt number to a reply;
* JSON decoding: the decoded shape is a datatype;
* WHATWG URL parsing: an optional parsed URL;
* the stored values that `JSON.parse` and the store return;
* which `addPreset` call throws.

No request streams its reply: each call waits for one whole response.

The object store is modelled as a sequence of rows ordered by (index key,
primary key). The gallery is indexed by `timestamp`. The preset store is
listed in primary-key order.

## Where the code and its own texts disagree

* `generateImage` keeps retrying after a refusal. The comment at
  `src/services/api.ts:147` says that a refusal stops the retries to save
  tokens. In fact the refusal is thrown inside the `try` at
  `src/services/api.ts:148-149`, and the retry loop catches it at
  `src/services/api.ts:162-174`. So a refusal changes only the error message.
  The lemma `ApiRetry.RefusalDoesNotStopRetries` shows a refusal followed by a
  successful retry.
* `generateImage` resolves to `{ imageUrl }`, which holds one URL
  (`src/services/api.ts:117`). Its declared type is `Promise<GenerateResponse>`
  (`src/services/api.ts:4`), but `GenerateResponse` declares a field
  `imageUrls: string[]` (`src/types/index.ts:97-99`) that this object lacks.
  `generateSingleImage` resolves to one string (`services/gemini.ts:14`).
  Both models return that one URL.
* `initTheme` calls `LocalStorage.getTheme()` (`src/composables/useTheme.ts:53`).
  The `LocalStorage` class of `src/utils/storage.ts:4-216` defines no
  `getTheme` and no `saveTheme`, although the watcher at
  `src/composables/useTheme.ts:47` calls `saveTheme`. So initialisation
  throws on every call, and the state is never marked initialised. This is
  a finding, listed below. `Theme.InitStepAsWritten` models the code as
  written. `Theme.InitStep` and `Theme.ThemeState.InitTheme` model the
  intended behaviour, with the stored theme as a parameter standing for the
  missing accessor.

## Model

| member | source | states |
|---|---|---|
| ApiPayload.ResolveOverride | src/services/api.ts:11-12 | a non-blank override is used trimmed; a blank or whitespace-only one falls back to the configured default |
| ApiPayload.ResolveOverrideIgnoresPadding | src/services/api.ts:11-12 | surrounding whitespace on an override never changes the chosen value |
| ApiPayload.GeminiMarkerIgnoresCase | src/services/api.ts:15 | the gemini-3-pro-image check is case-insensitive |
| ApiPayload.BuildContent | src/services/api.ts:20-28 | content is the plain prompt exactly when there are no images, else a text part followed by one image_url part per image, in order |
| ApiPayload.ContentRoundTrip | src/services/api.ts:20-28 | the prompt and the image list can be read back from the built content unchanged |
| ApiPayload.BuildImageConfig | src/services/api.ts:44-58 | image_config is present iff an aspect ratio is given or (gemini-3-pro-image and an image size is given); each field is present iff its condition holds, with the request's value |
| ApiPayload.BuildPayload | src/services/api.ts:30-63 | payload has the resolved model, one user message with the built content, modalities image+text, exactly the image_config that `BuildImageConfig` gives for the resolved model (present iff an aspect ratio is truthy or gemini-3-pro-image has a truthy size; each field present iff its condition holds, with the request's value), and the google_search tool iff gemini-3-pro-image with search enabled |
| ApiPayload.NonGeminiPayloadHasNoExtras | src/services/api.ts:30-63 | a model id without the `gemini-3-pro-image` marker never gets `image_size` or `tools`, and has an `image_config` exactly when an aspect ratio is truthy |
| ApiExtract.StructuredImage | src/services/api.ts:90-92 | an image is found iff the first `images` entry has a non-empty url, and it is that url |
| ApiExtract.DirectDataUri | src/services/api.ts:95-97 | content is taken whole iff it starts with `data:image/` |
| ApiExtract.FirstMarkdown | src/services/api.ts:100-101 | the position found is the leftmost at which the Markdown pattern matches, and no match exists when it is past the end |
| ApiExtract.MarkdownFrom | src/services/api.ts:100-105 | the Markdown probe finds the leftmost match of the Markdown image pattern, or proves none exists |
| ApiExtract.FirstBare | src/services/api.ts:108-109 | the position found is the leftmost at which the bare-URI pattern matches, and no match exists when it is past the end |
| ApiExtract.BareFrom | src/services/api.ts:108-113 | the bare-URI probe finds the leftmost `data:image/` followed by at least one base64 URI character, or proves none exists |
| ApiExtract.BareCaptureShape | src/services/api.ts:109 | the captured bare URI starts at the match, begins with `data:image/` and consists of the greedy run of allowed characters |
| ApiExtract.ExtractImageUrl | src/services/api.ts:86-113 | the extraction method returns what the four probes in order give |
| ApiExtract.ExtractedImage | src/services/api.ts:86-113 | the specification of the probe chain: the structured url, else the whole content if it is a data URI, else the Markdown capture, else the bare capture |
| ApiExtract.TextProbesYieldDataUris | src/services/api.ts:95-113 | an image found in text is a `data:image/` URI occurring in the content |
| ApiExtract.MarkdownTailShape | src/services/api.ts:101 | the Markdown capture starts `data:image/`, is longer than that prefix, holds no `)` and sits between `](` and `)` in the content |
| ApiExtract.MarkdownCaptureOccurs | src/services/api.ts:100-105 | the Markdown capture is a `data:image/` URI occurring in the content |
| ApiExtract.BareCaptureOccurs | src/services/api.ts:108-113 | the bare capture is a `data:image/` URI occurring in the content |
| ApiExtract.BareFallbackFindsImage | src/services/api.ts:108-113 | any `data:image/` followed by an allowed character in the content guarantees an image is extracted |
| ApiExtract.NoDataUriNoImage | src/services/api.ts:86-113 | without a structured image and without `data:image/` in the content, nothing is extracted |
| ApiExtract.StructuredImageWins | src/services/api.ts:90-92 | a structured image takes precedence over anything in the text |
| ApiRetry.NoImageError | src/services/api.ts:121-154 | a non-blank text reply is a refusal error (short text and rejection keyword) or a text-instead error carrying the text; no text gives the no-image error |
| ApiRetry.IsRefusal | src/services/api.ts:127-146 | the refusal test: the text is not blank, is shorter than 200 characters and, lower-cased, contains one of the 31 `RejectionKeywords` of the rejection list |
| ApiRetry.AttemptOutcome | src/services/api.ts:64-154 | the specification of one attempt: a thrown error, `API error <status>: <body>`, the invalid-response error, the extracted image, or the no-image error of the message |
| ApiRetry.RunAttempts | src/services/api.ts:7-178 | the specification of the loop from a given attempt on: the first image within the budget, else the exhaustion error with the last recorded error |
| ApiRetry.GenerateSpec | src/services/api.ts:4-179 | the specification `GenerateImage` is proved equal to: the loop from attempt 1 with no error, against the resolved endpoint and the built payload |
| ApiRetry.ExhaustedMessage | src/services/api.ts:178 | the final error names the retry count and the last error, or the unknown-error text when there is none |
| ApiRetry.GenerateImage | src/services/api.ts:4-179 | the retry loop returns exactly what the attempt-by-attempt specification gives |
| ApiRetry.GenerateImageWithDefaultBudget | src/services/api.ts:4 | omitting `maxRetries` means a budget of five attempts |
| ApiRetry.DefaultBudgetMessage | src/services/api.ts:4-178 | with the default budget the final error names 5 attempts and the last error, or `未知错误` |
| ApiRetry.RunReturnsFirstImage | src/services/api.ts:7-118 | when attempts before k all fail and attempt k yields an image, that image is the result |
| ApiRetry.RunExhausts | src/services/api.ts:7-178 | when every attempt in the budget fails, the result is the exhaustion error carrying the last attempt's message |
| ApiRetry.RunOnlyUsesBudget | src/services/api.ts:7 | replies beyond the retry budget have no influence on the result |
| ApiRetry.GenerateSucceedsOnFirstImage | src/services/api.ts:4-118 | generateImage returns the first image any attempt yields |
| ApiRetry.GenerateFailsWhenAllAttemptsFail | src/services/api.ts:4-178 | generateImage fails with the exhaustion message when all attempts fail |
| ApiRetry.GenerateWithoutBudget | src/services/api.ts:7-178 | a budget below one sends nothing and reports the unknown error |
| ApiRetry.HttpErrorIsRetried | src/services/api.ts:73-174 | a non-ok response on an attempt within the budget is caught and the loop moves on to the next attempt with `API error <status>: <body>` as the last error |
| Text.NatToString | src/services/api.ts:76 | the status is written as its decimal digits, denoting the number, with no leading zero |
| ApiRetry.RefusalDoesNotStopRetries | src/services/api.ts:127-174 | a refusal is a failure with the refusal message, and a later attempt can still succeed |
| ApiRetry.CannotIsRefusal | src/services/api.ts:127-148 | any text shorter than 200 characters that contains `cannot` is classified as a refusal |
| ApiRetry.Attempt | src/services/api.ts:64-154 | one attempt's outcome is the specified attempt outcome: thrown error, HTTP error with status and body, invalid response, extracted image or no-image error |
| ApiRetry.RunStep | src/services/api.ts:7-174 | one turn of the retry loop stops with an image or carries the attempt's error into the next attempt |
| ModelsEndpoint.SlashIndex | src/services/api.ts:211 | the index found is the first `/`, or the end |
| ModelsEndpoint.Segments | src/services/api.ts:211 | splitting on `/` and dropping empties yields only non-empty slash-free segments |
| ModelsEndpoint.SegmentsOfPathname | src/services/api.ts:211-236 | splitting a joined pathname gives back its segments |
| ModelsEndpoint.RewriteSegments | src/services/api.ts:213-234 | the rewritten path always ends in `models` and keeps a prefix of the original segments |
| ModelsEndpoint.ResolveModelsEndpoint | src/services/api.ts:208-242 | the method, which edits its segments and writes the path through the `pathname` setter, returns the specified models URL: an endpoint whose path is not hierarchical comes back unchanged |
| ModelsEndpoint.EditSegments | src/services/api.ts:224-234 | the pop, index assignment and push on the segments array give exactly the specified rewrite |
| ModelsEndpoint.SetPathname | src/services/api.ts:215-236 | the `pathname` setter replaces the path of a URL with a hierarchical path and keeps its origin and query; a URL without one is left as it is |
| ModelsEndpoint.ModelsPathname | src/services/api.ts:211-234 | the specification of the path rewrite: a path ending in `models` is kept, any other is rebuilt from its rewritten segments |
| ModelsEndpoint.ModelsUrl | src/services/api.ts:208-238 | the specification of `resolveModelsEndpoint`: the fallback for an unparsable endpoint, else the parsed URL with its path rewritten through the `pathname` setter, which leaves a URL without a hierarchical path unchanged |
| ModelsEndpoint.ModelsUrlEndsInModels | src/services/api.ts:208-237 | a parseable endpoint with a hierarchical path keeps its origin and query and only its path changes, to one whose last segment is `models`; one without a hierarchical path comes back unchanged |
| ModelsEndpoint.OpaquePathIsKept | src/services/api.ts:208-237 | an endpoint without a hierarchical path is its own models URL |
| ModelsEndpoint.SchemelessHostKeepsChatEndpoint | src/services/api.ts:208-237 | an endpoint typed without its scheme, as `localhost:8080/v1/chat/completions`, is returned unchanged as the models URL, although its rewritten path would end in `models` |
| ModelsEndpoint.FallbackAppendsModels | src/services/api.ts:238-241 | an unparseable endpoint loses one trailing slash and gains `/models` |
| ModelsEndpoint.ChatCompletionsBecomesModels | src/services/api.ts:224-234 | `…/chat/completions` (or `…/chat/complete`, `…/chat/generate`) becomes `…/models` |
| ModelsEndpoint.RewrittenPathEndsInModels | src/services/api.ts:224-236 | the rewritten path's last segment is `models` |
| ModelsEndpoint.ModelsPathnameOfSegments | src/services/api.ts:224-236 | a path already ending in `models` is kept and any other path is rewritten segment by segment |
| ModelsEndpoint.ChatRewrite | src/services/api.ts:224-231 | the segment rewrite replaces `chat` + completion by `models` |
| ModelsEndpoint.OtherPathGetsModels | src/services/api.ts:232-234 | any other path gets `models` appended |
| ModelsEndpoint.ModelsPathIsKept | src/services/api.ts:220-222 | a path already ending in `models` is unchanged |
| ModelsEndpoint.SelectModels | src/services/api.ts:199 | `data` wins when it is an array, else `models` when it is an array, else nothing |
| ModelsEndpoint.ModelsOutcome | src/services/api.ts:193-205 | a non-empty selected list is returned as is; a thrown fetch is rethrown with its message; a non-ok status and an empty list are errors with the app's messages; success happens only for a non-empty list |
| ModelsEndpoint.FetchModels | src/services/api.ts:181-206 | fetchModels queries the resolved models URL of the trimmed-or-default endpoint and returns its outcome |
| ModelsEndpoint.HandleModelsReply | src/services/api.ts:193-205 | the reply handling returns the specified outcome: the thrown error, the status error, the empty-list error, or the selected list |
| GeminiService.ApiBase | Giga-Peach-main/Giga-Peach-main/services/gemini.ts:24 | a non-blank base URL is used trimmed, otherwise the Google endpoint |
| GeminiService.ApiBaseIgnoresPadding | Giga-Peach-main/Giga-Peach-main/services/gemini.ts:24 | surrounding whitespace on the base URL is ignored; a blank one selects the default |
| GeminiService.GeminiUrlShape | Giga-Peach-main/Giga-Peach-main/services/gemini.ts:26 | the URL is base, `/v1beta/models/`, the model name, `:generateContent?key=` and the key |
| GeminiService.SplitDataUri | Giga-Peach-main/Giga-Peach-main/services/gemini.ts:35-42 | a reference image matches iff it starts `data:`, has no line terminator and has a `;base64,` with non-empty sides; the split is at the last such marker |
| GeminiService.LastSplitAtMost | Giga-Peach-main/Giga-Peach-main/services/gemini.ts:35 | the search returns the greatest split point up to the bound, or shows there is none |
| GeminiService.SplitDataUriRoundTrip | Giga-Peach-main/Giga-Peach-main/services/gemini.ts:35-42 | splitting `data:<mime>;base64,<data>` gives back the MIME type and the data |
| GeminiService.SplitAtLast | Giga-Peach-main/Giga-Peach-main/services/gemini.ts:35-42 | a `data:` string without line terminators whose last split is at a given marker yields the text between `data:` and the marker as MIME type and the rest as data |
| GeminiService.LastSplitIs | Giga-Peach-main/Giga-Peach-main/services/gemini.ts:35 | a `;base64,` split with no later split is the one the greedy pattern takes |
| GeminiService.DataUriSplitsAfterMime | Giga-Peach-main/Giga-Peach-main/services/gemini.ts:35 | `data:<mime>;base64,<data>` splits right after the MIME type and nowhere later when the data has no `;` |
| GeminiService.DataUriNoLineTerminator | Giga-Peach-main/Giga-Peach-main/services/gemini.ts:35 | a data URI built from a MIME type and data without line terminators has none either |
| GeminiService.GreedyGroupKeepsFirstMarker | Giga-Peach-main/Giga-Peach-main/services/gemini.ts:35 | the greedy first group absorbs any earlier `;base64,` into the MIME type |
| GeminiService.ImageParts | Giga-Peach-main/Giga-Peach-main/services/gemini.ts:31-45 | image parts are all inline parts, at most one per reference image |
| GeminiService.ImagePartsAppend | Giga-Peach-main/Giga-Peach-main/services/gemini.ts:32-44 | images are converted one at a time, in order |
| GeminiService.AllMatchingImagesKept | Giga-Peach-main/Giga-Peach-main/services/gemini.ts:32-44 | when every reference image matches, each becomes its own inline part in order |
| GeminiService.NonMatchingImagesDropped | Giga-Peach-main/Giga-Peach-main/services/gemini.ts:36 | images that do not match are silently dropped |
| GeminiService.BuildParts | Giga-Peach-main/Giga-Peach-main/services/gemini.ts:28-48 | the parts are the converted images followed by the prompt text, last |
| GeminiService.BuildGeminiPayload | Giga-Peach-main/Giga-Peach-main/services/gemini.ts:50-62 | one content holding the parts, and the aspect ratio and resolution in imageConfig |
| GeminiService.ErrorMessage | Giga-Peach-main/Giga-Peach-main/services/gemini.ts:73-85 | a JSON error message wins; parsed JSON without one gives the status; unparsable text gives status and the first 100 characters |
| GeminiService.ErrorMessageNamesStatus | Giga-Peach-main/Giga-Peach-main/services/gemini.ts:75-83 | fallback messages start with the status and are bounded in length, ending with the truncated body |
| GeminiService.FirstImageData | Giga-Peach-main/Giga-Peach-main/services/gemini.ts:93-97 | the scan finds the first part with inline data, or shows there is none |
| GeminiService.ImageFromParts | Giga-Peach-main/Giga-Peach-main/services/gemini.ts:88-100 | a PNG data URI when some part has inline data, otherwise the no-image error |
| GeminiService.FirstInlineDataWins | Giga-Peach-main/Giga-Peach-main/services/gemini.ts:93-95 | the first part with inline data is the one returned |
| GeminiService.ExtractImage | Giga-Peach-main/Giga-Peach-main/services/gemini.ts:88-100 | the scanning method returns what the specification gives |
| GeminiService.ReplyOutcome | Giga-Peach-main/Giga-Peach-main/services/gemini.ts:64-104 | a thrown fetch is rethrown, a non-ok reply gives the error message, a body gives its image |
| GeminiService.GenerateSingleImage | Giga-Peach-main/Giga-Peach-main/services/gemini.ts:14-105 | the method returns exactly the specified outcome |
| GeminiService.GenerateSingleSpec | Giga-Peach-main/Giga-Peach-main/services/gemini.ts:14-105 | the specification of `generateSingleImage`: a blank key fails before any request, else the outcome of the reply to the built URL and payload |
| GeminiService.HandleReply | Giga-Peach-main/Giga-Peach-main/services/gemini.ts:64-104 | the reply handling returns the specified outcome: the thrown error, the HTTP error message, the first inline image as a PNG data URI, or the no-image error |
| GeminiService.BlankKeyFailsBeforeRequest | Giga-Peach-main/Giga-Peach-main/services/gemini.ts:18-21 | a blank key fails with the key error whatever the server would do |
| GeminiService.GenerateSingleOutcome | Giga-Peach-main/Giga-Peach-main/services/gemini.ts:14-105 | success is always a PNG data URI, and the server sees the trimmed key's URL and the built payload |
| LocalStore.NormalizeEndpoint | src/utils/storage.ts:151-153 | the cache key is trimmed, without one trailing slash, lower-cased |
| LocalStore.NormalizeIgnoresPadding | src/utils/storage.ts:151-153 | surrounding whitespace does not change the cache key |
| LocalStore.NormalizeIgnoresTrailingSlash | src/utils/storage.ts:151-153 | one trailing slash does not change the cache key |
| LocalStore.NormalizeIgnoresCase | src/utils/storage.ts:151-153 | letter case does not change the cache key |
| LocalStore.CacheMap | src/utils/storage.ts:135-149 | a missing, unparsable or non-object cache reads as empty |
| LocalStore.CacheLookup | src/utils/storage.ts:106-114 | a lookup under the normalised key, empty when absent |
| LocalStore.CacheAfterSave | src/utils/storage.ts:95-103 | saving stores the models under the normalised key over the current map |
| LocalStore.CacheAfterClear | src/utils/storage.ts:117-133 | no endpoint removes the cache; an endpoint removes only its normalised entry |
| LocalStore.SaveThenGet | src/utils/storage.ts:95-114 | after a save, every endpoint with the same normalised key reads the saved list |
| LocalStore.SaveKeepsOtherKeys | src/utils/storage.ts:95-114 | a save leaves every other key's list as it was |
| LocalStore.BrokenCacheReadsEmpty | src/utils/storage.ts:135-149 | a missing, unparsable or non-object cache reads as empty for every endpoint |
| LocalStore.ClearOneKey | src/utils/storage.ts:117-133 | clearing one endpoint empties its key and keeps every other key |
| LocalStore.ClearAllKeys | src/utils/storage.ts:117-122 | clearing without an endpoint empties every key |
| LocalStore.LocalStorage.GetString | src/utils/storage.ts:20-27 | a missing item reads as the empty string |
| LocalStore.LocalStorage.SetItem | src/utils/storage.ts:11-17 | the item is set and nothing else changes |
| LocalStore.LocalStorage.RemoveItem | src/utils/storage.ts:30-36 | the item is removed and nothing else changes |
| LocalStore.LocalStorage.SaveApiKey | src/utils/storage.ts:11-17 | the key item holds the value |
| LocalStore.LocalStorage.GetApiKey | src/utils/storage.ts:20-27 | the stored key, or empty |
| LocalStore.LocalStorage.ClearApiKey | src/utils/storage.ts:30-36 | the key item is gone |
| LocalStore.LocalStorage.SaveApiEndpoint | src/utils/storage.ts:39-45 | the endpoint item holds the value |
| LocalStore.LocalStorage.GetApiEndpoint | src/utils/storage.ts:48-55 | the stored endpoint, or empty |
| LocalStore.LocalStorage.ClearApiEndpoint | src/utils/storage.ts:58-64 | the endpoint item is gone |
| LocalStore.LocalStorage.SaveModelId | src/utils/storage.ts:67-73 | the model item holds the value |
| LocalStore.LocalStorage.GetModelId | src/utils/storage.ts:76-83 | the stored model id, or empty |
| LocalStore.LocalStorage.ClearModelId | src/utils/storage.ts:86-92 | the model item is gone |
| LocalStore.LocalStorage.SaveActiveProviderId | src/utils/storage.ts:200-206 | the provider item holds the value |
| LocalStore.LocalStorage.GetActiveProviderId | src/utils/storage.ts:208-215 | the stored provider id, or empty |
| LocalStore.LocalStorage.SaveModelCache | src/utils/storage.ts:95-103 | the cache becomes the saved-over cache; other items are unchanged |
| LocalStore.LocalStorage.GetModelCache | src/utils/storage.ts:106-114 | the models cached under the normalised endpoint, or none |
| LocalStore.LocalStorage.ClearModelCache | src/utils/storage.ts:117-133 | the cache becomes the cleared cache; other items are unchanged |
| LocalStore.LocalStorage.SaveCustomPrompts | src/utils/storage.ts:158-164 | the prompt list is stored |
| LocalStore.LocalStorage.GetCustomPrompts | src/utils/storage.ts:166-175 | the stored prompts; missing or unparsable reads as empty |
| LocalStore.LocalStorage.SaveApiConfigs | src/utils/storage.ts:181-187 | the configuration list is stored |
| LocalStore.LocalStorage.GetApiConfigs | src/utils/storage.ts:189-198 | the stored configurations; missing or unparsable reads as empty |
| ObjectStore.StrLtTransitive | Giga-Peach-main/Giga-Peach-main/services/storage.ts:20 | the primary-key order on strings is transitive |
| ObjectStore.StrLtTotal | Giga-Peach-main/Giga-Peach-main/services/storage.ts:20 | any two distinct keys are ordered |
| ObjectStore.RowLtTransitive | Giga-Peach-main/Giga-Peach-main/services/storage.ts:21-28 | ordering by (index key, primary key) is transitive |
| ObjectStore.Insert | Giga-Peach-main/Giga-Peach-main/services/storage.ts:43 | inserting a fresh row keeps the index order and unique keys and adds exactly that row |
| ObjectStore.RemoveId | Giga-Peach-main/Giga-Peach-main/services/storage.ts:54 | deleting by key removes exactly the rows with that key |
| ObjectStore.RemoveIdKeepsTable | Giga-Peach-main/Giga-Peach-main/services/storage.ts:54 | deleting keeps the table ordered with unique keys |
| ObjectStore.Put | Giga-Peach-main/Giga-Peach-main/services/storage.ts:43 | put replaces any row with the same key, keeps the table shape, and grows the table only for a new key |
| ObjectStore.RemoveOne | Giga-Peach-main/Giga-Peach-main/services/storage.ts:54 | deleting a present key shrinks the table by one |
| ObjectStore.RemoveNone | Giga-Peach-main/Giga-Peach-main/services/storage.ts:54 | deleting an absent key changes nothing |
| ObjectStore.NewestFirst | Giga-Peach-main/Giga-Peach-main/services/storage.ts:78-85 | the listing is the index order reversed |
| ObjectStore.PutAllDistinct | Giga-Peach-main/Giga-Peach-main/services/storage.ts:143-145 | putting rows with distinct keys into an empty store holds exactly those rows |
| GalleryStorage.DefaultPresetIdsDistinct | Giga-Peach-main/Giga-Peach-main/constants.ts:6-49 | the seven default presets have distinct ids |
| GalleryStorage.SeededStoreHoldsDefaults | Giga-Peach-main/Giga-Peach-main/services/storage.ts:138-151 | seeding an empty preset store with the defaults stores each default once |
| GalleryStorage.SeededStoreHolds | Giga-Peach-main/Giga-Peach-main/services/storage.ts:138-151 | seeding an empty preset store with presets of distinct ids stores exactly those presets, once each |
| GalleryStorage.BelowCount | Giga-Peach-main/Giga-Peach-main/services/storage.ts:98-103 | the range ends where index keys reach the bound |
| GalleryStorage.RangeEnd | Giga-Peach-main/Giga-Peach-main/services/storage.ts:98-103 | no truthy timestamp means the whole index |
| GalleryStorage.Page | Giga-Peach-main/Giga-Peach-main/services/storage.ts:105-116 | a page has at most `limit` images, none when it is not positive |
| GalleryStorage.NewestFirstNonIncreasing | Giga-Peach-main/Giga-Peach-main/services/storage.ts:78-85 | the gallery listing has non-increasing timestamps |
| GalleryStorage.PageNonIncreasing | Giga-Peach-main/Giga-Peach-main/services/storage.ts:105-116 | a page has non-increasing timestamps |
| GalleryStorage.PageBelowBound | Giga-Peach-main/Giga-Peach-main/services/storage.ts:98-103 | every image on a page after a timestamp is strictly older |
| GalleryStorage.PageIsPrefixOfListing | Giga-Peach-main/Giga-Peach-main/services/storage.ts:98-116 | the newest-first listing splits into the records at or above a truthy bound followed by those in range; a page is a prefix of the records in range, holding `limit` of them or all of them when fewer exist |
| GalleryStorage.AboveBound | Giga-Peach-main/Giga-Peach-main/services/storage.ts:98-103 | every record from the end of a truthy cursor range on is at least as new as the bound |
| GalleryStorage.UnboundedPageIsListingPrefix | Giga-Peach-main/Giga-Peach-main/services/storage.ts:91-116 | the first page is a prefix of the full listing, of length `limit` when enough images exist |
| GalleryStorage.GalleryDb.SaveImage | Giga-Peach-main/Giga-Peach-main/services/storage.ts:38-47 | saving puts the image row, replaces the same id and keeps the other rows |
| GalleryStorage.GalleryDb.DeleteImage | Giga-Peach-main/Giga-Peach-main/services/storage.ts:49-58 | exactly the rows with other ids remain |
| GalleryStorage.GalleryDb.ClearGallery | Giga-Peach-main/Giga-Peach-main/services/storage.ts:61-70 | the gallery is empty; presets are untouched |
| GalleryStorage.GalleryDb.GetGallery | Giga-Peach-main/Giga-Peach-main/services/storage.ts:72-88 | the whole index reversed (`getAll().reverse()`): every stored image once, newest first, with equal timestamps in reverse primary-key order |
| GalleryStorage.GalleryDb.GetPaginatedGallery | Giga-Peach-main/Giga-Peach-main/services/storage.ts:91-119 | the cursor loop returns the specified page |
| GalleryStorage.GalleryDb.SavePreset | Giga-Peach-main/Giga-Peach-main/services/storage.ts:121-130 | the preset row is put and the other rows kept |
| GalleryStorage.GalleryDb.DeletePreset | Giga-Peach-main/Giga-Peach-main/services/storage.ts:158-167 | exactly the presets with other ids remain |
| GalleryStorage.GalleryDb.SeedPresets | Giga-Peach-main/Giga-Peach-main/services/storage.ts:143 | putting each seed record in turn leaves the store as the successive puts give, well formed and with the gallery untouched |
| GalleryStorage.PutPresetRow | Giga-Peach-main/Giga-Peach-main/services/storage.ts:143 | putting a preset record keeps the preset store well formed |
| GalleryStorage.GalleryDb.GetAllPresets | Giga-Peach-main/Giga-Peach-main/services/storage.ts:132-156 | an empty store is seeded with, and returns, the defaults; otherwise the stored presets are returned unchanged |
| Migration.PresetTable.AddPreset | src/services/db.ts:94 | the preset is appended |
| Migration.ToPreset | src/utils/migration.ts:20-25 | name from title, description from prompt, no icon, the image as the only reference image when present |
| Migration.ToPresets | src/utils/migration.ts:19-29 | one preset per prompt, in order |
| Migration.MigrationOutcome | src/utils/migration.ts:7-39 | the specification of one migration run: skipped when the flag is set, the presets before a failing add kept with `{false, 0}`, else every prompt added, counted and the flag set |
| Migration.MigrateV1ToV2 | src/utils/migration.ts:7-39 | the migration method returns and leaves behind what the specification gives |
| Migration.CompletedMigrationIsSkipped | src/utils/migration.ts:8-10 | with the flag set nothing changes and `{false, 0}` is returned |
| Migration.SuccessfulMigration | src/utils/migration.ts:17-34 | without a failure every prompt is appended as a preset in order, the count is the number of prompts and the flag is set |
| Migration.FailedMigration | src/utils/migration.ts:35-38 | a failing add returns `{false, 0}`, leaves the flag unset and keeps earlier presets |
| Migration.MigrationIdempotent | src/utils/migration.ts:8-34 | a second run after a successful one does nothing |
| Migration.CheckMigrationStatus | src/utils/migration.ts:41-43 | true iff the flag is `completed` |
| Migration.ResetMigration | src/utils/migration.ts:45-48 | the flag is removed and the preset table emptied |
| Migration.ResetReenablesMigration | src/utils/migration.ts:45-48 | after a reset the migration runs again and recreates the presets |
| Theme.ParseThemeMode | src/composables/useTheme.ts:53-56 | only `light`, `dark` and `system` are adopted |
| Theme.ParseModeName | src/composables/useTheme.ts:4-56 | every mode's name parses back to it |
| Theme.ModeIndex | src/composables/useTheme.ts:36-37 | each mode has its index in the cycle array |
| Theme.CycleOrder | src/composables/useTheme.ts:35-40 | system → light → dark → system; each step changes the mode and three return to it |
| Theme.Effective | src/composables/useTheme.ts:17-19 | system mode follows the system appearance, other modes are themselves |
| Theme.InitStep | src/composables/useTheme.ts:50-66 | the intended initialisation, with a working theme accessor: it marks the state initialised and adopts a valid stored mode, once |
| Theme.InitStepAsWritten | src/composables/useTheme.ts:50-53 | as written, initialisation succeeds, changing nothing, exactly when the state is already initialised; otherwise it throws the `TypeError` of the missing `LocalStorage.getTheme` |
| Theme.AsWrittenNeverInitialises | src/composables/useTheme.ts:50-66 | any number of calls of the written `initTheme` leave an uninitialised state unchanged and uninitialised, while the intended step marks it initialised and adopts a stored `dark` |
| Theme.ThemeState.InitThemeAsWritten | src/composables/useTheme.ts:50-53 | the written `initTheme` changes no field and reports what `InitStepAsWritten` gives |
| Theme.InitOnce | src/composables/useTheme.ts:50-66 | a second initialisation changes nothing |
| Theme.ThemeState.EffectiveTheme | src/composables/useTheme.ts:17-19 | the effective theme of the current state |
| Theme.ThemeState.SetTheme | src/composables/useTheme.ts:31-33 | the mode is set, nothing else changes |
| Theme.ThemeState.CycleTheme | src/composables/useTheme.ts:35-40 | the mode becomes the next in the cycle |
| Theme.ThemeState.InitTheme | src/composables/useTheme.ts:50-66 | the state changes as the intended initialisation step specifies |

## Findings

| source | as written | input that shows it | evidently intended | confidence | as-written member | corrected member |
|---|---|---|---|---|---|---|
| src/composables/useTheme.ts:53 | `LocalStorage.getTheme()` is called, but `src/utils/storage.ts:4-216` defines no such method. The call throws a `TypeError` before `isInitialized` is set, so a stored mode is never adopted and the `matchMedia` listener is never added | any call of `initTheme` from the initial state | read the stored theme, adopt it when it names a mode, mark the state initialised | high (not executed) | Theme.InitStepAsWritten | Theme.InitStep |

## Left out

* Network I/O, `fetch`, headers (including the `Authorization` bearer header) and JSON encoding or decoding. The server is a function parameter and decoded replies are datatypes.
* Console logging throughout.
* Asynchrony, IndexedDB transactions and their error callbacks, and `initDB` schema upgrades.
* Dexie (`src/services/db.ts`) beyond `addPreset` appending and `stylePresets.clear()`. The generated ids and `createdAt` of added presets are not modelled.
* WHATWG URL parsing and serialisation. The parsed URL is an optional parameter. It records whether the URL's path is hierarchical, since the `pathname` setter ignores a URL whose path is not. `url.toString()` is head + pathname + tail, and the setter does no percent-encoding and no normalisation of `.` and `..` segments.
* Unicode case mapping. `toLowerCase` is modelled for ASCII letters only.
* UTF-16 code units. String lengths, `substring(0, 100)` and `slice` count Unicode scalar values, and the IndexedDB key order `ObjectStore.StrLt` compares Unicode scalar values where IndexedDB compares UTF-16 code units. The two orders differ only between characters above U+FFFF and characters in U+E000-U+FFFF, so the primary-key order of presets (and of gallery images with equal timestamps) can differ from the browser's for ids mixing such characters.
* JavaScript numbers (floating point, `NaN`, infinities). Every number in the model is an integer. This covers timestamps, where a missing, zero or absent `lastTimestamp` is falsy. It also covers `maxRetries` of `generateImage` and `limit` of `getPaginatedGallery`. With a fractional `limit` the source returns `ceil(limit)` records. With a fractional `maxRetries` it makes `floor(maxRetries)` attempts and prints the fraction in the final error message. Neither case is modelled.
* `src/config/api.ts` defaults. They are the `Defaults` parameter. The default `maxRetries = 5` of `generateImage` is modelled by `ApiRetry.DefaultMaxRetries` and `ApiRetry.GenerateImageWithDefaultBudget`.
* A stored model cache that parses to a JSON array, and prototype-chain keys of the parsed object.
* `ApiModel.capabilities`, `StyleTemplate.mode` and other fields the core does not read.
* The Vue watchers, `applyTheme`'s DOM classes and the `matchMedia` listener. The `themeMode` watcher calls `LocalStorage.saveTheme` (`src/composables/useTheme.ts:47`), which `src/utils/storage.ts` does not define. So every mode change throws a `TypeError` that Vue reports, and the new mode still stands; the model keeps no stored theme. The intended `InitTheme` takes the stored theme as a parameter.
* `src/data/templates.ts`, the React and Vue components and `tailwind.config.js`. They are not part of this model.
* LocalStore.LocalStorage.SaveModelCache: the `try/catch` around `localStorage.setItem`, which fails for a full quota, is not modelled; the save always succeeds. The same holds for every other accessor of `src/utils/storage.ts` (`saveApiKey`, `getApiKey`, `clearApiKey`, the endpoint, model id and provider id accessors, `getModelCache`, `clearModelCache`, `saveCustomPrompts`, `getCustomPrompts`, `saveApiConfigs`, `getApiConfigs`): each catches a throwing `localStorage` and returns `''`, `[]` or nothing, and the model's `localStorage` never throws, so every save takes effect and every read sees the stored state.
* LocalStore.LocalStorage.GetCustomPrompts and LocalStore.LocalStorage.GetApiConfigs: `JSON.parse` can yield a value that is not an array (`null`, a number, a string, an object), which the source returns as is and a caller such as the migration's `for … of` then rejects or walks character by character. The model's stored list is either a parsed list or unreadable data that reads as `[]`; the non-array values are not modelled.
* Migration.MigrateV1ToV2: only a failure of `addPreset` is modelled; `getCustomPrompts` itself never throws.

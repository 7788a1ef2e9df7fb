# ai-sdk-image-generator-2api gateway core, in Dafny

This project models the request-translation and retry engine of a Cloudflare Worker
(`worker.js`). The worker exposes an OpenAI-compatible image and chat API and forwards each
generation request to one upstream image service. The model covers:

- **Entry point and API gate** (`Gateway`). The `fetch` split serves the UI at `/`, the API
  under `/v1/`, and a 404 for everything else. Behind it sit the literal, case-sensitive
  `Bearer ` check against the master key `"1"` and the three-route table. An OPTIONS request
  skips the gate and gets the CORS preflight.
- **Model registry** (`Registry`). The 20 declared public ids are kept in declaration order,
  each with its `(provider, modelId)` pair. The default is `replicate/flux-1.1-pro-ultra`.
- **Image pipeline** (`Images`). It checks the prompt, resolves the model (`model ||
  DEFAULT_MODEL`) and builds `{prompt, provider, modelId}`. It then classifies the final
  upstream reply as `upstream_error`, `bad_gateway`, the internal error, or the envelope
  `data: [{[response_format]: image}]`.
- **Retry loop** (`Upstream.CallWithRetry`). This is an imperative method over the sequence
  of replies the upstream gives to successive calls. It makes at most
  `UPSTREAM_MAX_RETRIES = 3` calls; despite the name, that number counts attempts, not retries.
  The loop stops early on an ok status, on a transport failure, or on any status below 500
  other than 429. It waits `200 * 2^k + jitter` after failed attempt `k`, except after the
  last attempt. `Math.random() * 100` is modelled as a sequence of `Jitter` values in [0, 100).
- **Chat adapter** (`Chat`). It takes the last `user` message as the prompt and calls the
  image pipeline directly with `response_format = "b64_json"`. Image failures are returned
  unchanged. On success the base64 string is wrapped as
  `![Generated Image](data:image/png;base64,...)` in a one-choice chat envelope with zero usage.

Each handler is written twice. A function (`ImageOutcome`, `ChatOutcome`, `ApiOutcome`,
`FetchOutcome`) gives the response, the payloads sent upstream and the waits. A method
(`HandleImageGenerations`, `HandleChatCompletions`, `HandleApi`, `Fetch`) runs the retry loop
and is proved equal to that function. The two read line for line alike: the method exists only
because a function cannot call the loop method `Upstream.CallWithRetry`, and the function exists
because lemmas cannot mention a method. The lemmas state the properties of these functions.

Behaviours of the code that the model keeps, though a reader of the API might expect otherwise:

- A 3xx upstream status ends the loop without being ok. It is therefore reported as
  `upstream_error` with that 3xx status.
- The platform's `Response` constructor throws when a body comes with a status outside
  200..599 or with a null-body status (204, 205, 304). Of the statuses `fetch` returns, only
  an upstream 304 reaches `createErrorResponse` this way. The handler's `catch` then turns it
  into 500 `internal_server_error` (`Http.MakeError`).
- `response_format` falls back to `"b64_json"` only when the field is absent. Any other string,
  including `""`, becomes the key of the single data element.
- The chat adapter also rejects a last user message whose content is empty.
- The 404 from the entry point has the type `invalid_request_error`. Every other error
  envelope has the type `api_error`.
- A failure of `fetch` itself ends the loop at once and becomes 500. It is not retried.

## Model

| member | source | states |
|---|---|---|
| `Registry.Ids` | worker.js:171 | the listing order is the declaration order of the registry keys |
| `Registry.Find` | worker.js:201 | a lookup succeeds exactly when the id is declared, and returns a declared entry for it |
| `Registry.FindDeclared` | worker.js:35-59 | with distinct keys, looking up the i-th declared id yields the i-th declared entry |
| `Registry.KeyNotRedeclared` | worker.js:35-59 | no public id is declared a second time later in the table |
| `Registry.RegistryKeysDistinct` | worker.js:35-59 | the public ids are pairwise distinct |
| `Registry.LookupDeclared` | worker.js:35-59 | every declared id resolves through `Lookup` (`CONFIG.MODELS[id]`, worker.js:201) to exactly its declared (provider, modelId) pair |
| `Registry.LookupIffListed` | worker.js:171 | `Lookup` of an id succeeds if and only if the listing enumerates it |
| `Registry.DefaultModelRegistered` | worker.js:60 | `DEFAULT_MODEL` is a registry key and resolves to its declared entry |
| `Wrappers.DecimalRoundTrip` | worker.js:244 | the status rendered into the `upstream_error` message reads back as that status; `DecimalString` gives digits only, with no leading zero |
| `Http.InternalError` | worker.js:266-269 | the catch-all answer is 500 `internal_server_error` and is not ok |
| `Http.MakeError` | worker.js:151-161 | the error envelope carries the given status, message, type `api_error` and code; a status the `Response` constructor refuses becomes the internal error; a non-2xx status is never ok |
| `Upstream.AttemptsFrom` | worker.js:210-232 | from attempt k the loop makes between k+1 and 3 calls; every reply before the last was retryable; the last reply ended the loop or was the third |
| `Upstream.CallWithRetry` | worker.js:209-238 | the loop makes `AttemptsNeeded` calls, all with the same payload; it returns the reply of the last call; it waits `Delay(k, jitter_k)` after each failed attempt except the last |
| `Upstream.AttemptsAreCappedFirstEnding` | worker.js:210-232 | the number of calls is the index of the first ok reply or first reply below 500 other than 429, plus one, capped at 3 |
| `Upstream.AttemptsCharacterized` | worker.js:224-232 | 1 to 3 calls; every reply but the last had status 429 or at least 500, that is, failed `EndsLoop` (the break test of worker.js:225) |
| `Upstream.DelaysBoundedAndIncreasing` | worker.js:229-237 | each wait `Delay(k, jitter)` = `Backoff(k)` + jitter (worker.js:235) lies in [200·2^k, 200·2^k + 100); the lower bounds strictly increase, and so do the waits |
| `Images.ResolveModelId` | worker.js:201 | a non-empty model id is used as given, otherwise the default; the result is never empty |
| `Images.Translate` | worker.js:194-207 | a translated payload carries the non-empty prompt and the registry pair of the resolved model; every rejection is a 400 |
| `Images.Classify` | worker.js:241-257 | the final reply's answer is ok exactly when it is the image envelope, which has one element and comes only from an ok reply |
| `Images.ImageOutcome` | worker.js:192-270 | at most 3 upstream calls, one wait fewer than calls, and the answer is ok exactly when it is the image envelope |
| `Images.HandleImageGenerations` | worker.js:192-270 | the handler's response, upstream calls and waits are those of `ImageOutcome` |
| `Images.MissingPromptRejected` | worker.js:197-199 | an absent or empty prompt gives 400 `missing_parameter` whatever the model, with no upstream call |
| `Images.DefaultModelWhenAbsent` | worker.js:201 | without a model, the payload uses the default entry's provider and modelId |
| `Images.UnknownModelRejected` | worker.js:201-204 | an undeclared model id gives 400 `invalid_model` naming that id |
| `Images.TranslateFromRegistry` | worker.js:201-207 | translation succeeds if and only if the prompt is non-empty and the resolved id is declared; the payload is the prompt plus that declaration's pair, unchanged |
| `Images.UpstreamErrorCarriesStatus` | worker.js:241-245 | a non-ok final reply, 3xx included, is reported with its own status, code `upstream_error`, and a message with the status and the upstream body; a refused status gives 500 instead |
| `Images.MissingImageIsBadGateway` | worker.js:247-252 | an ok reply without a non-empty `image` gives 502 `bad_gateway`, never a 200 |
| `Images.ImageEnvelopeIffUsableImage` | worker.js:241-257 | the image envelope comes out exactly for an ok reply with a non-empty image; it has one element, keyed only by the response format (`ResponseFormat`: the request's field, or `b64_json` when absent, worker.js:195), holding the image unchanged |
| `Images.ImageSuccessPassthrough` | worker.js:209-257 | a successful response returns the last upstream reply's image byte for byte; every call sent the translated payload |
| `Images.RejectionSendsNothing` | worker.js:193-204 | a malformed body or a rejected request makes no upstream call, no wait, and is not ok |
| `Images.RecoversOnThirdAttempt` | worker.js:209-257 | replies 500, 500, 200+image: three calls, waits in [200,300) and [400,500), then the image is returned |
| `Images.ClientErrorIsNotRetried` | worker.js:224-245 | a first reply of 400 means one call, no wait, and 400 `upstream_error` |
| `Images.ExhaustedRetriesReportLastReply` | worker.js:209-245 | all replies 500: three calls, two waits, 500 `upstream_error` with the third reply's body |
| `Chat.UserMessagesLast` | worker.js:283 | the user-message filter `UserMessages` is empty exactly when no message has role `user`; otherwise its last element is the last user message |
| `Chat.LastUserMessageSpec` | worker.js:283 | `LastUserMessage` (`filter(...).pop()`) selects the last message with role `user`; there is none if and only if no message has that role |
| `Chat.MarkdownRoundTrip` | worker.js:304-305 | the Markdown reply embeds the base64 string unchanged, and it can be read back exactly |
| `Chat.HandleChatCompletions` | worker.js:278-332 | the adapter's response, upstream calls and waits are those of `ChatOutcome`, which follows worker.js:280-321 branch by branch |
| `Chat.ImageOkIffEnvelope` | worker.js:300-301 | an image-pipeline answer is ok exactly when it is the image envelope (the last postcondition of `Images.ImageOutcome`, restated for the test of worker.js:301) |
| `Chat.NoUserPromptRejected` | worker.js:283-286 | when `ChatPrompt` finds no messages, no user message, or empty content, the answer is 400 `invalid_request` with no upstream call |
| `Chat.ChatDelegatesToImages` | worker.js:288-301 | a chat request makes the same calls and waits as the image request for its last user message; an image failure is returned unchanged; an image success always becomes the chat envelope; every payload carries that message as prompt |
| `Chat.ChatSuccessEnvelope` | worker.js:303-319 | a successful chat reply (`ChatEnvelope`) has one assistant choice, `finish_reason` "stop", zero usage, and content exactly `![Generated Image](data:image/png;base64,` + the upstream image + `)` |
| `Gateway.ModelsResponse` | worker.js:168-184 | the listing has one card per registry key, in declaration order |
| `Gateway.HandleApi` | worker.js:97-126 | the API handler's outcome is `ApiOutcome`: OPTIONS, then the credential check, then the route table, then 404 |
| `Gateway.Fetch` | worker.js:66-88 | the entry point's outcome is `FetchOutcome`: `/` serves the UI, `/v1/` goes to the API, anything else is 404 |
| `Gateway.AuthenticateSpec` | worker.js:106-114 | `Authenticate` accepts only the header `Bearer 1`; a missing header or one without the literal `Bearer ` prefix is 401; any other header is 403 |
| `Gateway.AuthPrecedesRouting` | worker.js:106-114 | a non-preflight `/v1/` request without the right credential gets 401 or 403 whatever its path and body, with no upstream call |
| `Gateway.AuthorizedDispatch` | worker.js:116-125 | an authorised request goes to the handler its path names in `Route`; any other `/v1/` path gives 404 `not_found` |
| `Gateway.OutsideApiNotFound` | worker.js:69-87 | a path that is neither `/` nor under `/v1/` gives 404 `not_found`, type `invalid_request_error` |
| `Gateway.ListingMatchesRegistry` | worker.js:168-177 | the listing names exactly the registry keys in order; an id is listed if and only if it resolves |
| `Gateway.OnlyImageRoutesCallUpstream` | worker.js:97-126 | the upstream is only called for an authorised request to the image or chat route |

## Left out

- The HTML/CSS/web-component dashboard (`handleUI`): it is presentation only. The response to `/` is the marker `Dashboard`.
- CORS headers and the preflight's headers: they are constant plumbing. An OPTIONS request under `/v1/` is modelled as the marker `Preflight` (204).
- Trace ids (`crypto.randomUUID`, the `X-Worker-Trace-ID` header, the chat `id`), `created` timestamps, and `console` logging. They are nondeterministic or side effects only.
- Real I/O. Each upstream call is the next element of a reply sequence. A wait is recorded as a delay instead of a `setTimeout`. `request.json()` is `Option<RequestBody>`, with `None` when parsing throws.
- Floating-point jitter: `Math.random() * 100` is a real number in [0, 100), not an IEEE double.
- Http.InternalError: the message is the fixed prefix only. The runtime's exception text, which the source appends, is not modelled.
- JavaScript value quirks: prototype keys such as `constructor` in the model table, non-string `prompt`/`content`/`image` values and their truthiness, `messages` that is not an array, and `null` message entries. The registry is a table of exactly the declared keys; those fields are strings or absent.
- The `n` field: the source reads it and never uses it.
- The constant `object` fields (`"list"` and `"model"` in the listing, `"chat.completion"` in the chat reply): they never vary, so the response datatypes leave them out.
- The `Request` object the chat adapter builds (URL rewrite, copied headers): it is modelled as a direct call into the image pipeline, which is what the source does with it.
- URL parsing: the path is taken as the already-normalised `pathname`. The HTTP method matters only for OPTIONS; a bodiless GET to an image route is a body that fails to parse.
- A per-attempt timeout: the source has none.

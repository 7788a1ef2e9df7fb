/** The image-generation pipeline: request translation, the retry loop and the normalisation
    of the final upstream reply into the OpenAI image envelope or an error envelope. */
module Images {
  import opened Wrappers
  import opened Registry
  import opened Http
  import opened Upstream

  /** What one inbound call produces: the response, the payloads sent upstream (one per
      attempt) and the waits between attempts. */
  datatype Outcome = Outcome(response: Response, sent: seq<UpstreamPayload>, delays: seq<real>)

  const DefaultResponseFormat: string := "b64_json"
  const MissingPromptMessage: string := "请求体中缺少 'prompt' 字段。"
  const InvalidModelPrefix: string := "不支持的模型: "
  const UpstreamErrorPrefix: string := "上游服务返回错误 "
  const MissingImageMessage: string := "上游响应中未找到图像数据。"

  /** `model || CONFIG.DEFAULT_MODEL`. */
  function ResolveModelId(model: Option<string>): (id: string)
    ensures id != ""
    ensures Truthy(model) ==> id == model.value
    ensures !Truthy(model) ==> id == DefaultModel
  {
    if Truthy(model) then model.value else DefaultModel
  }

  /** The destructuring default `response_format = "b64_json"`: it applies only when the field
      is absent, so an explicit "" is kept. */
  function ResponseFormat(body: RequestBody): string
  {
    if body.responseFormat.Some? then body.responseFormat.value else DefaultResponseFormat
  }

  /** Validation and translation of an image request into the upstream payload. */
  function Translate(body: RequestBody): (r: Result<UpstreamPayload, Response>)
    ensures r.Success? ==>
              && Truthy(body.prompt) && r.value.prompt == body.prompt.value
              && Lookup(ResolveModelId(body.model)) == Some(ModelEntry(r.value.provider, r.value.modelId))
    ensures r.Failure? ==> r.error.ErrorResponse? && r.error.status == 400
  {
    if !Truthy(body.prompt) then
      Failure(MakeError(MissingPromptMessage, 400, "missing_parameter"))
    else
      var id := ResolveModelId(body.model);
      match Lookup(id)
      case None => Failure(MakeError(InvalidModelPrefix + id, 400, "invalid_model"))
      case Some(entry) => Success(UpstreamPayload(body.prompt.value, entry.provider, entry.modelId))
  }

  /** The normalisation of the reply that ended the retry loop. */
  function Classify(last: Reply, format: string): (r: Response)
    ensures IsOk(r) <==> r.ImageList?
    ensures r.ImageList? ==> last.Reply? && Ok(last.status) && |r.data| == 1
  {
    match last
    case TransportFailure => InternalError()
    case Reply(status, text, json) =>
      if !Ok(status) then
        MakeError(UpstreamErrorPrefix + DecimalString(status) + ": " + text, status, "upstream_error")
      else match json
        case Unparsable => InternalError()
        case Parsed(image) =>
          if !Truthy(image) then MakeError(MissingImageMessage, 502, "bad_gateway")
          else ImageList([map[format := image.value]])
  }

  /** `handleImageGenerations`, with `body == None` when `request.json()` throws. */
  function ImageOutcome(body: Option<RequestBody>, replies: seq<Reply>, jitters: seq<Jitter>): (out: Outcome)
    requires Scripted(replies, jitters)
    ensures |out.sent| <= MaxAttempts
    ensures |out.delays| == if out.sent == [] then 0 else |out.sent| - 1
    ensures IsOk(out.response) <==> out.response.ImageList?
  {
    if body.None? then Outcome(InternalError(), [], [])
    else match Translate(body.value)
      case Failure(rejection) => Outcome(rejection, [], [])
      case Success(payload) =>
        var n := AttemptsNeeded(replies);
        Outcome(Classify(replies[n - 1], ResponseFormat(body.value)), seq(n, _ => payload), Delays(n - 1, jitters))
  }

  method HandleImageGenerations(body: Option<RequestBody>, replies: seq<Reply>, jitters: seq<Jitter>)
    returns (out: Outcome)
    requires Scripted(replies, jitters)
    ensures out == ImageOutcome(body, replies, jitters)
  {
    if body.None? {
      return Outcome(InternalError(), [], []);
    }
    var translated := Translate(body.value);
    if translated.Failure? {
      return Outcome(translated.error, [], []);
    }
    var last, sent, delays := CallWithRetry(translated.value, replies, jitters);
    out := Outcome(Classify(last, ResponseFormat(body.value)), sent, delays);
  }

  /** A missing or empty prompt is rejected with 400 `missing_parameter` before the model is
      looked at, so whatever the model field holds, and nothing is sent upstream. */
  lemma MissingPromptRejected(body: RequestBody, replies: seq<Reply>, jitters: seq<Jitter>)
    requires Scripted(replies, jitters)
    requires !Truthy(body.prompt)
    ensures ImageOutcome(Some(body), replies, jitters)
      == Outcome(ErrorResponse(400, ErrorBody(MissingPromptMessage, ApiErrorType, "missing_parameter")), [], [])
  {
  }

  /** An absent (or empty) model resolves to the default entry of the registry. */
  lemma DefaultModelWhenAbsent(body: RequestBody)
    requires Truthy(body.prompt) && !Truthy(body.model)
    ensures Translate(body) == Success(UpstreamPayload(body.prompt.value, "replicate", "black-forest-labs/flux-1.1-pro-ultra"))
  {
  }

  /** A model id that the registry does not declare is rejected with 400 `invalid_model`. */
  lemma UnknownModelRejected(body: RequestBody)
    requires Truthy(body.prompt) && Truthy(body.model) && body.model.value !in Ids()
    ensures Translate(body) == Failure(ErrorResponse(400, ErrorBody(InvalidModelPrefix + body.model.value, ApiErrorType, "invalid_model")))
  {
  }

  /** Translation succeeds exactly when the prompt is non-empty and the resolved id is declared,
      and the payload then carries the prompt and that declaration's (provider, modelId) unchanged. */
  lemma TranslateFromRegistry(body: RequestBody, payload: UpstreamPayload)
    ensures Translate(body) == Success(payload) <==>
      && Truthy(body.prompt)
      && exists i :: 0 <= i < |Models| && Models[i].0 == ResolveModelId(body.model)
           && payload == UpstreamPayload(body.prompt.value, Models[i].1.provider, Models[i].1.modelId)
  {
    var id := ResolveModelId(body.model);
    if Truthy(body.prompt) {
      if i :| (0 <= i < |Models| && Models[i].0 == id
               && payload == UpstreamPayload(body.prompt.value, Models[i].1.provider, Models[i].1.modelId)) {
        LookupDeclared(i);
      }
    }
  }

  /** A final reply that is not ok is reported with its own status, code `upstream_error` and a
      message naming the status and the upstream body. This covers 3xx statuses, which end the
      loop without being ok; only a status the `Response` constructor refuses alongside a body
      (of those `fetch` can return, 304) ends as the internal error instead. */
  lemma UpstreamErrorCarriesStatus(status: nat, text: string, json: UpstreamJson, format: string)
    requires !Ok(status)
    ensures CanCarryBody(status) ==>
      Classify(Reply(status, text, json), format)
        == ErrorResponse(status, ErrorBody(UpstreamErrorPrefix + DecimalString(status) + ": " + text, ApiErrorType, "upstream_error"))
    ensures !CanCarryBody(status) ==> Classify(Reply(status, text, json), format) == InternalError()
    ensures !IsOk(Classify(Reply(status, text, json), format))
  {
  }

  /** An ok reply without a usable image never becomes a 200: it is 502 `bad_gateway`. */
  lemma MissingImageIsBadGateway(status: nat, text: string, image: Option<string>, format: string)
    requires Ok(status) && !Truthy(image)
    ensures Classify(Reply(status, text, Parsed(image)), format)
      == ErrorResponse(502, ErrorBody(MissingImageMessage, ApiErrorType, "bad_gateway"))
  {
  }

  /** Classification yields an image envelope exactly for an ok reply with a non-empty image, and
      the envelope then has one element, keyed by the response format alone, holding the upstream
      image string unchanged. */
  lemma ImageEnvelopeIffUsableImage(last: Reply, format: string)
    ensures Classify(last, format).ImageList? <==>
      last.Reply? && Ok(last.status) && last.json.Parsed? && Truthy(last.json.image)
    ensures Classify(last, format).ImageList? ==>
      var data := Classify(last, format).data;
      && |data| == 1
      && data[0].Keys == {format}
      && data[0][format] == last.json.image.value
  {
  }

  /** End to end: a successful image response passes the image of the last upstream reply
      through unchanged, and every call sent the payload translated from the request. */
  lemma ImageSuccessPassthrough(body: RequestBody, replies: seq<Reply>, jitters: seq<Jitter>)
    requires Scripted(replies, jitters)
    requires ImageOutcome(Some(body), replies, jitters).response.ImageList?
    ensures var out := ImageOutcome(Some(body), replies, jitters);
      var format := ResponseFormat(body);
      && Translate(body).Success?
      && 1 <= |out.sent| <= MaxAttempts
      && (forall i :: 0 <= i < |out.sent| ==> out.sent[i] == Translate(body).value)
      && var last := replies[|out.sent| - 1];
      && last.Reply? && Ok(last.status) && last.json.Parsed? && Truthy(last.json.image)
      && out.response.data == [map[format := last.json.image.value]]
  {
  }

  /** Rejected requests never reach the upstream and never wait. */
  lemma RejectionSendsNothing(body: Option<RequestBody>, replies: seq<Reply>, jitters: seq<Jitter>)
    requires Scripted(replies, jitters)
    requires body.None? || Translate(body.value).Failure?
    ensures ImageOutcome(body, replies, jitters).sent == []
    ensures ImageOutcome(body, replies, jitters).delays == []
    ensures !IsOk(ImageOutcome(body, replies, jitters).response)
  {
  }

  /** Upstream replies 500, 500, 200 with an image: three calls, two waits in [200, 300) and
      [400, 500), and the image is returned. */
  lemma RecoversOnThirdAttempt(body: RequestBody, text: string, image: string, jitters: seq<Jitter>)
    requires Translate(body).Success? && image != "" && |jitters| >= MaxAttempts - 1
    ensures var replies := [Reply(500, text, Unparsable), Reply(500, text, Unparsable), Reply(200, text, Parsed(Some(image)))];
      var out := ImageOutcome(Some(body), replies, jitters);
      && |out.sent| == 3
      && |out.delays| == 2
      && 200.0 <= out.delays[0] < 300.0
      && 400.0 <= out.delays[1] < 500.0
      && out.response == ImageList([map[ResponseFormat(body) := image]])
  {
  }

  /** A first reply of 400 is final: one call, no wait, and the 400 is reported as `upstream_error`. */
  lemma ClientErrorIsNotRetried(body: RequestBody, text: string, replies: seq<Reply>, jitters: seq<Jitter>)
    requires Scripted(replies, jitters)
    requires Translate(body).Success? && replies[0].Reply? && replies[0].status == 400
    ensures var out := ImageOutcome(Some(body), replies, jitters);
      && |out.sent| == 1
      && out.delays == []
      && out.response.ErrorResponse?
      && out.response.status == 400
      && out.response.error.code == "upstream_error"
  {
  }

  /** With every reply a 500, exactly `MaxAttempts` calls are made and the last reply's status and
      body are reported as `upstream_error`. */
  lemma ExhaustedRetriesReportLastReply(body: RequestBody, replies: seq<Reply>, jitters: seq<Jitter>)
    requires Scripted(replies, jitters)
    requires Translate(body).Success?
    requires forall i :: 0 <= i < |replies| ==> replies[i].Reply? && replies[i].status == 500
    ensures var out := ImageOutcome(Some(body), replies, jitters);
      && |out.sent| == MaxAttempts
      && |out.delays| == MaxAttempts - 1
      && out.response == ErrorResponse(500, ErrorBody(UpstreamErrorPrefix + "500: " + replies[2].body, ApiErrorType, "upstream_error"))
  {
  }
}

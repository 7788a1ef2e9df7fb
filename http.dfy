/** The HTTP-level vocabulary of the gateway: inbound requests as the core reads them,
    the responses it produces, and the shared error envelope. */
module Http {
  import opened Wrappers

  /** One entry of a chat request's `messages`; `content` is absent when the JSON has none. */
  datatype Message = Message(role: string, content: Option<string>)

  /** The fields of a parsed JSON request body that the core reads. `n` is read but never
      used by the source, so it is not modelled. */
  datatype RequestBody = RequestBody(
    prompt: Option<string>,
    model: Option<string>,
    responseFormat: Option<string>,
    messages: Option<seq<Message>>)

  /** An inbound request: HTTP method, URL path, the `Authorization` header if present, and the
      body as `request.json()` would read it (`None` when that call throws). */
  datatype Request = Request(verb: string, path: string, authorization: Option<string>, body: Option<RequestBody>)

  /** `{ error: { message, type, code } }`. */
  datatype ErrorBody = ErrorBody(message: string, errorType: string, code: string)

  /** One element of the model listing; `object: "model"` and `created` are left out. */
  datatype ModelCard = ModelCard(id: string, ownedBy: string)

  datatype ChatMessage = ChatMessage(role: string, content: string)

  datatype Choice = Choice(index: nat, message: ChatMessage, finishReason: string)

  datatype Usage = Usage(promptTokens: nat, completionTokens: nat, totalTokens: nat)

  /** What the worker answers. Headers (CORS, trace id), `created` timestamps and the chat `id`
      are not modelled. */
  datatype Response =
    | Dashboard                                   // the HTML UI served at `/`
    | Preflight                                   // 204 answer to an OPTIONS request
    | ErrorResponse(status: int, error: ErrorBody)
    | ModelList(cards: seq<ModelCard>)
    | ImageList(data: seq<map<string, string>>)
    | ChatCompletion(model: string, choices: seq<Choice>, usage: Usage)

  const ApiErrorType: string := "api_error"
  const InternalErrorPrefix: string := "处理请求时发生内部错误: "

  function StatusOf(r: Response): int
  {
    match r
    case Preflight => 204
    case ErrorResponse(status, _) => status
    case _ => 200
  }

  /** `Response.ok`: the status is in 200..299. */
  predicate IsOk(r: Response)
  {
    200 <= StatusOf(r) <= 299
  }

  /** Whether the platform's `Response` constructor accepts `status` together with a body:
      it throws for a status outside 200..599 and for the null-body statuses 204, 205 and 304. */
  predicate CanCarryBody(status: int)
  {
    200 <= status <= 599 && status != 204 && status != 205 && status != 304
  }

  /** The 500 `internal_server_error` answer of a handler's `catch`. The exception's own text,
      which the source appends to the prefix, is not modelled. */
  function InternalError(): (r: Response)
    ensures r.ErrorResponse? && r.status == 500 && r.error.code == "internal_server_error"
    ensures !IsOk(r)
  {
    ErrorResponse(500, ErrorBody(InternalErrorPrefix, ApiErrorType, "internal_server_error"))
  }

  /** `createErrorResponse(message, status, code)`. When the constructor rejects the status, the
      exception reaches the enclosing handler's `catch` and the answer is the internal error. */
  function MakeError(message: string, status: int, code: string): (r: Response)
    ensures CanCarryBody(status) ==> r.ErrorResponse? && r.status == status && r.error == ErrorBody(message, ApiErrorType, code)
    ensures !CanCarryBody(status) ==> r == InternalError()
    ensures !(200 <= status <= 299) ==> !IsOk(r)
  {
    if CanCarryBody(status) then ErrorResponse(status, ErrorBody(message, ApiErrorType, code))
    else InternalError()
  }
}

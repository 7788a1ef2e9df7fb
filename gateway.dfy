/** The worker's entry point: the split between the UI, the API and everything else, the
    bearer-token gate, and the static route table of the API. */
module Gateway {
  import opened Wrappers
  import opened Registry
  import opened Http
  import opened Upstream
  import opened Images
  import opened Chat

  /** `API_MASTER_KEY`, the one shared credential. */
  const ApiMasterKey: string := "1"
  /** Matched literally and case-sensitively, unlike the scheme match of section 2.1 of RFC 6750. */
  const BearerPrefix: string := "Bearer "
  const ApiPrefix: string := "/v1/"
  const ModelOwner: string := "ai-sdk-image-generator-2api"

  const UnauthorizedMessage: string := "需要 Bearer Token 认证。"
  const InvalidKeyMessage: string := "无效的 API Key。"
  const UnsupportedApiPathPrefix: string := "API 路径不支持: "
  const PathNotFoundPrefix: string := "路径未找到: "

  datatype AuthResult = Unauthorized | Forbidden | Authorized

  /** The `Authorization` check: no header, or one without the `Bearer ` prefix, is 401; a token
      (everything after the first seven characters) other than the master key is 403. */
  function Authenticate(header: Option<string>): AuthResult
  {
    if header.None? || header.value == "" || !StartsWith(header.value, BearerPrefix) then Unauthorized
    else if header.value[|BearerPrefix|..] != ApiMasterKey then Forbidden
    else Authorized
  }

  datatype Endpoint = ListModels | ImageGenerations | ChatCompletions | UnknownEndpoint

  /** The static route table of `/v1/`. */
  function Route(path: string): Endpoint
  {
    if path == "/v1/models" then ListModels
    else if path == "/v1/images/generations" then ImageGenerations
    else if path == "/v1/chat/completions" then ChatCompletions
    else UnknownEndpoint
  }

  /** `handleModelsRequest`: one card per registry key, in declaration order. */
  function ModelsResponse(): (r: Response)
    ensures r.ModelList? && IsOk(r)
    ensures |r.cards| == |Models|
    ensures forall i :: 0 <= i < |r.cards| ==> r.cards[i] == ModelCard(Models[i].0, ModelOwner)
  {
    ModelList(seq(|Models|, i requires 0 <= i < |Models| => ModelCard(Models[i].0, ModelOwner)))
  }

  /** `handleApi`: requests to `/v1/...`. */
  function ApiOutcome(req: Request, replies: seq<Reply>, jitters: seq<Jitter>): Outcome
    requires Scripted(replies, jitters)
  {
    if req.verb == "OPTIONS" then Outcome(Preflight, [], [])
    else match Authenticate(req.authorization)
      case Unauthorized => Outcome(MakeError(UnauthorizedMessage, 401, "unauthorized"), [], [])
      case Forbidden => Outcome(MakeError(InvalidKeyMessage, 403, "invalid_api_key"), [], [])
      case Authorized =>
        match Route(req.path)
        case ListModels => Outcome(ModelsResponse(), [], [])
        case ImageGenerations => ImageOutcome(req.body, replies, jitters)
        case ChatCompletions => ChatOutcome(req.body, replies, jitters)
        case UnknownEndpoint => Outcome(MakeError(UnsupportedApiPathPrefix + req.path, 404, "not_found"), [], [])
  }

  /** The `fetch` entry point. Its own 404 uses the type `invalid_request_error`. */
  function FetchOutcome(req: Request, replies: seq<Reply>, jitters: seq<Jitter>): Outcome
    requires Scripted(replies, jitters)
  {
    if req.path == "/" then Outcome(Dashboard, [], [])
    else if StartsWith(req.path, ApiPrefix) then ApiOutcome(req, replies, jitters)
    else Outcome(ErrorResponse(404, ErrorBody(PathNotFoundPrefix + req.path, "invalid_request_error", "not_found")), [], [])
  }

  method HandleApi(req: Request, replies: seq<Reply>, jitters: seq<Jitter>) returns (out: Outcome)
    requires Scripted(replies, jitters)
    ensures out == ApiOutcome(req, replies, jitters)
  {
    if req.verb == "OPTIONS" {
      return Outcome(Preflight, [], []);
    }
    var auth := Authenticate(req.authorization);
    if auth == Unauthorized {
      return Outcome(MakeError(UnauthorizedMessage, 401, "unauthorized"), [], []);
    }
    if auth == Forbidden {
      return Outcome(MakeError(InvalidKeyMessage, 403, "invalid_api_key"), [], []);
    }
    match Route(req.path)
    case ListModels =>
      out := Outcome(ModelsResponse(), [], []);
    case ImageGenerations =>
      out := HandleImageGenerations(req.body, replies, jitters);
    case ChatCompletions =>
      out := HandleChatCompletions(req.body, replies, jitters);
    case UnknownEndpoint =>
      out := Outcome(MakeError(UnsupportedApiPathPrefix + req.path, 404, "not_found"), [], []);
  }

  method Fetch(req: Request, replies: seq<Reply>, jitters: seq<Jitter>) returns (out: Outcome)
    requires Scripted(replies, jitters)
    ensures out == FetchOutcome(req, replies, jitters)
  {
    if req.path == "/" {
      out := Outcome(Dashboard, [], []);
    } else if StartsWith(req.path, ApiPrefix) {
      out := HandleApi(req, replies, jitters);
    } else {
      out := Outcome(ErrorResponse(404, ErrorBody(PathNotFoundPrefix + req.path, "invalid_request_error", "not_found")), [], []);
    }
  }

  /** Exactly the header `Bearer 1` is accepted; a missing header, or one that does not start with
      `Bearer ` (case-sensitive), is 401; every other header is 403. */
  lemma AuthenticateSpec(header: Option<string>)
    ensures Authenticate(header) == Authorized <==> header == Some(BearerPrefix + ApiMasterKey)
    ensures Authenticate(header) == Unauthorized <==> header.None? || !StartsWith(header.value, BearerPrefix)
  {
    if header.Some? && StartsWith(header.value, BearerPrefix) {
      var h := header.value;
      assert h == h[..|BearerPrefix|] + h[|BearerPrefix|..];
    }
    if header == Some(BearerPrefix + ApiMasterKey) {
      assert header.value[..|BearerPrefix|] == BearerPrefix;
      assert header.value[|BearerPrefix|..] == ApiMasterKey;
    }
  }

  /** Every non-preflight `/v1/` request without the right credential is refused before any route
      is looked at, whatever its path and body, and nothing is sent upstream. */
  lemma AuthPrecedesRouting(req: Request, replies: seq<Reply>, jitters: seq<Jitter>)
    requires Scripted(replies, jitters)
    requires StartsWith(req.path, ApiPrefix) && req.verb != "OPTIONS"
    ensures var out := FetchOutcome(req, replies, jitters);
      && (Authenticate(req.authorization) == Unauthorized ==>
            out == Outcome(ErrorResponse(401, ErrorBody(UnauthorizedMessage, ApiErrorType, "unauthorized")), [], []))
      && (Authenticate(req.authorization) == Forbidden ==>
            out == Outcome(ErrorResponse(403, ErrorBody(InvalidKeyMessage, ApiErrorType, "invalid_api_key")), [], []))
  {
  }

  /** An authorised `/v1/` request goes to the handler its path names, and to no other; any other
      `/v1/` path is 404 `not_found`. */
  lemma AuthorizedDispatch(req: Request, replies: seq<Reply>, jitters: seq<Jitter>)
    requires Scripted(replies, jitters)
    requires StartsWith(req.path, ApiPrefix) && req.verb != "OPTIONS"
    requires req.authorization == Some("Bearer 1")
    ensures var out := FetchOutcome(req, replies, jitters);
      && (req.path == "/v1/models" ==> out == Outcome(ModelsResponse(), [], []))
      && (req.path == "/v1/images/generations" ==> out == ImageOutcome(req.body, replies, jitters))
      && (req.path == "/v1/chat/completions" ==> out == ChatOutcome(req.body, replies, jitters))
      && (Route(req.path) == UnknownEndpoint ==>
            out == Outcome(ErrorResponse(404, ErrorBody(UnsupportedApiPathPrefix + req.path, ApiErrorType, "not_found")), [], []))
  {
  }

  /** A path that is neither `/` nor under `/v1/` is 404 `not_found` from the entry point itself,
      with the type `invalid_request_error`, whatever the credential. */
  lemma OutsideApiNotFound(req: Request, replies: seq<Reply>, jitters: seq<Jitter>)
    requires Scripted(replies, jitters)
    requires req.path != "/" && !StartsWith(req.path, ApiPrefix)
    ensures FetchOutcome(req, replies, jitters)
      == Outcome(ErrorResponse(404, ErrorBody(PathNotFoundPrefix + req.path, "invalid_request_error", "not_found")), [], [])
  {
  }

  /** The listing names exactly the registry keys, in declaration order, and an id is listed
      exactly when the image endpoint would resolve it. */
  lemma ListingMatchesRegistry(id: string)
    ensures |ModelsResponse().cards| == |Ids()|
    ensures forall i :: 0 <= i < |Ids()| ==> ModelsResponse().cards[i].id == Ids()[i]
    ensures (exists i :: 0 <= i < |ModelsResponse().cards| && ModelsResponse().cards[i].id == id) <==> Lookup(id).Some?
  {
  }

  /** The upstream is only ever called for an authorised request to one of the two image routes. */
  lemma OnlyImageRoutesCallUpstream(req: Request, replies: seq<Reply>, jitters: seq<Jitter>)
    requires Scripted(replies, jitters)
    requires FetchOutcome(req, replies, jitters).sent != []
    ensures StartsWith(req.path, ApiPrefix) && req.verb != "OPTIONS"
    ensures req.authorization == Some("Bearer 1")
    ensures req.path == "/v1/images/generations" || req.path == "/v1/chat/completions"
  {
    AuthenticateSpec(req.authorization);
    assert BearerPrefix + ApiMasterKey == "Bearer 1";
  }
}

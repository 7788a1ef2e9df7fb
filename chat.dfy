/** The chat-completion adapter: a view over the image pipeline that takes the latest user
    message as the prompt and wraps the generated image in a Markdown chat reply. */
module Chat {
  import opened Wrappers
  import opened Http
  import opened Upstream
  import opened Images

  const NoUserMessageMessage: string := "在 'messages' 中未找到有效的用户消息。"
  const MarkdownPrefix: string := "![Generated Image](data:image/png;base64,"
  const MarkdownSuffix: string := ")"

  /** `messages.filter(m => m.role === 'user')`. */
  function UserMessages(messages: seq<Message>): seq<Message>
  {
    if |messages| == 0 then []
    else
      var last := messages[|messages| - 1];
      UserMessages(messages[..|messages| - 1]) + (if last.role == "user" then [last] else [])
  }

  /** `.pop()` of that filter: the last user message, if any. */
  function LastUserMessage(messages: seq<Message>): Option<Message>
  {
    var users := UserMessages(messages);
    if |users| == 0 then None else Some(users[|users| - 1])
  }

  /** Position `i` holds a user message and no user message follows it. */
  predicate IsLastUserAt(messages: seq<Message>, i: int)
  {
    0 <= i < |messages| && messages[i].role == "user"
    && forall j :: i < j < |messages| ==> messages[j].role != "user"
  }

  lemma {:induction false} UserMessagesLast(messages: seq<Message>)
    ensures |UserMessages(messages)| == 0 <==> forall i :: 0 <= i < |messages| ==> messages[i].role != "user"
    ensures |UserMessages(messages)| > 0 ==>
      exists i :: IsLastUserAt(messages, i) && UserMessages(messages)[|UserMessages(messages)| - 1] == messages[i]
  {
    if |messages| > 0 {
      var n := |messages|;
      var init := messages[..n - 1];
      UserMessagesLast(init);
      assert forall i :: 0 <= i < n - 1 ==> init[i] == messages[i];
      if messages[n - 1].role != "user" && |UserMessages(init)| > 0 {
        var i :| IsLastUserAt(init, i) && UserMessages(init)[|UserMessages(init)| - 1] == init[i];
        assert IsLastUserAt(messages, i);
      } else if messages[n - 1].role == "user" {
        assert IsLastUserAt(messages, n - 1);
      }
    }
  }

  /** At most one position holds the last user message. */
  lemma LastUserAtUnique(messages: seq<Message>, i: int, k: int)
    requires IsLastUserAt(messages, i) && IsLastUserAt(messages, k)
    ensures i == k
  {
  }

  /** The selected message is the last one whose role is `user`; there is none exactly when no
      message has that role. */
  lemma LastUserMessageSpec(messages: seq<Message>, m: Message)
    ensures LastUserMessage(messages).None? <==> forall i :: 0 <= i < |messages| ==> messages[i].role != "user"
    ensures LastUserMessage(messages) == Some(m) <==> exists i :: IsLastUserAt(messages, i) && messages[i] == m
  {
    var users := UserMessages(messages);
    UserMessagesLast(messages);
    if |users| > 0 {
      var k :| IsLastUserAt(messages, k) && users[|users| - 1] == messages[k];
      if i :| IsLastUserAt(messages, i) && messages[i] == m {
        LastUserAtUnique(messages, i, k);
      }
    }
  }

  /** The assistant reply: a Markdown image whose target is a `data:` URI (RFC 2397). */
  function MarkdownImage(b64: string): string
  {
    MarkdownPrefix + b64 + MarkdownSuffix
  }

  /** Reads the base64 payload back out of a Markdown image reply. */
  function ImageFromMarkdown(content: string): Option<string>
  {
    if |content| >= |MarkdownPrefix| + |MarkdownSuffix| && StartsWith(content, MarkdownPrefix)
       && content[|content| - |MarkdownSuffix|..] == MarkdownSuffix
    then Some(content[|MarkdownPrefix|..|content| - |MarkdownSuffix|])
    else None
  }

  /** The reply embeds the image string unchanged: it can be read back exactly. */
  lemma MarkdownRoundTrip(b64: string)
    ensures ImageFromMarkdown(MarkdownImage(b64)) == Some(b64)
  {
  }

  /** The image request the adapter hands to the image pipeline. */
  function ImageRequestFor(prompt: string, modelId: string): RequestBody
  {
    RequestBody(Some(prompt), Some(modelId), Some("b64_json"), None)
  }

  /** The prompt the adapter uses, if the request has a usable one. */
  function ChatPrompt(body: RequestBody): Option<string>
  {
    var user := if body.messages.Some? then LastUserMessage(body.messages.value) else None;
    if user.Some? && Truthy(user.value.content) then user.value.content else None
  }

  /** The chat envelope built around a successful image response: `imageData.data[0].b64_json`.
      The adapter always asks for `b64_json`, so the other branch does not arise
      (`ImageOkIffEnvelope`, `ChatSuccessEnvelope`). */
  function ChatEnvelope(image: Response, modelId: string): Response
  {
    if image.ImageList? && |image.data| > 0 && "b64_json" in image.data[0] then
      ChatCompletion(modelId,
        [Choice(0, ChatMessage("assistant", MarkdownImage(image.data[0]["b64_json"])), "stop")],
        Usage(0, 0, 0))
    else InternalError()
  }

  /** `handleChatCompletions`, with `body == None` when `request.json()` throws. */
  function ChatOutcome(body: Option<RequestBody>, replies: seq<Reply>, jitters: seq<Jitter>): Outcome
    requires Scripted(replies, jitters)
  {
    if body.None? then Outcome(InternalError(), [], [])
    else match ChatPrompt(body.value)
      case None => Outcome(MakeError(NoUserMessageMessage, 400, "invalid_request"), [], [])
      case Some(prompt) =>
        var modelId := ResolveModelId(body.value.model);
        var image := ImageOutcome(Some(ImageRequestFor(prompt, modelId)), replies, jitters);
        if !IsOk(image.response) then image
        else Outcome(ChatEnvelope(image.response, modelId), image.sent, image.delays)
  }

  method HandleChatCompletions(body: Option<RequestBody>, replies: seq<Reply>, jitters: seq<Jitter>)
    returns (out: Outcome)
    requires Scripted(replies, jitters)
    ensures out == ChatOutcome(body, replies, jitters)
  {
    if body.None? {
      return Outcome(InternalError(), [], []);
    }
    var prompt := ChatPrompt(body.value);
    if prompt.None? {
      return Outcome(MakeError(NoUserMessageMessage, 400, "invalid_request"), [], []);
    }
    var modelId := ResolveModelId(body.value.model);
    var image := HandleImageGenerations(Some(ImageRequestFor(prompt.value, modelId)), replies, jitters);
    if !IsOk(image.response) {
      return image;
    }
    out := Outcome(ChatEnvelope(image.response, modelId), image.sent, image.delays);
  }

  /** Only the image envelope of the image pipeline is ok; every other answer is an error.
      This restates the last postcondition of `ImageOutcome` for the chat path, where
      `if (!imageResponse.ok)` is the test that separates the two. */
  lemma ImageOkIffEnvelope(body: Option<RequestBody>, replies: seq<Reply>, jitters: seq<Jitter>)
    requires Scripted(replies, jitters)
    ensures IsOk(ImageOutcome(body, replies, jitters).response) <==> ImageOutcome(body, replies, jitters).response.ImageList?
  {
  }

  /** Without a user message, or when the last one has empty content, the request is rejected
      with 400 `invalid_request` and nothing is sent upstream. */
  lemma NoUserPromptRejected(body: RequestBody, replies: seq<Reply>, jitters: seq<Jitter>)
    requires Scripted(replies, jitters)
    requires body.messages.None? || LastUserMessage(body.messages.value).None?
             || !Truthy(LastUserMessage(body.messages.value).value.content)
    ensures ChatOutcome(Some(body), replies, jitters)
      == Outcome(ErrorResponse(400, ErrorBody(NoUserMessageMessage, ApiErrorType, "invalid_request")), [], [])
  {
  }

  /** A chat request is the image request for its last user message, with format `b64_json` and
      model `model || DEFAULT_MODEL`: the upstream sees exactly the calls and waits of that image
      request, an image failure is returned unchanged, and an image success always becomes the
      chat envelope. */
  lemma ChatDelegatesToImages(body: RequestBody, prompt: string, replies: seq<Reply>, jitters: seq<Jitter>)
    requires Scripted(replies, jitters)
    requires ChatPrompt(body) == Some(prompt)
    ensures var image := ImageOutcome(Some(ImageRequestFor(prompt, ResolveModelId(body.model))), replies, jitters);
      var chat := ChatOutcome(Some(body), replies, jitters);
      && chat.sent == image.sent
      && chat.delays == image.delays
      && (!IsOk(image.response) ==> chat == image)
      && (IsOk(image.response) ==> chat.response.ChatCompletion? && IsOk(chat.response))
      && (forall i :: 0 <= i < |chat.sent| ==> chat.sent[i].prompt == prompt)
  {
    var req := ImageRequestFor(prompt, ResolveModelId(body.model));
    var image := ImageOutcome(Some(req), replies, jitters);
    if Translate(req).Failure? {
      RejectionSendsNothing(Some(req), replies, jitters);
    }
    if IsOk(image.response) {
      ImageSuccessPassthrough(req, replies, jitters);
    }
  }

  /** A successful chat reply has one choice, from the assistant, with `finish_reason` "stop",
      all-zero usage, and content exactly the Markdown image of the upstream's base64 string. */
  lemma ChatSuccessEnvelope(body: RequestBody, replies: seq<Reply>, jitters: seq<Jitter>)
    requires Scripted(replies, jitters)
    requires IsOk(ChatOutcome(Some(body), replies, jitters).response)
    ensures var chat := ChatOutcome(Some(body), replies, jitters);
      && ChatPrompt(body).Some?
      && 1 <= |chat.sent| <= MaxAttempts
      && var last := replies[|chat.sent| - 1];
      && last.Reply? && Ok(last.status) && last.json.Parsed? && Truthy(last.json.image)
      && chat.response == ChatCompletion(ResolveModelId(body.model),
           [Choice(0, ChatMessage("assistant", "![Generated Image](data:image/png;base64," + last.json.image.value + ")"), "stop")],
           Usage(0, 0, 0))
  {
  }
}

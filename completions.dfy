/** `chat_completions` in app/main.py: authorise the caller, reject an empty
    message list, resolve the upstream model, create / reuse / replace the
    caller's session, extract the turn, prefix the system instruction on a
    fresh session only, call the upstream once, and answer with one
    completion or a synthetic event stream. The upstream client and its reply
    are inputs: `client` is what `get_client()` gives or raises, `upstream`
    what `send_message` gives or raises. */
module Completions {
  import opened Wrappers
  import opened Strings
  import opened Errors
  import opened Auth
  import opened Formatter
  import opened Models
  import opened Sessions
  import opened Turns

  /** `ChatCompletionRequest`, reduced to what the request path reads; the
      sampling parameters are accepted but never used. */
  datatype ChatRequest = ChatRequest(model: string, messages: seq<ChatMessage>, stream: bool)

  /** The upstream `ModelOutput`: reply text and whether images came with it. */
  datatype ModelOutput = ModelOutput(text: string, hasImages: bool)

  datatype HttpResponse =
    | JsonCompletion(completion: ChatCompletionResponse)
    | EventStream(frames: seq<string>)
    | ErrorResponse(error: ErrorReply)

  /** The text sent upstream: the system instruction and a blank line before
      the prompt on a fresh session with a non-empty system instruction (the
      truthiness test of line 426), the prompt alone otherwise. */
  function ComposePrompt(isNewSession: bool, systemPrompt: Option<string>, userPrompt: string): (r: string)
    ensures r == userPrompt <==> !(isNewSession && systemPrompt.Some? && systemPrompt.value != "")
    ensures r != userPrompt ==> r == systemPrompt.value + "\n\n" + userPrompt
    ensures |r| >= |userPrompt| && r[|r| - |userPrompt|..] == userPrompt
  {
    if isNewSession && systemPrompt.Some? && systemPrompt.value != "" then systemPrompt.value + "\n\n" + userPrompt else userPrompt
  }

  /** Lines 444-448: an empty reply without images is accepted as `""`. */
  function NormalizeReply(output: ModelOutput): string {
    if output.text == "" && !output.hasImages then "" else output.text
  }

  /** The empty-reply branch never turns a reply into an error and never
      changes its text: the reply rendered is always the upstream text. */
  lemma NormalizeReplyKeepsText(output: ModelOutput)
    ensures NormalizeReply(output) == output.text
  {
  }

  /** Lines 444-469: the answer built from a successful upstream reply.
      Usage counts the caller's prompt, not the composed text. */
  function RenderReply(request: ChatRequest, userPrompt: string, output: ModelOutput, chatHex: string, now: int,
                       serialize: ChatCompletionChunkResponse -> string): HttpResponse {
    var text := NormalizeReply(output);
    var id := FreshId(chatHex);
    if request.stream then EventStream(Frames(StreamEvents(text, request.model, id, now), serialize))
    else JsonCompletion(FormatResponse(Some(userPrompt), text, request.model, Some(id), chatHex, now))
  }

  /** What the caller receives carries the upstream text: the single choice
      holds it (usage counting the caller's prompt, not the composed text),
      or the stream's deltas concatenate to it exactly. */
  lemma RenderedReplyContent(request: ChatRequest, userPrompt: string, output: ModelOutput, chatHex: string, now: int,
                             serialize: ChatCompletionChunkResponse -> string)
    ensures var r := RenderReply(request, userPrompt, output, chatHex, now, serialize);
      && (!request.stream ==>
            && r.JsonCompletion?
            && r.completion.id == FreshId(chatHex)
            && r.completion.choices[0].message.content == Some(output.text)
            && r.completion.usage.promptTokens == CountTokens(Some(userPrompt)))
      && (request.stream ==>
            && r.EventStream?
            && r.frames == Frames(StreamEvents(output.text, request.model, FreshId(chatHex), now), serialize)
            && StreamedContent(StreamEvents(output.text, request.model, FreshId(chatHex), now)) == output.text)
  {
    StreamRoundTrip(output.text, request.model, FreshId(chatHex), now);
  }

  /** The request gets past authorisation, the message check and `get_client`. */
  predicate Admitted(settings: Settings, authorization: Option<string>, request: ChatRequest, client: Result<ClientId, Failure>) {
    GetApiKey(authorization, settings.allowedApiKeys).Success? && request.messages != [] && client.Success?
  }

  method ChatCompletions(registry: SessionRegistry, settings: Settings, known: set<string>,
                         authorization: Option<string>, request: ChatRequest,
                         client: Result<ClientId, Failure>, upstream: Result<ModelOutput, Failure>,
                         chatHex: string, now: int, serialize: ChatCompletionChunkResponse -> string)
    returns (response: HttpResponse, sent: Option<string>)
    modifies registry
    // rejected before the registry is touched
    ensures GetApiKey(authorization, settings.allowedApiKeys).Failure? ==>
      response == ErrorResponse(GetApiKey(authorization, settings.allowedApiKeys).error)
    ensures GetApiKey(authorization, settings.allowedApiKeys).Success? && request.messages == [] ==>
      response == ErrorResponse(MissingMessages)
    ensures GetApiKey(authorization, settings.allowedApiKeys).Success? && request.messages != [] && client.Failure? ==>
      response == ErrorResponse(HandleFailure(client.error))
    ensures !Admitted(settings, authorization, request, client) ==>
      sent == None && registry.sessions == old(registry.sessions)
    // admitted: the registry is updated first, whatever happens next
    ensures Admitted(settings, authorization, request, client) ==>
      var token := GetApiKey(authorization, settings.allowedApiKeys).value;
      var model := ResolveModel(request.model, settings, known);
      var isNew := NeedsNewSession(old(registry.sessions), token, client.value, model);
      && token in registry.sessions
      && registry.sessions[token].client == client.value && registry.sessions[token].model == model
      && (forall k :: k != token ==> (k in registry.sessions <==> k in old(registry.sessions)))
      && (forall k :: k != token && k in old(registry.sessions) ==> registry.sessions[k] == old(registry.sessions)[k])
      && (isNew ==> fresh(registry.sessions[token]))
      && (!isNew ==> registry.sessions == old(registry.sessions))
      && (UserPrompt(request.messages).Failure? ==> response == ErrorResponse(InvalidPrompt) && sent == None)
      && (UserPrompt(request.messages).Success? ==>
            && sent == Some(ComposePrompt(isNew, FirstSystem(request.messages), UserPrompt(request.messages).value))
            && response == match upstream
                           case Failure(f) => ErrorResponse(HandleFailure(f))
                           case Success(output) =>
                             RenderReply(request, UserPrompt(request.messages).value, output, chatHex, now, serialize))
  {
    var auth := GetApiKey(authorization, settings.allowedApiKeys);
    if auth.Failure? {
      return ErrorResponse(auth.error), None;
    }
    var apiKeyToken := auth.value;
    if |request.messages| == 0 {
      return ErrorResponse(MissingMessages), None;
    }
    if client.Failure? {
      return ErrorResponse(HandleFailure(client.error)), None;
    }
    var geminiClient := client.value;

    var model := ResolveModel(request.model, settings, known);
    var chatSession, isNewSessionInstance := registry.Resolve(apiKeyToken, geminiClient, model);

    var systemPromptContent := ScanSystemPrompt(request.messages);
    var currentUserPrompt := ScanUserPrompt(request.messages);
    if currentUserPrompt.None? || currentUserPrompt.value == "" {
      var last := request.messages[|request.messages| - 1];
      if |request.messages| > 0 && last.content.Some? && last.content.value != "" {
        currentUserPrompt := last.content;
      } else {
        return ErrorResponse(InvalidPrompt), None;
      }
    }
    var userPrompt := currentUserPrompt.value;

    var finalPromptToSend := ComposePrompt(isNewSessionInstance, systemPromptContent, userPrompt);
    sent := Some(finalPromptToSend);
    if upstream.Failure? {
      return ErrorResponse(HandleFailure(upstream.error)), sent;
    }

    var geminiResponseText := NormalizeReply(upstream.value);
    var responseChatId := FreshId(chatHex);
    if request.stream {
      var frames := GenerateStreamingChunks(geminiResponseText, request.model, Some(responseChatId), chatHex, now, serialize);
      response := EventStream(frames);
    } else {
      response := JsonCompletion(FormatResponse(Some(userPrompt), geminiResponseText, request.model, Some(responseChatId), chatHex, now));
    }
  }

  /** Two turns of one caller on one client and model, both carrying the same
      system message: the first sends `system + "\n\n" + user`, the second the
      new user text alone. */
  method SystemPromptSentOnce(settings: Settings, known: set<string>, token: string, model: string,
                              sys: string, u1: string, u2: string, client: ClientId, reply: ModelOutput,
                              chatHex: string, now: int, serialize: ChatCompletionChunkResponse -> string)
    returns (sent1: Option<string>, sent2: Option<string>)
    requires IsWord(token) && token in settings.allowedApiKeys
    requires sys != "" && u1 != "" && u2 != ""
    ensures sent1 == Some(sys + "\n\n" + u1)
    ensures sent2 == Some(u2)
  {
    var registry := new SessionRegistry();
    AcceptsBearerToken("Bearer", token, settings.allowedApiKeys);
    var header := Some("Bearer" + " " + token);
    var system := ChatMessage(System, Some(sys));
    var turn1 := [system, ChatMessage(User, Some(u1))];
    var turn2 := turn1 + [ChatMessage(Assistant, Some(reply.text)), ChatMessage(User, Some(u2))];
    assert FirstSystem(turn1) == Some(sys) && UserPrompt(turn1) == Success(u1);
    assert FirstSystem(turn2) == Some(sys) && UserPrompt(turn2) == Success(u2);
    var response1, response2;
    response1, sent1 := ChatCompletions(registry, settings, known, header, ChatRequest(model, turn1, false),
                                        Success(client), Success(reply), chatHex, now, serialize);
    response2, sent2 := ChatCompletions(registry, settings, known, header, ChatRequest(model, turn2, true),
                                        Success(client), Success(reply), chatHex, now, serialize);
  }

  /** A fresh session's first request that has no usable prompt is rejected,
      yet it has already stored the session: the system message of the next
      request is never sent. */
  method FailedExtractionConsumesFreshness(settings: Settings, known: set<string>, token: string, model: string,
                                           sys: string, u: string, client: ClientId, reply: ModelOutput,
                                           chatHex: string, now: int, serialize: ChatCompletionChunkResponse -> string)
    returns (response1: HttpResponse, sent1: Option<string>, sent2: Option<string>)
    requires IsWord(token) && token in settings.allowedApiKeys
    requires sys != "" && u != ""
    ensures response1 == ErrorResponse(InvalidPrompt) && sent1 == None
    ensures sent2 == Some(u)
  {
    var registry := new SessionRegistry();
    AcceptsBearerToken("Bearer", token, settings.allowedApiKeys);
    var header := Some("Bearer" + " " + token);
    var system := ChatMessage(System, Some(sys));
    var turn1 := [system, ChatMessage(User, Some(""))];
    var turn2 := [system, ChatMessage(User, Some(u))];
    assert UserPrompt(turn1).Failure?;
    assert FirstSystem(turn2) == Some(sys) && UserPrompt(turn2) == Success(u);
    var response2;
    response1, sent1 := ChatCompletions(registry, settings, known, header, ChatRequest(model, turn1, false),
                                        Success(client), Success(reply), chatHex, now, serialize);
    response2, sent2 := ChatCompletions(registry, settings, known, header, ChatRequest(model, turn2, false),
                                        Success(client), Success(reply), chatHex, now, serialize);
  }

  /** The same when the first request fails upstream: its error is reported,
      and the retry goes out without the system instruction. */
  method FailedUpstreamConsumesFreshness(settings: Settings, known: set<string>, token: string, model: string,
                                         sys: string, u: string, client: ClientId, failure: Failure, reply: ModelOutput,
                                         chatHex: string, now: int, serialize: ChatCompletionChunkResponse -> string)
    returns (response1: HttpResponse, sent1: Option<string>, sent2: Option<string>)
    requires IsWord(token) && token in settings.allowedApiKeys
    requires sys != "" && u != ""
    ensures response1 == ErrorResponse(HandleFailure(failure)) && sent1 == Some(sys + "\n\n" + u)
    ensures sent2 == Some(u)
  {
    var registry := new SessionRegistry();
    AcceptsBearerToken("Bearer", token, settings.allowedApiKeys);
    var header := Some("Bearer" + " " + token);
    var turn := [ChatMessage(System, Some(sys)), ChatMessage(User, Some(u))];
    assert FirstSystem(turn) == Some(sys) && UserPrompt(turn) == Success(u);
    var response2;
    response1, sent1 := ChatCompletions(registry, settings, known, header, ChatRequest(model, turn, false),
                                        Success(client), Failure(failure), chatHex, now, serialize);
    response2, sent2 := ChatCompletions(registry, settings, known, header, ChatRequest(model, turn, false),
                                        Success(client), Success(reply), chatHex, now, serialize);
  }
}

# Gemini OpenAI-compatible proxy — verified model of the request path

This project models, in Dafny, the core of a proxy that exposes the OpenAI
`/v1/chat/completions` and `/v1/models` endpoints on top of a stateful,
cookie-authenticated Gemini web client:

- **Authorization** (`Auth`): `get_api_key` turns the `Authorization` header into
  the caller's API token or a 401/403 error envelope.
- **Error envelopes** (`Errors`): the global exception handlers, a fixed
  (status, code) per upstream failure kind; `HTTPException` passes through.
- **Model names** (`Models`): the OpenAI-to-Gemini map with its default and the
  `UNSPECIFIED` fallback of `Model.from_name`; `list_models`.
- **Session registry** (`Sessions`): `active_chat_sessions`, a class whose map
  field is updated in place; create / reuse / replace per caller token.
- **Turn extraction** (`Turns`): first non-empty system message, last non-empty
  user message, fallback to the last message; both scans are loops with `break`.
- **Orchestration** (`Completions`): `chat_completions` in the source's order —
  auth, empty-message check, client, model, registry write, extraction,
  prompt composition, one upstream call, then a completion or an event stream.
- **Response formatting** (`Formatter`): word-count token estimate, the
  `chat.completion` object, and the synthetic stream generator (a loop that
  keeps `accumulated_content` equal to the deltas sent so far), with the
  exact round trip of `reply.split(" ")`.
- **Python string operations** (`Strings`): `str.split()` over Python's exact
  whitespace set, `str.split(" ")`, `" ".join`, and their round trips.

The upstream client is an input: `get_client()` is a `Result<ClientId, Failure>`,
`send_message` a `Result<ModelOutput, Failure>`, `Model.from_name` a set of known
model names. Ids (`uuid4().hex`), timestamps (`time.time()`) and JSON encoding
(`model_dump_json`, as a function `serialize`) are parameters.

### Behaviour worth knowing

- The session is stored (app/main.py:381-396) before the prompt is
  extracted (410-423) and before the upstream call (436), so a first request
  that fails at either point has already used up the session's freshness; the
  next request goes out without the system text.
  `Completions.FailedExtractionConsumesFreshness` and
  `Completions.FailedUpstreamConsumesFreshness` prove this.
- The streaming split (`reply.split(" ")`, app/utils/openai_formatter.py:79)
  keeps empty pieces, so the deltas rebuild the reply exactly, runs of spaces
  included (`Formatter.StreamRoundTrip`).
- The empty-reply branch (app/main.py:446-448) assigns `""` to a text that is
  already `""`: it never changes the reply (`Completions.NormalizeReplyKeepsText`).

## Model

| member | source | states |
|---|---|---|
| `Strings.Words` | app/main.py:69 | every element of `s.split()` is non-empty and whitespace-free |
| `Strings.WordsEmptyIff` | app/utils/openai_formatter.py:23 | `s.split()` is empty exactly when `s` is empty or all whitespace |
| `Strings.WordsOfJoin` | app/main.py:69 | splitting on whitespace gives back words joined by single spaces |
| `Strings.SplitOnSpace` | app/utils/openai_formatter.py:79 | `s.split(" ")` has one more piece than `s` has spaces, and no piece contains a space |
| `Strings.JoinSplit` | app/utils/openai_formatter.py:79-84 | joining the pieces of `s.split(" ")` with single spaces gives `s` back |
| `Strings.SplitJoin` | app/utils/openai_formatter.py:79 | `split(" ")` undoes joining space-free pieces |
| `Errors.HandleFailure` | app/main.py:102-231 | HTTPException is returned unchanged; every other kind gets its fixed status, type and code, `param = "model"` only for ModelInvalid, no challenge header, and a message ending in the exception text |
| `Errors.HandlerTable` | app/main.py:102-231 | the nine rows (kind, status, code) of the handler table |
| `Errors.HandleFailureIsStableAndDistinct` | app/main.py:102-231 | status and code depend on the kind only, and two kinds share a code only if they are the same kind |
| `Errors.CodesDistinct` | app/main.py:102-231 | the nine error codes are pairwise different |
| `Auth.GetApiKey` | app/main.py:54-98 | success iff the header is present, splits into exactly two parts, the first `bearer` in any case, the second allowed — and then yields that second part; missing/empty → 401 `missing_authorization_header`, malformed → 401 `invalid_authorization_format`, not allowed → 403 `invalid_api_key`, each iff its condition |
| `Auth.AcceptsBearerToken` | app/main.py:69-98 | `<bearer in any case> <token>` with an allowed whitespace-free token yields exactly that token |
| `Auth.BlankHeaderIsFormatError` | app/main.py:55-82 | a present but all-whitespace header is a format error, not a missing header |
| `Formatter.CountTokens` | app/utils/openai_formatter.py:19-23 | `None` counts 0; a text counts 0 exactly when it is blank |
| `Formatter.CountTokensOfJoin` | app/utils/openai_formatter.py:19-23 | n words joined by spaces count as n tokens |
| `Formatter.FreshId` | app/utils/openai_formatter.py:35 | a generated id is `chatcmpl-` followed by the first 12 characters of the hex string (all of it when shorter) |
| `Formatter.CompletionId` | app/utils/openai_formatter.py:35 | the supplied id when non-empty, otherwise a generated `chatcmpl-` id; never empty |
| `Formatter.FormatResponse` | app/utils/openai_formatter.py:26-59 | `object = "chat.completion"`, exactly one choice (index 0, role `assistant`, the reply as content, `finish_reason = stop`), usage = token counts of prompt and reply and their sum |
| `Formatter.EmptyReplyCompletion` | app/utils/openai_formatter.py:38-58 | an empty reply gives empty content, `stop`, zero completion tokens |
| `Formatter.ConcatDeltas` | app/utils/openai_formatter.py:82-84 | the deltas (`piece + " "` except the last) concatenate to the pieces joined by spaces |
| `Formatter.DeltasRebuildReply` | app/utils/openai_formatter.py:79-84 | the deltas of `reply.split(" ")` concatenate back to `reply` (final value of `accumulated_content`) |
| `Formatter.GenerateStreamingChunks` | app/utils/openai_formatter.py:61-116 | the generator's loop yields exactly the frames of the specified event sequence, with the accumulator invariant |
| `Formatter.StreamRoundTrip` | app/utils/openai_formatter.py:79-116 | the concatenated delta contents of the whole stream equal the reply, runs of spaces included |
| `Formatter.StreamMatchesCompletion` | app/utils/openai_formatter.py:42-116 | the streamed text equals the non-streaming completion's content for the same reply |
| `Formatter.StreamShape` | app/utils/openai_formatter.py:71-116 | spaces+1 content chunks sharing id and timestamp, no role, no finish reason; every delta but the last ends with a space, the last has none; then one stop chunk with an empty delta, then `[DONE]`, nothing after |
| `Formatter.FramesWellFormed` | app/utils/openai_formatter.py:98-116 | every frame is `data: …` plus a blank line; the last is `data: [DONE]` |
| `Models.Lookup` | app/main.py:368-369 | a value is found iff the name is a key of the map, and it is that key's value |
| `Models.LookupUnique` | app/main.py:368-369 | with distinct keys, as a dict has, `MAP[name]` is the value of the one entry carrying `name` |
| `Models.UpstreamModelName` | app/main.py:365-372 | the map value for a mapped name, the configured default otherwise |
| `Models.ResolveModel` | app/main.py:365-378 | the upstream model of the chosen name if the library knows it, `UNSPECIFIED` otherwise; never fails |
| `Models.UnmappedModelUsesDefault` | app/main.py:366-378 | an unmapped request resolves exactly as the default name does |
| `Models.DedupSpec` | app/main.py:311-318 | the de-duplicated list has no repetition, the same elements, and is the identity on a list without repetition |
| `Models.AdvertisedIdsSpec` | app/main.py:307-326 | advertised ids: the map's keys in order without repetition; with no map `["gpt-3.5-turbo"]` unless the default is `unspecified`, then nothing |
| `Models.ListModels` | app/main.py:307-326 | the loop builds one card per advertised id, each `object = "model"`, the shared `created`, `owned_by = "proxy-engine"` |
| `Sessions.ChatSession.constructor` | app/main.py:385-395 | `start_chat` binds the new session to the client, model and metadata given |
| `Sessions.SessionRegistry.constructor` | app/main.py:42 | the registry starts empty |
| `Sessions.SessionRegistry.Resolve` | app/main.py:381-396 | absent key → new session stored, fresh; same client and model → same session, map unchanged, not fresh; otherwise a new session on the new client/model with the old metadata replaces it, fresh; other keys untouched |
| `Sessions.SessionLifecycle` | app/main.py:381-396 | first request fresh, repeat reuses, model switch replaces (keeping metadata), repeat reuses the replacement |
| `Turns.FirstSystem` | app/main.py:398-402 | some text iff a non-empty system message exists, and then it is the first one's |
| `Turns.LastUser` | app/main.py:404-408 | some text iff a non-empty user message exists, and then it is the last one's |
| `Turns.UserPrompt` | app/main.py:404-423 | fails (`invalid_prompt`) iff there is no non-empty user message and the last message has no text; otherwise the prompt is the text of the last non-empty user message, or, when there is none, of the last message |
| `Turns.ScanSystemPrompt` | app/main.py:398-402 | the forward loop with `break` finds `FirstSystem` |
| `Turns.ScanUserPrompt` | app/main.py:404-408 | the backward loop with `break` finds `LastUser` |
| `Turns.LaterSystemIgnored` | app/main.py:398-402 | appending messages never changes a system text already found |
| `Turns.FallbackToLastMessage` | app/main.py:410-412 | when no user message has text (none at all, or only `None`/empty ones), a non-empty last message of any role is the prompt |
| `Completions.ComposePrompt` | app/main.py:425-428 | the text sent is the user text alone unless the session is fresh and the system text is non-empty, then `system + "\n\n" + user`; it always ends with the user text |
| `Completions.NormalizeReplyKeepsText` | app/main.py:444-448 | the empty-reply branch never changes the reply text |
| `Completions.RenderedReplyContent` | app/main.py:444-469 | non-streaming: one completion with the `chatcmpl-` id, the reply as content, usage from the user prompt; streaming: the generator's frames, whose deltas rebuild the reply |
| `Completions.ChatCompletions` | app/main.py:340-469 | auth, empty-message and client failures answer before the registry is touched; otherwise the caller's session is written first, then `invalid_prompt` or the composed prompt is sent and the upstream reply or failure is rendered |
| `Completions.SystemPromptSentOnce` | app/main.py:380-428 | same caller, same model, system message in both turns: first sends `system + "\n\n" + user1`, second `user2` alone |
| `Completions.FailedExtractionConsumesFreshness` | app/main.py:381-423 | a fresh first request rejected for `invalid_prompt` still stores the session, so the next request's system text is not sent |
| `Completions.FailedUpstreamConsumesFreshness` | app/main.py:381-442 | a fresh first request failing upstream reports that failure, and the retry goes out without the system text |

## Left out

- Logging: every `logger.*` call, the request-ID middleware (app/main.py:234-276), `safe_prompt_to_log` (432-433) and the debug dumps — they only log.
- The append of each payload to `request_payloads.log` (app/main.py:345-346): file I/O.
- The health, billing mock and startup handlers (app/main.py:279-301): no logic beyond constant answers and a client warm-up.
- app/services/gemini_service.py: the lazily initialised client behind an `asyncio.Lock` is network I/O; its result is the `client` input. Its cookie-error invalidation sits in `generate_content`, which the request path does not call.
- app/core/config.py: loading the environment and `json.loads` of the model map; the map is given as the dict's ordered entries and the default as a string.
- Pydantic validation of the request body (422 answers, float ranges of the sampling parameters) and the unused sampling parameters themselves.
- `uuid4`, `time.time()` and `model_dump_json(exclude_none=True)`: parameters (`chatHex`, `now`, `serialize`). The formatter's own fallback `uuid4` draw receives the same hex string; it is never used on the request path because the id passed in is never empty.
- The `{"detail": ...}` wrapping FastAPI applies to an `HTTPException` body, and the `text/event-stream` media type: framework encoding.
- Sessions.ChatSession: `send_message` updating the session's conversation metadata is upstream behaviour; the fields are constant here.
- Auth.IsBearerScheme: compares with ASCII lower-casing instead of Python's full Unicode `lower()`; for the target `bearer` the two agree, since the only non-ASCII characters that lower-case into ASCII (KELVIN SIGN, LATIN CAPITAL I WITH DOT) do not yield any letter of `bearer`.
- Async scheduling and races on `active_chat_sessions` between concurrent requests of one caller.
- Exception subclasses of the upstream library beyond the nine kinds with handlers (they reach the handler of their base class).

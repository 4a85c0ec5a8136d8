/** app/utils/openai_formatter.py: the word-count token estimate, the
    non-streaming `chat.completion` object, and the synthetic stream of
    `chat.completion.chunk` server-sent events built from one complete reply.
    JSON encoding is left abstract: `serialize` stands for `model_dump_json`. */
module Formatter {
  import opened Wrappers
  import opened Strings

  datatype FinishReason = Stop | Length | ToolCalls | ContentFilter

  datatype ResponseMessage = ResponseMessage(role: string, content: Option<string>)

  datatype Choice = Choice(index: int, message: ResponseMessage, finishReason: Option<FinishReason>)

  datatype Usage = Usage(promptTokens: int, completionTokens: int, totalTokens: int)

  datatype ChatCompletionResponse = ChatCompletionResponse(
    id: string, obj: string, created: int, model: string, choices: seq<Choice>, usage: Usage)

  datatype DeltaMessage = DeltaMessage(role: Option<string>, content: Option<string>)

  datatype StreamingChoice = StreamingChoice(index: int, delta: DeltaMessage, finishReason: Option<FinishReason>)

  datatype ChatCompletionChunkResponse = ChatCompletionChunkResponse(
    id: string, obj: string, created: int, model: string, choices: seq<StreamingChoice>)

  /** One server-sent event of the stream: a chunk, or the `[DONE]` sentinel. */
  datatype StreamEvent = DataEvent(chunk: ChatCompletionChunkResponse) | DoneEvent

  // ---------------------------------------------------------------- tokens

  /** `count_tokens`: 0 for `None`, otherwise the number of
      whitespace-separated words, so 0 exactly for blank text. */
  function CountTokens(text: Option<string>): (n: nat)
    ensures text.None? ==> n == 0
    ensures text.Some? ==> (n == 0 <==> AllSpace(text.value))
  {
    if text.None? then 0
    else
      WordsEmptyIff(text.value);
      |Words(text.value)|
  }

  /** Words joined by single spaces count as exactly that many tokens. */
  lemma {:induction false} CountTokensOfJoin(ws: seq<string>)
    requires forall i :: 0 <= i < |ws| ==> IsWord(ws[i])
    ensures CountTokens(Some(Join(ws, " "))) == |ws|
  {
    WordsOfJoin(ws);
  }

  // -------------------------------------------------------------------- ids

  /** `f"chatcmpl-{hex[:12]}"` for a freshly drawn uuid hex string. */
  function FreshId(hex: string): (id: string)
    ensures |id| >= 9 && id[..9] == "chatcmpl-"
    ensures |id| <= 21 && (|hex| >= 12 ==> |id| == 21)
    ensures id[9..] <= hex && (|hex| < 12 ==> id[9..] == hex)
  {
    "chatcmpl-" + (if |hex| <= 12 then hex else hex[..12])
  }

  /** `original_request_id or f"chatcmpl-..."`: the supplied id unless it is
      `None` or empty. */
  function CompletionId(original: Option<string>, hex: string): (id: string)
    ensures id != ""
    ensures original.Some? && original.value != "" ==> id == original.value
    ensures original.None? || original.value == "" ==> |id| >= 9 && id[..9] == "chatcmpl-"
  {
    if original.Some? && original.value != "" then original.value else FreshId(hex)
  }

  // -------------------------------------------------------- non-streaming

  /** `format_to_openai_response`: one `assistant` choice carrying the whole
      reply and `finish_reason = "stop"`, with estimated usage. */
  function FormatResponse(prompt: Option<string>, reply: string, model: string,
                          original: Option<string>, hex: string, created: int): (r: ChatCompletionResponse)
    ensures r.obj == "chat.completion" && r.created == created && r.model == model
    ensures r.id != "" && (original.Some? && original.value != "" ==> r.id == original.value)
    ensures |r.choices| == 1
    ensures r.choices[0] == Choice(0, ResponseMessage("assistant", Some(reply)), Some(Stop))
    ensures r.usage.promptTokens == CountTokens(prompt)
    ensures r.usage.completionTokens == CountTokens(Some(reply))
    ensures r.usage.totalTokens == r.usage.promptTokens + r.usage.completionTokens
  {
    var promptTokens := CountTokens(prompt);
    var completionTokens := CountTokens(Some(reply));
    ChatCompletionResponse(
      CompletionId(original, hex), "chat.completion", created, model,
      [Choice(0, ResponseMessage("assistant", Some(reply)), Some(Stop))],
      Usage(promptTokens, completionTokens, promptTokens + completionTokens))
  }

  /** An empty reply is still a well-formed completion: empty content,
      `finish_reason = "stop"`, no completion tokens. */
  lemma {:induction false} EmptyReplyCompletion(prompt: Option<string>, model: string, original: Option<string>, hex: string, created: int)
    ensures var r := FormatResponse(prompt, "", model, original, hex, created);
      r.choices[0].message.content == Some("") && r.choices[0].finishReason == Some(Stop)
      && r.usage.completionTokens == 0 && r.usage.totalTokens == CountTokens(prompt)
  {
  }

  // ------------------------------------------------------------ streaming

  /** The delta of each piece of `reply.split(" ")`: the piece followed by
      the space it was cut at, except for the last piece. */
  function Deltas(pieces: seq<string>): (ds: seq<string>)
    ensures |ds| == |pieces|
  {
    seq(|pieces|, i requires 0 <= i < |pieces| => pieces[i] + (if i < |pieces| - 1 then " " else ""))
  }

  /** The deltas concatenate to the pieces joined by single spaces. */
  lemma {:induction false} ConcatDeltas(ps: seq<string>)
    ensures Concat(Deltas(ps)) == Join(ps, " ")
    decreases |ps|
  {
    var ds := Deltas(ps);
    if |ps| == 1 {
      assert ds == [ps[0] + ""];
      assert ds[1..] == [];
      assert ps[0] + "" == ps[0];
    } else if |ps| > 1 {
      assert ds[0] == ps[0] + " ";
      assert ds[1..] == Deltas(ps[1..]);
      ConcatDeltas(ps[1..]);
    }
  }

  function ContentChunk(id: string, model: string, created: int, delta: string): ChatCompletionChunkResponse {
    ChatCompletionChunkResponse(id, "chat.completion.chunk", created, model,
      [StreamingChoice(0, DeltaMessage(None, Some(delta)), None)])
  }

  function StopChunk(id: string, model: string, created: int): ChatCompletionChunkResponse {
    ChatCompletionChunkResponse(id, "chat.completion.chunk", created, model,
      [StreamingChoice(0, DeltaMessage(None, None), Some(Stop))])
  }

  /** The events `generate_openai_streaming_chunks` yields for `reply`: one
      content chunk per piece of `reply.split(" ")`, one stop chunk, `[DONE]`. */
  function StreamEvents(reply: string, model: string, id: string, created: int): seq<StreamEvent> {
    var ds := Deltas(SplitOnSpace(reply));
    seq(|ds|, i requires 0 <= i < |ds| => DataEvent(ContentChunk(id, model, created, ds[i])))
      + [DataEvent(StopChunk(id, model, created)), DoneEvent]
  }

  /** The wire form of one event: `data: <json>` and a blank line. */
  function Frame(e: StreamEvent, serialize: ChatCompletionChunkResponse -> string): string {
    match e
    case DataEvent(c) => "data: " + serialize(c) + "\n\n"
    case DoneEvent => "data: [DONE]\n\n"
  }

  function Frames(es: seq<StreamEvent>, serialize: ChatCompletionChunkResponse -> string): (fs: seq<string>)
    ensures |fs| == |es|
  {
    seq(|es|, i requires 0 <= i < |es| => Frame(es[i], serialize))
  }

  lemma {:induction false} FramesPrefix(es: seq<StreamEvent>, k: nat, serialize: ChatCompletionChunkResponse -> string)
    requires k < |es|
    ensures Frames(es[..k + 1], serialize) == Frames(es[..k], serialize) + [Frame(es[k], serialize)]
  {
  }

  lemma {:induction false} FramesAppend(es: seq<StreamEvent>, tail: seq<StreamEvent>, serialize: ChatCompletionChunkResponse -> string)
    ensures Frames(es + tail, serialize) == Frames(es, serialize) + Frames(tail, serialize)
  {
  }

  lemma {:induction false} StreamEventsEnd(reply: string, model: string, id: string, created: int)
    ensures var es := StreamEvents(reply, model, id, created);
      var n := |SplitOnSpace(reply)|;
      es == es[..n] + [DataEvent(StopChunk(id, model, created)), DoneEvent]
  {
  }

  lemma {:induction false} ConcatPrefixStep(ss: seq<string>, k: nat)
    requires k < |ss|
    ensures Concat(ss[..k + 1]) == Concat(ss[..k]) + ss[k]
  {
    assert ss[..k + 1] == ss[..k] + [ss[k]];
    ConcatAppend(ss[..k], [ss[k]]);
    assert Concat([ss[k]]) == ss[k] + "";
  }

  /** The deltas of `reply.split(" ")` concatenate back to `reply`. */
  lemma {:induction false} DeltasRebuildReply(reply: string)
    ensures Concat(Deltas(SplitOnSpace(reply))) == reply
  {
    ConcatDeltas(SplitOnSpace(reply));
    JoinSplit(reply);
  }

  lemma {:induction false} ContentEventAt(reply: string, model: string, id: string, created: int, i: nat)
    requires i < |SplitOnSpace(reply)|
    ensures var ps := SplitOnSpace(reply);
      StreamEvents(reply, model, id, created)[i]
        == DataEvent(ContentChunk(id, model, created, ps[i] + (if i < |ps| - 1 then " " else "")))
  {
  }

  /** `generate_openai_streaming_chunks`: yields the frames in order, keeping
      `accumulated_content` equal to the deltas sent so far. */
  method GenerateStreamingChunks(reply: string, model: string, original: Option<string>, hex: string,
                                 created: int, serialize: ChatCompletionChunkResponse -> string)
    returns (frames: seq<string>)
    ensures frames == Frames(StreamEvents(reply, model, CompletionId(original, hex), created), serialize)
  {
    var id := CompletionId(original, hex);
    var words := SplitOnSpace(reply);
    ghost var events := StreamEvents(reply, model, id, created);
    ghost var ds := Deltas(words);
    var accumulated := "";
    frames := [];
    var i := 0;
    while i < |words|
      invariant 0 <= i <= |words|
      invariant accumulated == Concat(ds[..i])
      invariant frames == Frames(events[..i], serialize)
    {
      var delta := words[i] + (if i < |words| - 1 then " " else "");
      ConcatPrefixStep(ds, i);
      accumulated := accumulated + delta;
      var chunk := ContentChunk(id, model, created, delta);
      ContentEventAt(reply, model, id, created, i);
      FramesPrefix(events, i, serialize);
      frames := frames + ["data: " + serialize(chunk) + "\n\n"];
      i := i + 1;
    }
    assert accumulated == reply by {
      assert ds[..i] == ds;
      DeltasRebuildReply(reply);
    }
    var finalChunk := StopChunk(id, model, created);
    frames := frames + ["data: " + serialize(finalChunk) + "\n\n"];
    frames := frames + ["data: [DONE]\n\n"];
    StreamEventsEnd(reply, model, id, created);
    FramesAppend(events[..i], [DataEvent(finalChunk), DoneEvent], serialize);
  }

  /** What a client reassembles: the concatenated delta contents. */
  function DeltaText(e: StreamEvent): string {
    if e.DataEvent? && |e.chunk.choices| > 0 && e.chunk.choices[0].delta.content.Some?
    then e.chunk.choices[0].delta.content.value else ""
  }

  function StreamedContent(es: seq<StreamEvent>): string {
    Concat(seq(|es|, i requires 0 <= i < |es| => DeltaText(es[i])))
  }

  /** The stream reproduces the reply exactly, runs of spaces included. */
  lemma {:induction false} StreamRoundTrip(reply: string, model: string, id: string, created: int)
    ensures StreamedContent(StreamEvents(reply, model, id, created)) == reply
  {
    var es := StreamEvents(reply, model, id, created);
    var ds := Deltas(SplitOnSpace(reply));
    var texts := seq(|es|, i requires 0 <= i < |es| => DeltaText(es[i]));
    assert texts == ds + ["", ""];
    ConcatAppend(ds, ["", ""]);
    assert Concat(["", ""]) == "";
    ConcatDeltas(SplitOnSpace(reply));
    JoinSplit(reply);
  }

  /** The streamed text equals the content of the non-streaming completion
      for the same reply. */
  lemma {:induction false} StreamMatchesCompletion(prompt: Option<string>, reply: string, model: string,
                                original: Option<string>, hex: string, created: int)
    ensures Some(StreamedContent(StreamEvents(reply, model, CompletionId(original, hex), created)))
         == FormatResponse(prompt, reply, model, original, hex, created).choices[0].message.content
  {
    StreamRoundTrip(reply, model, CompletionId(original, hex), created);
  }

  /** Shape of the stream: one content chunk per space plus one, each with no
      role and no finish reason, all sharing the id and timestamp; every
      delta but the last ends with the space it was cut at and the last has
      no space at all; then one stop chunk with an empty delta, then `[DONE]`. */
  lemma {:induction false} StreamShape(reply: string, model: string, id: string, created: int)
    ensures var es := StreamEvents(reply, model, id, created);
      var n := multiset(reply)[' '] + 1;
      && |es| == n + 2
      && (forall i :: 0 <= i < n ==>
            && es[i].DataEvent? && es[i].chunk.id == id && es[i].chunk.created == created
            && es[i].chunk.obj == "chat.completion.chunk" && |es[i].chunk.choices| == 1
            && es[i].chunk.choices[0].index == 0
            && es[i].chunk.choices[0].finishReason == None
            && es[i].chunk.choices[0].delta.role == None
            && es[i].chunk.choices[0].delta.content.Some?)
      && (forall i :: 0 <= i < n - 1 ==> DeltaText(es[i]) == SplitOnSpace(reply)[i] + " ")
      && ' ' !in DeltaText(es[n - 1])
      && es[n] == DataEvent(StopChunk(id, model, created))
      && es[n].chunk.choices[0].delta == DeltaMessage(None, None)
      && es[n + 1] == DoneEvent
  {
    var ps := SplitOnSpace(reply);
    var n := |ps|;
    assert DeltaText(StreamEvents(reply, model, id, created)[n - 1]) == ps[n - 1] + "";
    assert ps[n - 1] + "" == ps[n - 1];
  }

  /** Every frame is `data: ...` followed by a blank line, and the last one
      is the `[DONE]` sentinel. */
  lemma {:induction false} FramesWellFormed(reply: string, model: string, id: string, created: int,
                         serialize: ChatCompletionChunkResponse -> string)
    ensures var fs := Frames(StreamEvents(reply, model, id, created), serialize);
      && |fs| >= 2
      && (forall i :: 0 <= i < |fs| ==> |fs[i]| >= 8 && fs[i][..6] == "data: " && fs[i][|fs[i]| - 2..] == "\n\n")
      && fs[|fs| - 1] == "data: [DONE]\n\n"
  {
    var es := StreamEvents(reply, model, id, created);
    var fs := Frames(es, serialize);
    forall i | 0 <= i < |fs| ensures |fs[i]| >= 8 && fs[i][..6] == "data: " && fs[i][|fs[i]| - 2..] == "\n\n" {
      if es[i].DataEvent? {
        var body := serialize(es[i].chunk);
        assert fs[i] == "data: " + body + "\n\n";
      }
    }
  }
}

/** The turn extractor of `chat_completions`: the standing system
    instruction is the first non-empty `system` message, the prompt the last
    non-empty `user` message, falling back to the last message of any role. */
module Turns {
  import opened Wrappers
  import opened Errors

  datatype Role = System | User | Assistant | Tool

  /** `ChatMessage`: a role and optional content. */
  datatype ChatMessage = ChatMessage(role: Role, content: Option<string>)

  /** Python truthiness of `msg.content`: present and non-empty. */
  predicate HasText(m: ChatMessage) {
    m.content.Some? && m.content.value != ""
  }

  predicate IsSystemTurn(m: ChatMessage) {
    m.role == System && HasText(m)
  }

  predicate IsUserTurn(m: ChatMessage) {
    m.role == User && HasText(m)
  }

  /** The content of the first non-empty system message, if any. */
  function FirstSystem(ms: seq<ChatMessage>): (r: Option<string>)
    ensures r.Some? <==> exists i :: 0 <= i < |ms| && IsSystemTurn(ms[i])
    ensures r.Some? ==> exists i :: 0 <= i < |ms| && IsSystemTurn(ms[i]) && ms[i].content == r
                          && forall j :: 0 <= j < i ==> !IsSystemTurn(ms[j])
    decreases |ms|
  {
    if ms == [] then None
    else if IsSystemTurn(ms[0]) then ms[0].content
    else
      var tail := ms[1..];
      var r := FirstSystem(tail);
      assert forall i :: 1 <= i < |ms| ==> ms[i] == tail[i - 1];
      assert r.Some? ==> exists i :: 0 <= i < |ms| && IsSystemTurn(ms[i]) && ms[i].content == r
                          && forall j :: 0 <= j < i ==> !IsSystemTurn(ms[j]) by {
        if r.Some? {
          var i :| 0 <= i < |tail| && IsSystemTurn(tail[i]) && tail[i].content == r
                   && forall j :: 0 <= j < i ==> !IsSystemTurn(tail[j]);
          assert IsSystemTurn(ms[i + 1]) && ms[i + 1].content == r;
        }
      }
      r
  }

  /** The content of the last non-empty user message, if any. */
  function LastUser(ms: seq<ChatMessage>): (r: Option<string>)
    ensures r.Some? <==> exists i :: 0 <= i < |ms| && IsUserTurn(ms[i])
    ensures r.Some? ==> exists i :: 0 <= i < |ms| && IsUserTurn(ms[i]) && ms[i].content == r
                          && forall j :: i < j < |ms| ==> !IsUserTurn(ms[j])
    decreases |ms|
  {
    if ms == [] then None
    else if IsUserTurn(ms[|ms| - 1]) then ms[|ms| - 1].content
    else
      var init := ms[..|ms| - 1];
      var r := LastUser(init);
      assert forall i :: 0 <= i < |init| ==> ms[i] == init[i];
      assert r.Some? ==> exists i :: 0 <= i < |ms| && IsUserTurn(ms[i]) && ms[i].content == r
                          && forall j :: i < j < |ms| ==> !IsUserTurn(ms[j]) by {
        if r.Some? {
          var i :| 0 <= i < |init| && IsUserTurn(init[i]) && init[i].content == r
                   && forall j :: i < j < |init| ==> !IsUserTurn(init[j]);
          assert IsUserTurn(ms[i]) && ms[i].content == r;
        }
      }
      r
  }

  /** The prompt of the turn: the last user text, else the last message's
      text whatever its role, else `invalid_prompt`. */
  function UserPrompt(ms: seq<ChatMessage>): (r: Result<string, ErrorReply>)
    ensures r.Success? ==> r.value != ""
    ensures r.Success? ==>
      exists i :: 0 <= i < |ms| && ms[i].content == Some(r.value)
                  && ((IsUserTurn(ms[i]) && forall j :: i < j < |ms| ==> !IsUserTurn(ms[j]))
                      || (i == |ms| - 1 && forall j :: 0 <= j < |ms| ==> !IsUserTurn(ms[j])))
    ensures r.Failure? <==> LastUser(ms).None? && (ms == [] || !HasText(ms[|ms| - 1]))
    ensures r.Failure? ==> r.error == InvalidPrompt
  {
    match LastUser(ms)
    case Some(u) => Success(u)
    case None =>
      if |ms| > 0 && HasText(ms[|ms| - 1]) then Success(ms[|ms| - 1].content.value)
      else Failure(InvalidPrompt)
  }

  /** The loop over `request_payload.messages` that stops at the first
      non-empty system message. */
  method ScanSystemPrompt(ms: seq<ChatMessage>) returns (systemPrompt: Option<string>)
    ensures systemPrompt == FirstSystem(ms)
  {
    systemPrompt := None;
    var i := 0;
    while i < |ms|
      invariant 0 <= i <= |ms|
      invariant systemPrompt == None
      invariant forall j :: 0 <= j < i ==> !IsSystemTurn(ms[j])
    {
      if ms[i].role == System && ms[i].content.Some? && ms[i].content.value != "" {
        systemPrompt := ms[i].content;
        break;
      }
      i := i + 1;
    }
  }

  /** The loop over `reversed(request_payload.messages)` that stops at the
      last non-empty user message. */
  method ScanUserPrompt(ms: seq<ChatMessage>) returns (userPrompt: Option<string>)
    ensures userPrompt == LastUser(ms)
  {
    userPrompt := None;
    var i := |ms|;
    while i > 0
      invariant 0 <= i <= |ms|
      invariant userPrompt == None
      invariant forall j :: i <= j < |ms| ==> !IsUserTurn(ms[j])
    {
      if ms[i - 1].role == User && ms[i - 1].content.Some? && ms[i - 1].content.value != "" {
        userPrompt := ms[i - 1].content;
        break;
      }
      i := i - 1;
    }
  }

  /** A later system message never overrides an earlier one. */
  lemma {:induction false} LaterSystemIgnored(ms: seq<ChatMessage>, more: seq<ChatMessage>)
    requires FirstSystem(ms).Some?
    ensures FirstSystem(ms + more) == FirstSystem(ms)
    decreases |ms|
  {
    assert (ms + more)[0] == ms[0];
    if !IsSystemTurn(ms[0]) {
      assert (ms + more)[1..] == ms[1..] + more;
      LaterSystemIgnored(ms[1..], more);
    }
  }

  /** With no user message that has text (none at all, or only ones whose
      content is `None` or empty), a non-empty final message of any role (an
      assistant reply, say) is taken as the prompt. */
  lemma FallbackToLastMessage(ms: seq<ChatMessage>)
    requires forall i :: 0 <= i < |ms| ==> !IsUserTurn(ms[i])
    requires |ms| > 0 && HasText(ms[|ms| - 1])
    ensures UserPrompt(ms) == Success(ms[|ms| - 1].content.value)
  {
  }
}

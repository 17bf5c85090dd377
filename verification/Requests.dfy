// From the log to the provider, end to end: buildContext (packages/sessions/src/native-strategy.ts) and then
// toModelMessages (packages/ports/llm/src/drivers/ai-sdk.ts).
module Requests {
  import opened Prelude
  import opened Events
  import opened Conversation
  import opened ModelMessages
  import opened Pairing

  // Text blocks run together in order, none dropped, nothing put between them.
  lemma {:induction false} PlainTextSplits(a: seq<string>, b: seq<string>)
    ensures PlainText(a + b) == PlainText(a) + PlainText(b)
    ensures PlainText([]) == "" && forall block :: PlainText([block]) == block
  {
    if a == [] {
      assert a + b == b;
    } else {
      assert (a + b)[1..] == a[1..] + b;
      PlainTextSplits(a[1..], b);
    }
  }

  // m tells the provider what the event says: all its words, its call, or the command's very bytes.
  predicate Relays(sessionId: string, m: ModelMessage, p: Payload) {
    match p
    case UserMessage(content) => m == UserTurn(PlainText(content))
    case AssistantMessage(content, calls) =>
      if calls == [] then m == AssistantTurn(PlainText(content))
      else
        && m.AssistantCall? && m.call == calls[0]
        && (if PlainText(content) == "" then m.text.None? else m.text == Some(PlainText(content)))
    case ToolResult(key, res) =>
      m.ToolTurn? && m.value == res.output && m.toolCallId == ToolUseId(PrintKey(sessionId, key))
    case _ => false
  }

  predicate RelaysAt(sessionId: string, out: seq<ModelMessage>, log: Log, at: seq<nat>, i: int) {
    0 <= i < |at| && i < |out| && at[i] < |log| && Relays(sessionId, out[i], log[at[i]].payload)
  }

  // The request relays every message, reply and result of the log once, in order, and nothing else.
  ghost predicate RelaysLog(sessionId: string, out: seq<ModelMessage>, log: Log, at: seq<nat>) {
    && |out| == |at|
    && (forall i, j :: 0 <= i < j < |at| ==> at[i] < at[j])
    && (forall i :: 0 <= i < |at| ==> RelaysAt(sessionId, out, log, at, i))
    && (forall j: nat :: j < |log| && IsTalk(log[j].payload) ==> j in at)
  }

  predicate IsTalk(p: Payload) { p.UserMessage? || p.AssistantMessage? || p.ToolResult? }

  lemma TellsWhatItRepeats(sessionId: string, m: ModelMessage, said: ChatMessage, p: Payload)
    requires Tells(sessionId, m, said) && Repeats(said, p)
    ensures Relays(sessionId, m, p)
  {
  }

  // The message at place i of the context becomes the one before it in the request.
  lemma PlaceInRequest(sessionId: string, messages: seq<ChatMessage>, i: nat)
    requires OneSystem(messages) && 1 <= i < |messages|
    ensures var out := ConvertUpTo(sessionId, messages, |messages|);
      |out| == |messages| - 1 && Tells(sessionId, out[i - 1], messages[i])
  {
    ConvertedAt(sessionId, messages, i);
    ConvertedTells(sessionId, messages, i);
  }

  lemma RelayedAt(sessionId: string, log: Log, sys: string, at: seq<nat>, i: nat)
    requires Transcribes(Context(log, sys), log, at) && i < |at|
    ensures var ms := Context(log, sys); RelaysAt(sessionId, ConvertUpTo(sessionId, ms, |ms|), log, at, i)
  {
    var ms := Context(log, sys);
    ContextHasOneSystem(log, sys);
    assert RepeatsAt(ms, log, at, i);
    PlaceInRequest(sessionId, ms, i + 1);
    TellsWhatItRepeats(sessionId, ConvertUpTo(sessionId, ms, |ms|)[i], ms[i + 1], log[at[i]].payload);
  }

  // What the model is sent, whatever the log: the system prompt as instructions, and the whole conversation.
  lemma RequestTellsTheLog(sessionId: string, log: Log, sys: string)
    ensures var ms := Context(log, sys);
      && (exists at :: RelaysLog(sessionId, ConvertUpTo(sessionId, ms, |ms|), log, at))
      && JoinParts(SystemParts(ms)) == sys && SystemParts(ms) != []
  {
    var ms := Context(log, sys);
    ContextIsTheConversation(log, sys);
    var at :| Transcribes(ms, log, at);
    RequestLength(log, sessionId, sys);
    OneSystemPart(ms);
    var out := ConvertUpTo(sessionId, ms, |ms|);
    forall i | 0 <= i < |at| ensures RelaysAt(sessionId, out, log, at, i) { RelayedAt(sessionId, log, sys, at, i); }
    forall j: nat | j < |log| && IsTalk(log[j].payload) ensures j in at { assert TalksAt(log, j); }
    assert RelaysLog(sessionId, out, log, at);
  }

  // The two loops, one after the other.
  method RequestFor(sessionId: string, events: Log, systemPrompt: string) returns (r: Request)
    ensures r.instructions == Some(systemPrompt)
    ensures exists at :: RelaysLog(sessionId, r.messages, events, at)
  {
    var messages := BuildContext(events, systemPrompt);
    r := ToModelMessages(sessionId, messages);
    RequestTellsTheLog(sessionId, events, systemPrompt);
  }
}

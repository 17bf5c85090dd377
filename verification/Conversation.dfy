// From the log to provider messages: buildContext (packages/sessions/src/native-strategy.ts).
module Conversation {
  import opened Prelude
  import opened Events

  datatype ChatMessage =
    | SystemText(content: string)
    | UserText(content: string)
    | AssistantText(content: string, toolCall: Option<ToolCall>)
    | ToolOutput(idemKey: IdemKey, output: seq<byte>, exitCode: int)

  // Bookkeeping events are not conversation.
  function MessageOf(p: Payload): seq<ChatMessage> {
    match p
    case UserMessage(content) => [UserText(PlainText(content))]
    case AssistantMessage(content, calls) =>
      [AssistantText(PlainText(content), if calls != [] then Some(calls[0]) else None)]
    case ToolResult(key, res) => [ToolOutput(key, res.output, res.exitCode)]
    case _ => []
  }

  function Context(log: Log, systemPrompt: string): (messages: seq<ChatMessage>)
    ensures messages != [] && messages[0] == SystemText(systemPrompt)
  {
    if log == [] then [SystemText(systemPrompt)]
    else Context(log[..|log| - 1], systemPrompt) + MessageOf(log[|log| - 1].payload)
  }

  method BuildContext(events: Log, systemPrompt: string) returns (messages: seq<ChatMessage>)
    ensures messages == Context(events, systemPrompt)
  {
    messages := [SystemText(systemPrompt)];
    for i := 0 to |events|
      invariant messages == Context(events[..i], systemPrompt)
    {
      assert events[..i + 1][..i] == events[..i];
      match events[i].payload
      case UserMessage(content) =>
        messages := messages + [UserText(PlainText(content))];
      case AssistantMessage(content, calls) =>
        messages := messages + [AssistantText(PlainText(content), if calls != [] then Some(calls[0]) else None)];
      case ToolResult(key, res) =>
        messages := messages + [ToolOutput(key, res.output, res.exitCode)];
      case _ =>
    }
    assert events[..|events|] == events;
  }
  // ------------------------------------------------------------- what a context holds

  predicate IsConversation(p: Payload) { KindOf(p) in {User, Assistant, Result} }

  // A message repeats an event: its words, its first call, or its output under its key.
  predicate Repeats(m: ChatMessage, p: Payload) {
    match m
    case SystemText(_) => false
    case UserText(content) => p.UserMessage? && content == PlainText(p.content)
    case AssistantText(content, call) =>
      && p.AssistantMessage? && content == PlainText(p.content)
      && (if p.toolCalls == [] then call.None? else call == Some(p.toolCalls[0]))
    case ToolOutput(key, output, exitCode) =>
      p.ToolResult? && key == p.idemKey && output == p.result.output && exitCode == p.result.exitCode
  }

  predicate RepeatsAt(messages: seq<ChatMessage>, log: Log, at: seq<nat>, i: int) {
    0 <= i < |at| && i + 1 < |messages| && at[i] < |log| && Repeats(messages[i + 1], log[at[i]].payload)
  }

  predicate TalksAt(log: Log, j: nat) { j < |log| && IsConversation(log[j].payload) }

  // Behind the system prompt, message i + 1 repeats event at[i]; every conversation event is there once.
  ghost predicate Transcribes(messages: seq<ChatMessage>, log: Log, at: seq<nat>) {
    && |messages| == |at| + 1
    && (forall i, j :: 0 <= i < j < |at| ==> at[i] < at[j])
    && (forall i :: 0 <= i < |at| ==> RepeatsAt(messages, log, at, i))
    && (forall j: nat :: TalksAt(log, j) ==> j in at)
  }

  lemma BookkeepingAddsNothing(messages: seq<ChatMessage>, log: Log, at: seq<nat>, e: Event)
    requires Transcribes(messages, log, at) && !IsConversation(e.payload)
    ensures Transcribes(messages, log + [e], at)
  {
    var log' := log + [e];
    forall i | 0 <= i < |at| ensures RepeatsAt(messages, log', at, i) { assert RepeatsAt(messages, log, at, i); }
    forall j: nat | TalksAt(log', j) ensures j in at { assert TalksAt(log, j); }
  }

  lemma TalkAddsOne(messages: seq<ChatMessage>, log: Log, at: seq<nat>, e: Event, m: ChatMessage)
    requires Transcribes(messages, log, at) && Repeats(m, e.payload)
    ensures Transcribes(messages + [m], log + [e], at + [|log|])
  {
    var messages', log', at' := messages + [m], log + [e], at + [|log|];
    forall i | 0 <= i < |at'| ensures RepeatsAt(messages', log', at', i) {
      if i < |at| { assert RepeatsAt(messages, log, at, i); }
    }
    forall j: nat | TalksAt(log', j) ensures j in at' {
      if j < |log| { assert TalksAt(log, j); } else { assert at'[|at|] == j; }
    }
    forall i, j | 0 <= i < j < |at'| ensures at'[i] < at'[j] {
      assert RepeatsAt(messages, log, at, i);
    }
  }

  ghost predicate IsTranscript(messages: seq<ChatMessage>, log: Log) { exists at :: Transcribes(messages, log, at) }

  lemma TranscriptGrows(messages: seq<ChatMessage>, log: Log, e: Event)
    requires IsTranscript(messages, log)
    ensures IsTranscript(messages + MessageOf(e.payload), log + [e])
  {
    var at :| Transcribes(messages, log, at);
    if IsConversation(e.payload) {
      TalkAddsOne(messages, log, at, e, MessageOf(e.payload)[0]);
      assert MessageOf(e.payload) == [MessageOf(e.payload)[0]];
    } else {
      BookkeepingAddsNothing(messages, log, at, e);
      assert messages + MessageOf(e.payload) == messages;
    }
  }

  // The context is the whole conversation, in order, once each, and nothing else.
  lemma {:induction false} ContextIsTheConversation(log: Log, systemPrompt: string)
    ensures IsTranscript(Context(log, systemPrompt), log)
  {
    if log == [] {
      assert Transcribes([SystemText(systemPrompt)], [], []);
    } else {
      var before, e := log[..|log| - 1], log[|log| - 1];
      ContextIsTheConversation(before, systemPrompt);
      TranscriptGrows(Context(before, systemPrompt), before, e);
      assert log == before + [e];
    }
  }
}

// From chat messages to provider messages: toModelMessages and toolUseId
// (packages/ports/llm/src/drivers/ai-sdk.ts).
module ModelMessages {
  import opened Prelude
  import opened Events
  import opened Conversation

  datatype ModelMessage =
    | UserTurn(content: string)
    | AssistantTurn(content: string)
    | AssistantCall(text: Option<string>, toolCallId: string, call: ToolCall)  // a text part only if there is text
    | ToolTurn(toolCallId: string, value: seq<byte>)

  datatype Request = Request(instructions: Option<string>, messages: seq<ModelMessage>)

  // ------------------------------------------------------------------- ids

  predicate IdChar(c: char) {
    'a' <= c <= 'z' || 'A' <= c <= 'Z' || '0' <= c <= '9' || c == '_' || c == '-'
  }

  // Providers accept only [a-zA-Z0-9_-] in ids; every other character becomes '_'.
  function ToolUseId(key: string): (id: string)
    ensures |id| == |key| && forall i :: 0 <= i < |id| ==> IdChar(id[i])
    ensures forall i :: 0 <= i < |id| ==> id[i] == if IdChar(key[i]) then key[i] else '_'
  {
    if key == "" then "" else [if IdChar(key[0]) then key[0] else '_'] + ToolUseId(key[1..])
  }

  lemma DecimalInjective(m: nat, n: nat)
    requires Decimal(m) == Decimal(n)
    ensures m == n
  {
    DecimalRoundTrip(m);
    DecimalRoundTrip(n);
  }

  lemma {:induction false} ToolUseIdSplits(a: string, b: string)
    ensures ToolUseId(a + b) == ToolUseId(a) + ToolUseId(b)
  {
    if a == "" {
      assert a + b == b;
    } else {
      assert (a + b)[1..] == a[1..] + b;
      ToolUseIdSplits(a[1..], b);
    }
  }

  lemma {:induction false} DigitsUnchanged(s: string)
    requires forall i :: 0 <= i < |s| ==> IsDigit(s[i])
    ensures ToolUseId(s) == s
  {
    if s != "" { DigitsUnchanged(s[1..]); }
  }

  // A number between separators keeps its digits.
  lemma NumberedIdShape(n: nat, tail: string)
    ensures ToolUseId(":" + (Decimal(n) + tail)) == "_" + (Decimal(n) + ToolUseId(tail))
  {
    ToolUseIdSplits(":", Decimal(n) + tail);
    ToolUseIdSplits(Decimal(n), tail);
    DigitsUnchanged(Decimal(n));
    assert ToolUseId(":") == "_";
  }

  lemma KeyParts(sessionId: string, n: nat)
    ensures PrintKey(sessionId, IdemKey(n, 0)) == sessionId + (":" + (Decimal(n) + ":0"))
  {
    assert Decimal(0) == "0";
  }

  lemma Reassociate(a: string, b: string, c: string, d: string)
    ensures a + (b + (c + d)) == a + b + c + d
  {
  }

  lemma LastPart()
    ensures ToolUseId(":0") == "_0"
  {
  }

  // The id of a journaled call, character by character.
  lemma CallIdShape(sessionId: string, n: nat)
    ensures ToolUseId(PrintKey(sessionId, IdemKey(n, 0))) == ToolUseId(sessionId) + "_" + Decimal(n) + "_0"
  {
    KeyParts(sessionId, n);
    ToolUseIdSplits(sessionId, ":" + (Decimal(n) + ":0"));
    NumberedIdShape(n, ":0");
    LastPart();
    Reassociate(ToolUseId(sessionId), "_", Decimal(n), "_0");
  }

  lemma MiddleDetermined(a: string, x: string, y: string, b: string)
    requires a + x + b == a + y + b
    ensures x == y
  {
    var s, t := a + x + b, a + y + b;
    assert |s| == |t| && |x| == |y|;
    forall i | 0 <= i < |x| ensures x[i] == y[i] {
      assert s[|a| + i] == x[i] && t[|a| + i] == y[i];
    }
  }

  // Distinct calls of one session keep distinct ids, although mapping characters loses information.
  lemma CallIdsDistinct(sessionId: string, m: nat, n: nat)
    requires ToolUseId(PrintKey(sessionId, IdemKey(m, 0))) == ToolUseId(PrintKey(sessionId, IdemKey(n, 0)))
    ensures m == n
  {
    CallIdShape(sessionId, m);
    CallIdShape(sessionId, n);
    MiddleDetermined(ToolUseId(sessionId) + "_", Decimal(m), Decimal(n), "_0");
    DecimalInjective(m, n);
  }

  // The placeholder id of a call with no result next to it, by its place in the message list.
  function OpenCallId(i: nat): string { "call-" + Decimal(i) }

  lemma OpenIdsDistinct(i: nat, j: nat)
    requires OpenCallId(i) == OpenCallId(j)
    ensures i == j
  {
    assert OpenCallId(i) + "" == OpenCallId(i) && OpenCallId(j) + "" == OpenCallId(j);
    MiddleDetermined("call-", Decimal(i), Decimal(j), "");
    DecimalInjective(i, j);
  }

  // A placeholder never collides with the id of an answered call.
  lemma OpenIdIsNoCallId(i: nat, sessionId: string, n: nat)
    ensures OpenCallId(i) != ToolUseId(PrintKey(sessionId, IdemKey(n, 0)))
  {
    CallIdShape(sessionId, n);
    var id := ToolUseId(sessionId) + "_" + Decimal(n) + "_0";
    assert id[|id| - 2] == '_';
    var open := OpenCallId(i);
    var p := |open| - 2;
    if p >= 5 { assert open[p] == Decimal(i)[p - 5]; } else { assert open[p] == '-'; }
  }

  // ------------------------------------------------------------- conversion

  // The id put on the call at place i: its result's, when the next message is a result.
  function CallId(sessionId: string, messages: seq<ChatMessage>, i: nat): string
    requires i < |messages|
  {
    if i + 1 < |messages| && messages[i + 1].ToolOutput? then
      ToolUseId(PrintKey(sessionId, messages[i + 1].idemKey))
    else OpenCallId(i)
  }

  function TextPart(content: string): Option<string> { if content == "" then None else Some(content) }

  function Converted(sessionId: string, messages: seq<ChatMessage>, i: nat): seq<ModelMessage>
    requires i < |messages|
  {
    match messages[i]
    case SystemText(_) => []
    case UserText(content) => [UserTurn(content)]
    case AssistantText(content, Some(call)) => [AssistantCall(TextPart(content), CallId(sessionId, messages, i), call)]
    case AssistantText(content, None) => [AssistantTurn(content)]
    case ToolOutput(key, output, _) => [ToolTurn(ToolUseId(PrintKey(sessionId, key)), output)]
  }

  // The first n messages, converted in order.
  function ConvertUpTo(sessionId: string, messages: seq<ChatMessage>, n: nat): seq<ModelMessage>
    requires n <= |messages|
  {
    if n == 0 then [] else ConvertUpTo(sessionId, messages, n - 1) + Converted(sessionId, messages, n - 1)
  }

  function JoinParts(parts: seq<string>): string {
    if parts == [] then ""
    else if |parts| == 1 then parts[0]
    else JoinParts(parts[..|parts| - 1]) + "\n\n" + parts[|parts| - 1]
  }

  function SystemParts(messages: seq<ChatMessage>): seq<string> {
    if messages == [] then []
    else SystemParts(messages[..|messages| - 1])
         + if messages[|messages| - 1].SystemText? then [messages[|messages| - 1].content] else []
  }

  // ------------------------------------------------------- what the provider is told

  // m tells the provider what the chat message says: the same words, the same call, the same bytes.
  predicate Tells(sessionId: string, m: ModelMessage, said: ChatMessage) {
    match said
    case SystemText(_) => false
    case UserText(content) => m == UserTurn(content)
    case AssistantText(content, None) => m == AssistantTurn(content)
    case AssistantText(content, Some(call)) =>
      && m.AssistantCall? && m.call == call
      && (if content == "" then m.text.None? else m.text == Some(content))
    case ToolOutput(key, output, _) =>
      && m.ToolTurn? && m.value == output
      && m.toolCallId == ToolUseId(sessionId + ":" + Decimal(key.seqNo) + ":" + Decimal(key.index))
  }

  predicate TellsAt(sessionId: string, out: seq<ModelMessage>, messages: seq<ChatMessage>, at: seq<nat>, i: int) {
    0 <= i < |at| && i < |out| && at[i] < |messages| && Tells(sessionId, out[i], messages[at[i]])
  }

  // The messages of the request are the chat messages in order, each once, the system's left out.
  ghost predicate Renders(sessionId: string, out: seq<ModelMessage>, messages: seq<ChatMessage>, at: seq<nat>) {
    && |out| == |at|
    && (forall i, j :: 0 <= i < j < |at| ==> at[i] < at[j])
    && (forall i :: 0 <= i < |at| ==> TellsAt(sessionId, out, messages, at, i))
    && (forall j: nat :: j < |messages| && !messages[j].SystemText? ==> j in at)
  }

  ghost predicate IsRendering(sessionId: string, out: seq<ModelMessage>, messages: seq<ChatMessage>) {
    exists at :: Renders(sessionId, out, messages, at)
  }

  lemma ConvertedTells(sessionId: string, messages: seq<ChatMessage>, i: nat)
    requires i < |messages| && !messages[i].SystemText?
    ensures |Converted(sessionId, messages, i)| == 1
    ensures Tells(sessionId, Converted(sessionId, messages, i)[0], messages[i])
  {
  }

  lemma RendersOneMore(sessionId: string, out: seq<ModelMessage>, messages: seq<ChatMessage>, n: nat, at: seq<nat>)
    requires n < |messages| && Renders(sessionId, out, messages[..n], at)
    ensures IsRendering(sessionId, out + Converted(sessionId, messages, n), messages[..n + 1])
  {
    var out', upTo := out + Converted(sessionId, messages, n), messages[..n + 1];
    forall i | 0 <= i < |at| ensures TellsAt(sessionId, out', upTo, at, i) && at[i] < n {
      assert TellsAt(sessionId, out, messages[..n], at, i);
    }
    if messages[n].SystemText? {
      assert Renders(sessionId, out', upTo, at) by {
        forall j: nat | j < |upTo| && !upTo[j].SystemText? ensures j in at { assert messages[..n][j] == upTo[j]; }
      }
    } else {
      ConvertedTells(sessionId, messages, n);
      var at' := at + [n];
      forall i | 0 <= i < |at'| ensures TellsAt(sessionId, out', upTo, at', i) {
        if i < |at| { assert TellsAt(sessionId, out', upTo, at, i); }
      }
      forall j: nat | j < |upTo| && !upTo[j].SystemText? ensures j in at' {
        if j < n { assert messages[..n][j] == upTo[j]; } else { assert at'[|at|] == j; }
      }
      assert Renders(sessionId, out', upTo, at');
    }
  }

  lemma {:induction false} ConvertRenders(sessionId: string, messages: seq<ChatMessage>, n: nat)
    requires n <= |messages|
    ensures IsRendering(sessionId, ConvertUpTo(sessionId, messages, n), messages[..n])
  {
    if n == 0 {
      assert Renders(sessionId, [], messages[..0], []);
    } else {
      ConvertRenders(sessionId, messages, n - 1);
      var at :| Renders(sessionId, ConvertUpTo(sessionId, messages, n - 1), messages[..n - 1], at);
      RendersOneMore(sessionId, ConvertUpTo(sessionId, messages, n - 1), messages, n - 1, at);
    }
  }

  // Joining puts a blank line between any two parts, and nothing else anywhere.
  lemma {:induction false} JoinSplits(a: seq<string>, b: seq<string>)
    requires a != [] && b != []
    ensures JoinParts(a + b) == JoinParts(a) + "\n\n" + JoinParts(b)
    decreases |b|
  {
    var all := a + b;
    assert all[..|all| - 1] == a + b[..|b| - 1] && all[|all| - 1] == b[|b| - 1];
    if |b| == 1 {
      assert a + b[..0] == a;
    } else {
      JoinSplits(a, b[..|b| - 1]);
      assert JoinParts(b) == JoinParts(b[..|b| - 1]) + "\n\n" + b[|b| - 1];
    }
  }

  lemma {:induction false} SystemPartsSplit(a: seq<ChatMessage>, b: seq<ChatMessage>)
    ensures SystemParts(a + b) == SystemParts(a) + SystemParts(b)
    decreases |b|
  {
    if b == [] {
      assert a + b == a;
    } else {
      assert (a + b)[..|a + b| - 1] == a + b[..|b| - 1];
      SystemPartsSplit(a, b[..|b| - 1]);
    }
  }

  lemma {:induction false} NoSystemParts(messages: seq<ChatMessage>)
    requires forall i :: 0 <= i < |messages| ==> !messages[i].SystemText?
    ensures SystemParts(messages) == []
  {
    if messages != [] { NoSystemParts(messages[..|messages| - 1]); }
  }

  // The system prompt travels separately; every other message becomes one provider message.
  predicate OneSystem(messages: seq<ChatMessage>) {
    messages != [] && messages[0].SystemText? && forall i :: 1 <= i < |messages| ==> !messages[i].SystemText?
  }

  lemma OneSystemPart(messages: seq<ChatMessage>)
    requires OneSystem(messages)
    ensures SystemParts(messages) == [messages[0].content] && JoinParts(SystemParts(messages)) == messages[0].content
  {
    assert messages == [messages[0]] + messages[1..];
    SystemPartsSplit([messages[0]], messages[1..]);
    NoSystemParts(messages[1..]);
    assert [messages[0]][..0] == [];
  }

  method ToModelMessages(sessionId: string, messages: seq<ChatMessage>) returns (r: Request)
    ensures r.messages == ConvertUpTo(sessionId, messages, |messages|)
    ensures r.instructions ==
      if SystemParts(messages) == [] then None else Some(JoinParts(SystemParts(messages)))
    ensures IsRendering(sessionId, r.messages, messages)
    ensures OneSystem(messages) ==> r.instructions == Some(messages[0].content)
  {
    var systemParts: seq<string> := [];
    var out: seq<ModelMessage> := [];
    for i := 0 to |messages|
      invariant out == ConvertUpTo(sessionId, messages, i)
      invariant systemParts == SystemParts(messages[..i])
    {
      assert messages[..i + 1][..i] == messages[..i];
      match messages[i]
      case SystemText(content) =>
        systemParts := systemParts + [content];
      case UserText(content) =>
        out := out + [UserTurn(content)];
      case AssistantText(content, Some(call)) =>
        var id := if i + 1 < |messages| && messages[i + 1].ToolOutput?
          then ToolUseId(PrintKey(sessionId, messages[i + 1].idemKey)) else "call-" + Decimal(i);
        var text: Option<string> := None;
        if content != "" { text := Some(content); }
        out := out + [AssistantCall(text, id, call)];
      case AssistantText(content, None) =>
        out := out + [AssistantTurn(content)];
      case ToolOutput(key, output, _) =>
        out := out + [ToolTurn(ToolUseId(PrintKey(sessionId, key)), output)];
    }
    assert messages[..|messages|] == messages;
    ConvertRenders(sessionId, messages, |messages|);
    if OneSystem(messages) { OneSystemPart(messages); }
    r := Request(if systemParts == [] then None else Some(JoinParts(systemParts)), out);
  }
}

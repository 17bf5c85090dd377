// Tool pairing through the transformation log -> chat context -> provider messages
// (packages/sessions/src/native-strategy.ts, packages/ports/llm/src/drivers/ai-sdk.ts).
module Pairing {
  import opened Prelude
  import opened Events
  import opened Reducer
  import opened Conversation
  import opened ModelMessages
  import opened NativeProtocol

  // ------------------------------------------------------------- in the log

  // The last reply of the current turn, or anything earlier, left no call without its result.
  lemma InferIsFullyAnswered(c: Config, log: Log, external: seq<bool>, i: nat)
    requires c.maxIterations >= 1 && Prescribed(c, log, external) && Numbered(log)
    requires NextAction(log, c.maxIterations) == Infer
    requires LastIndex(log, User) < i < |log| && log[i].payload.AssistantMessage?
    ensures log[i].payload.toolCalls != []
    ensures Answered(log, i + 1, IdemKey(i + 1, 0))
  {
    if i == LastIndex(log, Assistant) {
    } else {
      NextReplyNeedsAnswer(c, log, external, i, LastIndex(log, Assistant));
    }
  }

  lemma ReplyWasAsked(c: Config, log: Log, external: seq<bool>, j: nat)
    requires Prescribed(c, log, external) && j < |log| && log[j].payload.AssistantMessage?
    ensures NextAction(log[..j], c.maxIterations) == Infer
  {
    assert PrescribedAt(c, log, external, j);
  }

  // The model is asked within a turn only once the last reply's call was answered.
  lemma AskedMeansAnswered(log: Log, maxIterations: nat, i: nat)
    requires NextAction(log, maxIterations) == Infer && Numbered(log)
    requires i < |log| && log[i].payload.AssistantMessage? && LastIndex(log, User) < i
    ensures var a := LastIndex(log, Assistant);
      && i <= a < |log| && log[a].payload.AssistantMessage? && log[a].payload.toolCalls != []
      && Answered(log, a + 1, IdemKey(a + 1, 0))
  {
    assert KindOf(log[i].payload) == Assistant;
  }

  lemma AnsweredInPrefix(log: Log, j: nat, from: int, key: IdemKey)
    requires j <= |log| && Answered(log[..j], from, key)
    ensures Answered(log, from, key)
  {
    var r :| 0 <= r < j && from <= r && log[..j][r].payload.ToolResult? && log[..j][r].payload.idemKey == key;
    assert log[r] == log[..j][r];
  }

  // The reply before j, whose call was answered before j was prescribed.
  lemma ReplyBefore(c: Config, log: Log, external: seq<bool>, i: nat, j: nat) returns (a: nat)
    requires Prescribed(c, log, external) && Numbered(log) && LastIndex(log, User) < i < j < |log|
    requires log[i].payload.AssistantMessage? && log[j].payload.AssistantMessage?
    ensures i <= a < j && log[a].payload.AssistantMessage? && log[a].payload.toolCalls != []
    ensures Answered(log, a + 1, IdemKey(a + 1, 0))
  {
    ReplyWasAsked(c, log, external, j);
    a := ReplyIn(log, c.maxIterations, i, j);
  }

  lemma ReplyIn(log: Log, maxIterations: nat, i: nat, j: nat) returns (a: nat)
    requires Numbered(log) && LastIndex(log, User) < i < j < |log| && log[i].payload.AssistantMessage?
    requires NextAction(log[..j], maxIterations) == Infer
    ensures i <= a < j && log[a].payload.AssistantMessage? && log[a].payload.toolCalls != []
    ensures Answered(log, a + 1, IdemKey(a + 1, 0))
  {
    var before := log[..j];
    LastIndexIn(log, j, User);
    AskedMeansAnswered(before, maxIterations, i);
    a := LastIndex(before, Assistant);
    AnsweredInPrefix(log, j, a + 1, IdemKey(a + 1, 0));
  }

  // A later reply in the same turn was prescribed only after this one's call was answered.
  lemma {:induction false} NextReplyNeedsAnswer(c: Config, log: Log, external: seq<bool>, i: nat, j: nat)
    requires Prescribed(c, log, external) && Numbered(log)
    requires LastIndex(log, User) < i < j < |log|
    requires log[i].payload.AssistantMessage? && log[j].payload.AssistantMessage?
    ensures log[i].payload.toolCalls != []
    ensures Answered(log, i + 1, IdemKey(i + 1, 0))
    decreases j
  {
    var a := ReplyBefore(c, log, external, i, j);
    if a > i { NextReplyNeedsAnswer(c, log, external, i, a); }
  }

  lemma LastIndexIn(log: Log, n: nat, k: Kind)
    requires n <= |log|
    ensures LastIndex(log[..n], k) <= LastIndex(log, k)
  {
    var i := LastIndex(log[..n], k);
    if i >= 0 { assert log[..n][i] == log[i]; }
  }

  // Bookkeeping events: they leave no message in the context.
  predicate Bookkeeping(p: Payload) { MessageOf(p) == [] }

  // A result answers the last reply before it, with nothing but bookkeeping in between.
  lemma ResultFollowsItsCall(c: Config, log: Log, external: seq<bool>, r: nat)
    requires Prescribed(c, log, external) && Numbered(log)
    requires r < |log| && log[r].payload.ToolResult?
    ensures var a := LastIndex(log[..r], Assistant);
      && 0 <= a < r && log[r].payload.idemKey == IdemKey(a + 1, 0)
      && log[a].payload.AssistantMessage? && log[a].payload.toolCalls != []
      && !Answered(log[..r], a + 1, IdemKey(a + 1, 0))
      && forall m :: a < m < r ==> Bookkeeping(log[m].payload)
  {
    var before := log[..r];
    assert PrescribedAt(c, log, external, r);
    var a := LastIndex(before, Assistant);
    assert log[a] == before[a];
    forall m | a < m < r ensures Bookkeeping(log[m].payload) {
      assert before[m] == log[m];
      if log[m].payload.ToolResult? { ResultAnswers(c, log, external, a, m, r); }
    }
  }

  // A result between the last reply and position r answers that reply's call.
  lemma ResultAnswers(c: Config, log: Log, external: seq<bool>, a: nat, m: nat, r: nat)
    requires Prescribed(c, log, external) && Numbered(log)
    requires a < m < r <= |log| && a == LastIndex(log[..r], Assistant) && log[m].payload.ToolResult?
    ensures Answered(log[..r], a + 1, IdemKey(a + 1, 0))
  {
    assert PrescribedAt(c, log, external, m);
    SameLastIndex(log, m, r, Assistant);
    assert log[..r][m] == log[m];
  }

  lemma SameLastIndex(log: Log, m: nat, r: nat, k: Kind)
    requires m <= r <= |log|
    requires LastIndex(log[..r], k) < m
    ensures LastIndex(log[..m], k) == LastIndex(log[..r], k)
  {
    var i := LastIndex(log[..r], k);
    LastIndexIn(log[..r], m, k);
    assert log[..r][..m] == log[..m];
    if i >= 0 { assert log[..m][i] == log[..r][i]; }
    if LastIndex(log[..m], k) >= 0 { assert log[..m][LastIndex(log[..m], k)] == log[..r][LastIndex(log[..m], k)]; }
  }

  // ----------------------------------------------------------- in the context

  lemma ContextPush(log: Log, e: Event, sys: string)
    ensures Context(log + [e], sys) == Context(log, sys) + MessageOf(e.payload)
  {
    assert (log + [e])[..|log|] == log;
  }

  // Where the log's last reply stands in the context: followed only by what the events after it add.
  lemma {:induction false} ContextTail(log: Log, a: nat, sys: string)
    requires a < |log| && log[a].payload.AssistantMessage?
    requires forall m :: a < m < |log| ==> Bookkeeping(log[m].payload)
    ensures Context(log, sys) == Context(log[..a], sys) + MessageOf(log[a].payload)
    decreases |log|
  {
    var n := |log| - 1;
    if a == n {
    } else {
      ContextTail(log[..n], a, sys);
      assert log[..n][..a] == log[..a];
      assert Bookkeeping(log[n].payload);
    }
  }

  lemma ContextIgnoresBookkeeping(log: Log, a: nat, r: nat, sys: string)
    requires a < r <= |log| && log[a].payload.AssistantMessage?
    requires forall m :: a < m < r ==> Bookkeeping(log[m].payload)
    ensures Context(log[..r], sys) == Context(log[..a + 1], sys)
  {
    ContextTail(log[..r], a, sys);
    assert log[..r][..a] == log[..a];
    assert log[..a + 1] == log[..a] + [log[a]];
    ContextPush(log[..a], log[a], sys);
  }

  // The result at place i of the context answers the call right before it: the messages up to it are
  // exactly the context of the log up to and including that call.
  ghost predicate AnswersItsCall(log: Log, sys: string, messages: seq<ChatMessage>, i: nat)
    requires i < |messages| && messages[i].ToolOutput?
  {
    var key := messages[i].idemKey;
    && CallIn(log, key)
    && messages[..i] == Context(log[..key.seqNo], sys)
  }

  ghost predicate CallIn(log: Log, key: IdemKey) {
    && key.index == 0 && 1 <= key.seqNo <= |log|
    && log[key.seqNo - 1].payload.AssistantMessage? && log[key.seqNo - 1].payload.toolCalls != []
  }

  ghost predicate Paired(log: Log, sys: string, messages: seq<ChatMessage>) {
    forall i :: 0 <= i < |messages| && messages[i].ToolOutput? ==> AnswersItsCall(log, sys, messages, i)
  }

  // Before the result at position r, the context ends with that result's own call.
  ghost predicate CallStandsBefore(log: Log, r: nat, sys: string)
    requires r < |log| && log[r].payload.ToolResult?
  {
    CallIn(log, log[r].payload.idemKey) && Context(log[..r], sys) == Context(log[..log[r].payload.idemKey.seqNo], sys)
  }

  lemma ContextEndsWithCall(c: Config, log: Log, external: seq<bool>, r: nat, sys: string)
    requires Prescribed(c, log, external) && Numbered(log)
    requires r < |log| && log[r].payload.ToolResult?
    ensures CallStandsBefore(log, r, sys)
  {
    ResultFollowsItsCall(c, log, external, r);
    ContextIgnoresBookkeeping(log, LastIndex(log[..r], Assistant), r, sys);
  }

  lemma PairedPush(log: Log, sys: string, messages: seq<ChatMessage>, more: seq<ChatMessage>)
    requires Paired(log, sys, messages) && |more| <= 1
    requires more != [] && more[0].ToolOutput? ==>
      CallIn(log, more[0].idemKey) && messages == Context(log[..more[0].idemKey.seqNo], sys)
    ensures Paired(log, sys, messages + more)
  {
    var all := messages + more;
    forall i | 0 <= i < |all| && all[i].ToolOutput? ensures AnswersItsCall(log, sys, all, i) {
      if i < |messages| {
        assert AnswersItsCall(log, sys, messages, i);
        assert all[..i] == messages[..i];
      } else {
        assert all[..i] == messages;
      }
    }
  }

  lemma {:induction false} PairedUpTo(log: Log, n: nat, sys: string)
    requires n <= |log|
    requires forall r :: 0 <= r < n && log[r].payload.ToolResult? ==> CallStandsBefore(log, r, sys)
    ensures Paired(log, sys, Context(log[..n], sys))
  {
    if n > 0 {
      PairedUpTo(log, n - 1, sys);
      assert log[..n] == log[..n - 1] + [log[n - 1]];
      ContextPush(log[..n - 1], log[n - 1], sys);
      PairedPush(log, sys, Context(log[..n - 1], sys), MessageOf(log[n - 1].payload));
    }
  }

  // For every native log: in the context each tool message directly follows the assistant message
  // whose call it answers.
  lemma ContextIsPaired(c: Config, log: Log, external: seq<bool>, sys: string)
    requires Prescribed(c, log, external) && Numbered(log)
    ensures Paired(log, sys, Context(log, sys))
  {
    forall r | 0 <= r < |log| && log[r].payload.ToolResult? ensures CallStandsBefore(log, r, sys) {
      ContextEndsWithCall(c, log, external, r, sys);
    }
    PairedUpTo(log, |log|, sys);
    assert log[..|log|] == log;
  }

  // ----------------------------------------------------- in the model request

  lemma {:induction false} ContextHasOneSystem(log: Log, sys: string)
    ensures OneSystem(Context(log, sys))
  {
    if log != [] { ContextHasOneSystem(log[..|log| - 1], sys); }
  }

  lemma OneEach(sid: string, messages: seq<ChatMessage>, i: nat)
    requires i < |messages|
    ensures |Converted(sid, messages, i)| == if messages[i].SystemText? then 0 else 1
  {
  }

  lemma {:induction false} ConvertedOneByOne(sid: string, messages: seq<ChatMessage>, n: nat)
    requires OneSystem(messages) && 1 <= n <= |messages|
    ensures |ConvertUpTo(sid, messages, n)| == n - 1
    ensures forall i :: 1 <= i < n ==> [ConvertUpTo(sid, messages, n)[i - 1]] == Converted(sid, messages, i)
  {
    OneEach(sid, messages, n - 1);
    var before := ConvertUpTo(sid, messages, n - 1);
    assert ConvertUpTo(sid, messages, n) == before + Converted(sid, messages, n - 1);
    if n == 1 {
      assert before == [];
    } else {
      ConvertedOneByOne(sid, messages, n - 1);
      forall i | 1 <= i < n ensures [ConvertUpTo(sid, messages, n)[i - 1]] == Converted(sid, messages, i) {
        if i < n - 1 { assert [before[i - 1]] == Converted(sid, messages, i); }
      }
    }
  }

  // The request holds one provider message per chat message behind the system prompt.
  lemma ConvertedAt(sid: string, messages: seq<ChatMessage>, i: nat)
    requires OneSystem(messages) && 1 <= i < |messages|
    ensures var out := ConvertUpTo(sid, messages, |messages|);
      |out| == |messages| - 1 && [out[i - 1]] == Converted(sid, messages, i)
  {
    ConvertedOneByOne(sid, messages, |messages|);
  }

  lemma RequestLength(log: Log, sid: string, sys: string)
    ensures OneSystem(Context(log, sys))
    ensures var ms := Context(log, sys); |ConvertUpTo(sid, ms, |ms|)| == |ms| - 1
  {
    ContextHasOneSystem(log, sys);
    ConvertedOneByOne(sid, Context(log, sys), |Context(log, sys)|);
  }

  lemma CallBefore(log: Log, sys: string, messages: seq<ChatMessage>, i: nat)
    requires i < |messages| && messages[i].ToolOutput? && AnswersItsCall(log, sys, messages, i)
    ensures i > 0 && messages[i - 1].AssistantText?
    ensures messages[i - 1].toolCall == Some(log[messages[i].idemKey.seqNo - 1].payload.toolCalls[0])
  {
    var n := messages[i].idemKey.seqNo;
    assert log[..n] == log[..n - 1] + [log[n - 1]];
    ContextPush(log[..n - 1], log[n - 1], sys);
    var before := Context(log[..n], sys);
    assert before[|before| - 1] == messages[i - 1];
  }

  // In the request built from a native log, every tool result directly follows the call it answers,
  // under the same id.
  lemma RequestIsPaired(c: Config, log: Log, external: seq<bool>, sid: string, sys: string, j: nat)
    requires Prescribed(c, log, external) && Numbered(log)
    requires var ms := Context(log, sys); var out := ConvertUpTo(sid, ms, |ms|);
      j < |out| && out[j].ToolTurn?
    ensures var ms := Context(log, sys); var out := ConvertUpTo(sid, ms, |ms|);
      && j > 0 && out[j - 1].AssistantCall? && out[j - 1].toolCallId == out[j].toolCallId
      && exists n :: 1 <= n <= |log| && CallIn(log, IdemKey(n, 0))
           && out[j - 1].call == log[n - 1].payload.toolCalls[0]
           && out[j].toolCallId == ToolUseId(PrintKey(sid, IdemKey(n, 0)))
  {
    ContextIsPaired(c, log, external, sys);
    PairedInRequest(log, sid, sys, j);
  }

  lemma PairedInRequest(log: Log, sid: string, sys: string, j: nat)
    requires Paired(log, sys, Context(log, sys))
    requires var ms := Context(log, sys); var out := ConvertUpTo(sid, ms, |ms|); j < |out| && out[j].ToolTurn?
    ensures var ms := Context(log, sys); var out := ConvertUpTo(sid, ms, |ms|);
      && j > 0 && out[j - 1].AssistantCall? && out[j - 1].toolCallId == out[j].toolCallId
      && exists n :: 1 <= n <= |log| && CallIn(log, IdemKey(n, 0))
           && out[j - 1].call == log[n - 1].payload.toolCalls[0]
           && out[j].toolCallId == ToolUseId(PrintKey(sid, IdemKey(n, 0)))
  {
    var ms := Context(log, sys);
    RequestLength(log, sid, sys);
    var out := ConvertUpTo(sid, ms, |ms|);
    ConvertedAt(sid, ms, j + 1);
    ResultOfMessage(sid, ms, out[j], j);
    assert AnswersItsCall(log, sys, ms, j + 1);
    CallBefore(log, sys, ms, j + 1);
    ConvertedAt(sid, ms, j);
    CallMadeFrom(sid, ms, out[j - 1], j);
    var n := ms[j + 1].idemKey.seqNo;
    assert ms[j + 1].idemKey == IdemKey(n, 0);
  }

  lemma ResultOfMessage(sid: string, messages: seq<ChatMessage>, m: ModelMessage, i: nat)
    requires i + 1 < |messages| && m.ToolTurn? && [m] == Converted(sid, messages, i + 1)
    ensures messages[i + 1].ToolOutput? && m.toolCallId == ToolUseId(PrintKey(sid, messages[i + 1].idemKey))
  {
    assert Converted(sid, messages, i + 1)[0] == m;
  }

  lemma CallMadeFrom(sid: string, messages: seq<ChatMessage>, m: ModelMessage, i: nat)
    requires i + 1 < |messages| && messages[i + 1].ToolOutput? && [m] == Converted(sid, messages, i)
    requires messages[i].AssistantText? && messages[i].toolCall.Some?
    ensures m.AssistantCall? && m.call == messages[i].toolCall.value
    ensures m.toolCallId == ToolUseId(PrintKey(sid, messages[i + 1].idemKey))
  {
    assert Converted(sid, messages, i)[0] == m;
  }

  // Two answered calls of one request answer different keys.
  lemma KeysDiffer(log: Log, sys: string, messages: seq<ChatMessage>, i: nat, j: nat)
    requires i < j < |messages| && messages[i].ToolOutput? && messages[j].ToolOutput?
    requires AnswersItsCall(log, sys, messages, i) && AnswersItsCall(log, sys, messages, j)
    ensures messages[i].idemKey.seqNo != messages[j].idemKey.seqNo
  {
    assert |messages[..i]| != |messages[..j]|;
  }

  lemma CallIdsOfMessagesDiffer(log: Log, sid: string, sys: string, messages: seq<ChatMessage>, i: nat, j: nat)
    requires i < j < |messages| && Paired(log, sys, messages)
    ensures CallId(sid, messages, i) != CallId(sid, messages, j)
  {
    var a := i + 1 < |messages| && messages[i + 1].ToolOutput?;
    var b := j + 1 < |messages| && messages[j + 1].ToolOutput?;
    if a { assert AnswersItsCall(log, sys, messages, i + 1); }
    if b { assert AnswersItsCall(log, sys, messages, j + 1); }
    if a && b {
      KeysDiffer(log, sys, messages, i + 1, j + 1);
      var m, n := messages[i + 1].idemKey.seqNo, messages[j + 1].idemKey.seqNo;
      assert messages[i + 1].idemKey == IdemKey(m, 0) && messages[j + 1].idemKey == IdemKey(n, 0);
      if CallId(sid, messages, i) == CallId(sid, messages, j) { CallIdsDistinct(sid, m, n); }
    } else if a {
      assert messages[i + 1].idemKey == IdemKey(messages[i + 1].idemKey.seqNo, 0);
      OpenIdIsNoCallId(j, sid, messages[i + 1].idemKey.seqNo);
    } else if b {
      assert messages[j + 1].idemKey == IdemKey(messages[j + 1].idemKey.seqNo, 0);
      OpenIdIsNoCallId(i, sid, messages[j + 1].idemKey.seqNo);
    } else {
      if OpenCallId(i) == OpenCallId(j) { OpenIdsDistinct(i, j); }
    }
  }

  // A call in the request carries the id of the message it was made from.
  lemma CallOfMessage(sid: string, messages: seq<ChatMessage>, m: ModelMessage, i: nat)
    requires i + 1 < |messages| && m.AssistantCall? && [m] == Converted(sid, messages, i + 1)
    ensures m.toolCallId == CallId(sid, messages, i + 1)
  {
    assert Converted(sid, messages, i + 1)[0] == m;
  }

  // Distinct calls of the request carry distinct ids, answered or not.
  lemma RequestIdsDistinct(c: Config, log: Log, external: seq<bool>, sid: string, sys: string, i: nat, j: nat)
    requires Prescribed(c, log, external) && Numbered(log)
    requires var ms := Context(log, sys); var out := ConvertUpTo(sid, ms, |ms|);
      i < j < |out| && out[i].AssistantCall? && out[j].AssistantCall?
    ensures var ms := Context(log, sys); var out := ConvertUpTo(sid, ms, |ms|);
      out[i].toolCallId != out[j].toolCallId
  {
    ContextIsPaired(c, log, external, sys);
    PairedIdsDistinct(log, sid, sys, i, j);
  }

  lemma PairedIdsDistinct(log: Log, sid: string, sys: string, i: nat, j: nat)
    requires Paired(log, sys, Context(log, sys))
    requires var ms := Context(log, sys); var out := ConvertUpTo(sid, ms, |ms|);
      i < j < |out| && out[i].AssistantCall? && out[j].AssistantCall?
    ensures var ms := Context(log, sys); var out := ConvertUpTo(sid, ms, |ms|);
      out[i].toolCallId != out[j].toolCallId
  {
    var ms := Context(log, sys);
    RequestLength(log, sid, sys);
    CallCarriesId(sid, ms, i);
    CallCarriesId(sid, ms, j);
    CallIdsOfMessagesDiffer(log, sid, sys, ms, i + 1, j + 1);
  }

  lemma CallCarriesId(sid: string, messages: seq<ChatMessage>, j: nat)
    requires OneSystem(messages) && j < |ConvertUpTo(sid, messages, |messages|)|
    ensures j + 1 < |messages|
    ensures var m := ConvertUpTo(sid, messages, |messages|)[j];
      m.AssistantCall? ==> m.toolCallId == CallId(sid, messages, j + 1)
  {
    ConvertedOneByOne(sid, messages, |messages|);
    ConvertedAt(sid, messages, j + 1);
    var m := ConvertUpTo(sid, messages, |messages|)[j];
    if m.AssistantCall? { CallOfMessage(sid, messages, m, j); }
  }
}

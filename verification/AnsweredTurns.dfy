// Which calls of a native session ever get their result: all of them, in the log and in the context, unless
// a turn failed while the call of its last reply was pending.
module AnsweredTurns {
  import opened Events
  import opened Reducer
  import opened Store
  import opened Conversation
  import opened NativeProtocol
  import opened NativeSafety
  import opened NativeRuns
  import opened TurnBounds
  import opened Pairing

  // The turn's last reply made a call that has no result.
  predicate CallPending(log: Log) {
    var a := LastIndex(log, Assistant);
    a > LastIndex(log, User) && Calls(log, a) && !Answered(log, a + 1, IdemKey(a + 1, 0))
  }

  predicate Calls(log: Log, a: int) {
    0 <= a < |log| && log[a].payload.AssistantMessage? && log[a].payload.toolCalls != []
  }

  ghost predicate TurnAnswered(log: Log) {
    forall a :: LastIndex(log, User) < a && Calls(log, a) ==> Answered(log, a + 1, IdemKey(a + 1, 0))
  }

  ghost predicate AllAnswered(log: Log) { forall a :: Calls(log, a) ==> Answered(log, a + 1, IdemKey(a + 1, 0)) }

  lemma CallIsAnswered(c: Config, log: Log, external: seq<bool>, a: nat)
    requires Prescribed(c, log, external) && Numbered(log)
    requires !CallPending(log) && LastIndex(log, User) < a && Calls(log, a)
    ensures Answered(log, a + 1, IdemKey(a + 1, 0))
  {
    var b := LastIndex(log, Assistant);
    assert KindOf(log[a].payload) == Assistant && KindOf(log[b].payload) == Assistant;
    if a < b { NextReplyNeedsAnswer(c, log, external, a, b); }
  }

  // Within a turn only the last reply's call can be without its result.
  lemma TurnAnsweredIff(c: Config, log: Log, external: seq<bool>)
    requires Prescribed(c, log, external) && Numbered(log)
    ensures TurnAnswered(log) <==> !CallPending(log)
  {
    if !CallPending(log) {
      forall a | LastIndex(log, User) < a && Calls(log, a) ensures Answered(log, a + 1, IdemKey(a + 1, 0)) {
        CallIsAnswered(c, log, external, a);
      }
    }
  }

  // What ends a turn leaves its calls as they were.
  lemma EndKeepsPending(log: Log, e: Event)
    requires IsTerminal(e.payload)
    ensures CallPending(log + [e]) <==> CallPending(log)
  {
    IndexPush(log, e, Assistant);
    IndexPush(log, e, User);
    var a := LastIndex(log, Assistant);
    AnsweredPush(log, e, a + 1, IdemKey(a + 1, 0));
  }

  // Behind a terminal event every call of the turn has its result, unless it is a failure logged while the
  // call of the last reply was pending.  A completed turn and one out of budget left none.
  lemma EndedTurnIsAnsweredIff(c: Config, log: Log, external: seq<bool>, e: Event, ext: bool)
    requires Prescribed(c, log, external) && Numbered(log) && e.seqNo == |log| + 1
    requires Prescribes(c, log, e.payload, ext) && IsTerminal(e.payload)
    ensures TurnAnswered(log + [e]) <==> !CallPending(log)
    ensures e.payload == TurnCompleted || e.payload == TurnFailed(Budget) ==> TurnAnswered(log + [e])
  {
    PrescribedPush(c, log, external, e, ext);
    TurnAnsweredIff(c, log + [e], external + [ext]);
    EndKeepsPending(log, e);
  }

  // ---------------------------------------------------------------- whole logs

  // Where event j stands in the context.
  function Place(log: Log, j: nat, sys: string): nat
    requires j <= |log|
  {
    |Context(log[..j], sys)|
  }

  // A result at r answers a call of its own turn, and stands right behind it in the context.
  ghost predicate ResultFits(log: Log, r: nat, sys: string) {
    r < |log| && log[r].payload.ToolResult? ==>
      var n := log[r].payload.idemKey.seqNo;
      && log[r].payload.idemKey.index == 0 && 1 <= n <= r && Calls(log, n - 1)
      && (forall m :: n <= m < r ==> !log[m].payload.UserMessage?)
      && Place(log, r, sys) == Place(log, n, sys)
  }

  ghost predicate ResultsFit(log: Log, sys: string) { forall r: nat :: ResultFits(log, r, sys) }

  lemma FittingResult(c: Config, log: Log, external: seq<bool>, r: nat, sys: string)
    requires Prescribed(c, log, external) && Numbered(log) && r < |log| && log[r].payload.ToolResult?
    ensures ResultFits(log, r, sys)
  {
    ResultFollowsItsCall(c, log, external, r);
    ContextEndsWithCall(c, log, external, r, sys);
  }

  lemma AllResultsFit(c: Config, log: Log, external: seq<bool>, sys: string)
    requires Prescribed(c, log, external) && Numbered(log)
    ensures ResultsFit(log, sys)
  {
    forall r: nat ensures ResultFits(log, r, sys) {
      if r < |log| && log[r].payload.ToolResult? { FittingResult(c, log, external, r, sys); }
    }
  }

  // A message ends the turn for good: no later result answers a call before it.
  lemma NoAnswerAcrossMessages(log: Log, sys: string, a: nat, u: nat)
    requires ResultsFit(log, sys) && a < u < |log| && log[u].payload.UserMessage?
    ensures Answered(log, a + 1, IdemKey(a + 1, 0)) ==> Answered(log[..u], a + 1, IdemKey(a + 1, 0))
  {
    if Answered(log, a + 1, IdemKey(a + 1, 0)) {
      var key := IdemKey(a + 1, 0);
      var r :| 0 <= r < |log| && a + 1 <= r && log[r].payload.ToolResult? && log[r].payload.idemKey == key;
      assert ResultFits(log, r, sys);
      assert log[..u][r] == log[r];
    }
  }

  predicate EndsTurn(log: Log, n: nat) { n <= |log| && (n < |log| ==> log[n].payload.UserMessage?) }

  // A message was sent at n, or the log ends there, with a call pending.
  predicate CutShort(log: Log, n: nat) { EndsTurn(log, n) && CallPending(log[..n]) }

  // The turn of a call: up to the next message, or the end of the log.
  lemma {:induction false} TurnOf(log: Log, a: nat, n: nat) returns (m: nat)
    requires a < n <= |log| && forall k :: a <= k < n ==> !log[k].payload.UserMessage?
    ensures a < m && EndsTurn(log, m) && LastIndex(log[..m], User) < a
    decreases |log| - n
  {
    if EndsTurn(log, n) {
      m := n;
      var u := LastIndex(log[..m], User);
      assert u >= 0 ==> KindOf(log[..m][u].payload) == User && log[..m][u] == log[u];
    } else {
      m := TurnOf(log, a, n + 1);
    }
  }

  lemma PendingStays(log: Log, sys: string, n: nat)
    requires ResultsFit(log, sys) && CutShort(log, n)
    ensures !AllAnswered(log)
  {
    var a := LastIndex(log[..n], Assistant);
    assert Calls(log, a);
    if n < |log| { NoAnswerAcrossMessages(log, sys, a, n); } else { assert log[..n] == log; }
  }

  lemma AnsweredWithin(c: Config, log: Log, external: seq<bool>, a: nat, n: nat)
    requires Prescribed(c, log, external) && Numbered(log) && Calls(log, a)
    requires a < n <= |log| && LastIndex(log[..n], User) < a && !CallPending(log[..n])
    ensures Answered(log, a + 1, IdemKey(a + 1, 0))
  {
    PrescribedPrefix(c, log, external, n);
    CallIsAnswered(c, log[..n], external[..n], a);
    AnsweredInPrefix(log, n, a + 1, IdemKey(a + 1, 0));
  }

  ghost predicate SomeCutShort(log: Log) { exists n: nat :: CutShort(log, n) }

  lemma ItsTurn(log: Log, a: nat) returns (n: nat)
    requires Calls(log, a) && !SomeCutShort(log)
    ensures a < n <= |log| && LastIndex(log[..n], User) < a && !CallPending(log[..n])
  {
    n := TurnOf(log, a, a + 1);
    assert !CutShort(log, n);
  }

  // Every call of the session has its result exactly when no message was sent, and the log does not end,
  // while the call of the last reply was pending.
  lemma AllAnsweredIff(c: Config, log: Log, external: seq<bool>)
    requires Prescribed(c, log, external) && Numbered(log)
    ensures AllAnswered(log) <==> !SomeCutShort(log)
  {
    if SomeCutShort(log) {
      var n: nat :| CutShort(log, n);
      AllResultsFit(c, log, external, c.systemPrompt);
      PendingStays(log, c.systemPrompt, n);
    } else {
      forall a | Calls(log, a) ensures Answered(log, a + 1, IdemKey(a + 1, 0)) {
        var n := ItsTurn(log, a);
        AnsweredWithin(c, log, external, a, n);
      }
    }
  }

  // --------------------------------------------------------------- in the context

  // Every call of the context is directly followed by a result.
  predicate CallsAnswered(messages: seq<ChatMessage>) {
    forall i :: 0 <= i < |messages| && IsCall(messages[i]) ==> i + 1 < |messages| && messages[i + 1].ToolOutput?
  }

  predicate IsCall(m: ChatMessage) { m.AssistantText? && m.toolCall.Some? }

  lemma OneMoreEvent(log: Log, j: nat, sys: string)
    requires j < |log|
    ensures Context(log[..j + 1], sys) == Context(log[..j], sys) + MessageOf(log[j].payload)
  {
    assert log[..j + 1] == log[..j] + [log[j]];
    ContextPush(log[..j], log[j], sys);
  }

  lemma ContextOnward(log: Log, j: nat, sys: string)
    requires j < |log|
    ensures Context(log[..j], sys) <= Context(log[..j + 1], sys)
  {
    OneMoreEvent(log, j, sys);
  }

  lemma {:induction false} ContextGrows(log: Log, j: nat, n: nat, sys: string)
    requires j <= n <= |log|
    ensures Context(log[..j], sys) <= Context(log[..n], sys)
    decreases n - j
  {
    if j < n {
      ContextOnward(log, j, sys);
      ContextGrows(log, j + 1, n, sys);
    }
  }

  lemma ContextOfAll(log: Log, j: nat, sys: string)
    requires j <= |log|
    ensures Context(log[..j], sys) <= Context(log, sys)
  {
    ContextGrows(log, j, |log|, sys);
    assert log[..|log|] == log;
  }

  lemma StandsBehind(before: seq<ChatMessage>, more: seq<ChatMessage>, messages: seq<ChatMessage>)
    requires |more| == 1 && before + more <= messages
    ensures |before| < |messages| && messages[|before|] == more[0]
  {
    assert (before + more)[|before|] == more[0];
  }

  lemma PlaceOf(log: Log, j: nat, sys: string)
    requires j < |log| && IsConversation(log[j].payload)
    ensures Place(log, j + 1, sys) == Place(log, j, sys) + 1 <= |Context(log, sys)|
    ensures Context(log, sys)[Place(log, j, sys)] == MessageOf(log[j].payload)[0]
  {
    OneMoreEvent(log, j, sys);
    ContextOfAll(log, j + 1, sys);
    StandsBehind(Context(log[..j], sys), MessageOf(log[j].payload), Context(log, sys));
  }

  // Which event the message at i repeats.
  lemma {:induction false} SourceOf(log: Log, n: nat, i: nat, sys: string) returns (j: nat)
    requires n <= |log| && 1 <= i < Place(log, n, sys)
    ensures j < n && IsConversation(log[j].payload) && Place(log, j, sys) == i
    decreases n
  {
    OneMoreEvent(log, n - 1, sys);
    if i == Place(log, n - 1, sys) { j := n - 1; } else { j := SourceOf(log, n - 1, i, sys); }
  }

  lemma PlacesGrow(log: Log, j: nat, n: nat, sys: string)
    requires j <= n <= |log|
    ensures Place(log, j, sys) <= Place(log, n, sys)
  {
    ContextGrows(log, j, n, sys);
  }

  lemma CallPlace(log: Log, a: nat, sys: string)
    requires Calls(log, a)
    ensures Place(log, a + 1, sys) == Place(log, a, sys) + 1 <= |Context(log, sys)|
    ensures IsCall(Context(log, sys)[Place(log, a, sys)])
  {
    PlaceOf(log, a, sys);
  }

  lemma ResultPlace(log: Log, r: nat, sys: string)
    requires r < |log| && log[r].payload.ToolResult?
    ensures Place(log, r, sys) < |Context(log, sys)| && Context(log, sys)[Place(log, r, sys)].ToolOutput?
  {
    PlaceOf(log, r, sys);
  }

  lemma EventAt(log: Log, i: nat, sys: string) returns (j: nat)
    requires 1 <= i < |Context(log, sys)|
    ensures j < |log| && Place(log, j, sys) == i && IsConversation(log[j].payload)
    ensures Context(log, sys)[i] == MessageOf(log[j].payload)[0]
  {
    assert log[..|log|] == log;
    j := SourceOf(log, |log|, i, sys);
    PlaceOf(log, j, sys);
  }

  lemma CallAt(log: Log, i: nat, sys: string) returns (a: nat)
    requires i < |Context(log, sys)| && IsCall(Context(log, sys)[i])
    ensures Calls(log, a) && Place(log, a, sys) == i
  {
    a := EventAt(log, i, sys);
  }

  lemma ResultAt(log: Log, i: nat, sys: string) returns (r: nat)
    requires i < |Context(log, sys)| && Context(log, sys)[i].ToolOutput?
    ensures r < |log| && log[r].payload.ToolResult? && Place(log, r, sys) == i
  {
    r := EventAt(log, i, sys);
  }

  // Calls at the same place are the same.
  lemma SameCall(log: Log, sys: string, a: nat, b: nat)
    requires Calls(log, a) && Calls(log, b) && Place(log, a + 1, sys) == Place(log, b + 1, sys)
    ensures a == b
  {
    CallPlace(log, a, sys);
    CallPlace(log, b, sys);
    if a < b { PlacesGrow(log, a + 1, b, sys); } else if b < a { PlacesGrow(log, b + 1, a, sys); }
  }

  lemma AnswerStandsBehind(log: Log, sys: string, i: nat)
    requires ResultsFit(log, sys) && AllAnswered(log)
    requires i < |Context(log, sys)| && IsCall(Context(log, sys)[i])
    ensures i + 1 < |Context(log, sys)| && Context(log, sys)[i + 1].ToolOutput?
  {
    var a := CallAt(log, i, sys);
    CallPlace(log, a, sys);
    var r :| 0 <= r < |log| && a + 1 <= r && log[r].payload.ToolResult? && log[r].payload.idemKey == IdemKey(a + 1, 0);
    assert ResultFits(log, r, sys);
    ResultPlace(log, r, sys);
  }

  // A result right behind the call answers it.
  lemma AnswersIt(log: Log, sys: string, a: nat, r: nat)
    requires Calls(log, a) && r < |log| && log[r].payload.ToolResult? && ResultFits(log, r, sys)
    requires Place(log, r, sys) == Place(log, a + 1, sys)
    ensures Answered(log, a + 1, IdemKey(a + 1, 0))
  {
    SameCall(log, sys, a, log[r].payload.idemKey.seqNo - 1);
    assert log[r].payload.idemKey == IdemKey(a + 1, 0);
  }

  lemma BehindItIsItsAnswer(log: Log, sys: string, a: nat)
    requires ResultsFit(log, sys) && Calls(log, a) && CallsAnswered(Context(log, sys))
    ensures Answered(log, a + 1, IdemKey(a + 1, 0))
  {
    CallPlace(log, a, sys);
    var r := ResultAt(log, Place(log, a, sys) + 1, sys);
    assert ResultFits(log, r, sys);
    AnswersIt(log, sys, a, r);
  }

  // The log and the context agree on it: no call lacks its result iff none in the context does.
  lemma AnsweredInContextIff(log: Log, sys: string)
    requires ResultsFit(log, sys)
    ensures CallsAnswered(Context(log, sys)) <==> AllAnswered(log)
  {
    var messages := Context(log, sys);
    if AllAnswered(log) {
      forall i | 0 <= i < |messages| && IsCall(messages[i])
        ensures i + 1 < |messages| && messages[i + 1].ToolOutput?
      {
        AnswerStandsBehind(log, sys, i);
      }
    }
    if CallsAnswered(messages) {
      forall a | Calls(log, a) ensures Answered(log, a + 1, IdemKey(a + 1, 0)) {
        BehindItIsItsAnswer(log, sys, a);
      }
    }
  }

  // At any point of any run: the calls of the context are all answered exactly when no message was sent, and
  // the log does not end, while the call of the last reply was pending.
  lemma ContextIsAnsweredIff(c: Config, run: seq<State>, steps: seq<Step>, n: nat)
    requires IsRun(c, run, steps) && n < |run|
    ensures CallsAnswered(Context(LogIn(run[n]), c.systemPrompt)) <==> !SomeCutShort(LogIn(run[n]))
  {
    RunsKeepInv(c, run, steps, n);
    DenseReadAll(run[n].rows);
    AllResultsFit(c, LogIn(run[n]), run[n].external, c.systemPrompt);
    AnsweredInContextIff(LogIn(run[n]), c.systemPrompt);
    AllAnsweredIff(c, LogIn(run[n]), run[n].external);
  }

  lemma ReachableIsAnsweredIff(c: Config, s: State)
    requires Reachable(c, s)
    ensures CallsAnswered(Context(LogIn(s), c.systemPrompt)) <==> !SomeCutShort(LogIn(s))
  {
    var run, steps :| IsRun(c, run, steps) && run[|steps|] == s;
    ContextIsAnsweredIff(c, run, steps, |steps|);
  }

  // ------------------------------------------------------------------- a failing case

  lemma Says(c: Config, s: State, words: seq<string>) returns (s': State)
    requires Reachable(c, s)
    ensures Reachable(c, s') && s'.deliveries == s.deliveries
    ensures LogIn(s') == LogIn(s) + [Event(|LogIn(s)| + 1, UserMessage(words))]
  {
    Standing(c, s);
    ExternalEffect(s, UserMessage(words));
    s' := Takes(c, s, SendMessage(words));
  }

  lemma Reads(c: Config, s: State, d: nat) returns (s': State)
    requires Reachable(c, s) && d !in s.deliveries
    ensures Reachable(c, s') && LogIn(s') == LogIn(s)
    ensures s'.deliveries == s.deliveries[d := Delivery(LogIn(s), Ready)]
  {
    s' := Takes(c, s, Deliver(d));
  }

  lemma Insert(s: State, d: nat, p: Payload, after: Pc)
    requires ViewsArePrefixes(s) && d in s.deliveries && s.deliveries[d].view == LogIn(s)
    ensures var s' := Append(s, d, p, true, after); var e := Event(|LogIn(s)| + 1, p);
      && LogIn(s') == LogIn(s) + [e] && s'.deliveries == s.deliveries[d := Delivery(LogIn(s) + [e], after)]
  {
    DenseReadAll(s.rows);
    AppendEffect(s, d, p, true, after);
  }

  lemma Standing(c: Config, s: State)
    requires Reachable(c, s)
    ensures ViewsArePrefixes(s)
  {
    ReachableKeepsInv(c, s);
  }

  lemma Takes(c: Config, s: State, step: Step) returns (s': State)
    requires Reachable(c, s) && Enabled(c, s, step)
    ensures s' == Apply(c, s, step) && Reachable(c, s') && ViewsArePrefixes(s')
  {
    ReachableNext(c, s, step);
    s' := Apply(c, s, step);
    Standing(c, s');
  }

  lemma AnswerIsDue(c: Config, s: State, d: nat, reply: Reply)
    requires d in s.deliveries && s.deliveries[d].pc == Replied(reply)
    ensures Enabled(c, s, AppendNext(d, true))
    ensures Apply(c, s, AppendNext(d, true)) == Append(s, d, ReplyPayload(reply), true, Ready)
  {
  }

  lemma AnswerMoves(c: Config, s: State, d: nat, reply: Reply)
    requires d in s.deliveries && s.deliveries[d] == Delivery(LogIn(s), Ready)
    requires NextAction(LogIn(s), c.maxIterations) == Infer && c.replyOk(Context(LogIn(s), c.systemPrompt), reply)
    ensures Enabled(c, s, ModelReplies(d, reply))
    ensures Apply(c, s, ModelReplies(d, reply)) == Move(s, d, Replied(reply))
  {
  }

  lemma Answers(c: Config, s: State, d: nat, reply: Reply) returns (s': State)
    requires Reachable(c, s) && d in s.deliveries && s.deliveries[d] == Delivery(LogIn(s), Ready)
    requires NextAction(LogIn(s), c.maxIterations) == Infer && c.replyOk(Context(LogIn(s), c.systemPrompt), reply)
    ensures Reachable(c, s') && LogIn(s') == LogIn(s) && s'.deliveries.Keys == s.deliveries.Keys
    ensures s'.deliveries[d] == Delivery(LogIn(s), Replied(reply))
  {
    AnswerMoves(c, s, d, reply);
    ReachableNext(c, s, ModelReplies(d, reply));
    s' := Move(s, d, Replied(reply));
  }

  // The model answers, and the reply is journaled.
  lemma Replies(c: Config, s: State, d: nat, reply: Reply) returns (s': State)
    requires Reachable(c, s) && d in s.deliveries && s.deliveries[d] == Delivery(LogIn(s), Ready)
    requires NextAction(LogIn(s), c.maxIterations) == Infer && c.replyOk(Context(LogIn(s), c.systemPrompt), reply)
    ensures Reachable(c, s') && LogIn(s') == LogIn(s) + [Event(|LogIn(s)| + 1, ReplyPayload(reply))]
    ensures s'.deliveries.Keys == s.deliveries.Keys && s'.deliveries[d] == Delivery(LogIn(s'), Ready)
  {
    var mid := Answers(c, s, d, reply);
    s' := Journals(c, mid, d, reply);
  }

  lemma Journals(c: Config, s: State, d: nat, reply: Reply) returns (s': State)
    requires Reachable(c, s) && d in s.deliveries && s.deliveries[d] == Delivery(LogIn(s), Replied(reply))
    ensures Reachable(c, s') && LogIn(s') == LogIn(s) + [Event(|LogIn(s)| + 1, ReplyPayload(reply))]
    ensures s'.deliveries.Keys == s.deliveries.Keys && s'.deliveries[d] == Delivery(LogIn(s'), Ready)
  {
    Standing(c, s);
    AnswerIsDue(c, s, d, reply);
    s' := Takes(c, s, AppendNext(d, true));
    Insert(s, d, ReplyPayload(reply), Ready);
  }

  lemma FailureLands(c: Config, s: State, d: nat)
    requires d in s.deliveries && s.deliveries[d].pc == Erred
    ensures Enabled(c, s, AppendFailure(d, SandboxFatal, true))
    ensures Apply(c, s, AppendFailure(d, SandboxFatal, true)) == Append(s, d, TurnFailed(SandboxFatal), true, Gone)
  {
  }

  lemma Breaks(c: Config, s: State, d: nat) returns (s': State)
    requires Reachable(c, s) && d in s.deliveries && s.deliveries[d] == Delivery(LogIn(s), Ready)
    requires NextAction(LogIn(s), c.maxIterations) != Noop
    ensures Reachable(c, s') && LogIn(s') == LogIn(s) && s'.deliveries.Keys == s.deliveries.Keys
    ensures s'.deliveries[d] == Delivery(LogIn(s), Erred)
  {
    s' := Takes(c, s, Raise(d));
  }

  lemma Fails(c: Config, s: State, d: nat) returns (s': State)
    requires Reachable(c, s) && d in s.deliveries && s.deliveries[d] == Delivery(LogIn(s), Erred)
    ensures Reachable(c, s') && LogIn(s') == LogIn(s) + [Event(|LogIn(s)| + 1, TurnFailed(SandboxFatal))]
    ensures s'.deliveries.Keys == s.deliveries.Keys
  {
    Standing(c, s);
    FailureLands(c, s, d);
    s' := Takes(c, s, AppendFailure(d, SandboxFatal, true));
    Insert(s, d, TurnFailed(SandboxFatal), Gone);
  }

  lemma FirstMessage(log: Log, maxIterations: nat, words: seq<string>, sys: string)
    requires log == [Event(1, UserMessage(words))]
    ensures NextAction(log, maxIterations) == Infer
    ensures Context(log, sys) == [SystemText(sys), UserText(PlainText(words))]
  {
    assert log[..0] == [];
    assert Context([], sys) == [SystemText(sys)];
    assert LastIndex([], Assistant) == -1;
  }

  lemma FirstLook(c: Config, words: seq<string>) returns (s: State)
    ensures Reachable(c, s) && s.deliveries.Keys == {0} && s.deliveries[0] == Delivery(LogIn(s), Ready)
    ensures LogIn(s) == [Event(1, UserMessage(words))]
  {
    ReachableInit(c);
    Standing(c, Init);
    DenseReadAll(Init.rows);
    var s1 := Says(c, Init, words);
    s := Reads(c, s1, 0);
  }

  lemma FirstReply(c: Config, words: seq<string>, reply: Reply) returns (s: State)
    requires c.replyOk([SystemText(c.systemPrompt), UserText(PlainText(words))], reply)
    ensures Reachable(c, s) && s.deliveries.Keys == {0} && s.deliveries[0] == Delivery(LogIn(s), Ready)
    ensures LogIn(s) == [Event(1, UserMessage(words)), Event(2, ReplyPayload(reply))]
  {
    var s1 := FirstLook(c, words);
    FirstMessage(LogIn(s1), c.maxIterations, words, c.systemPrompt);
    s := Replies(c, s1, 0, reply);
  }

  lemma FailsOverACall(c: Config, words: seq<string>, reply: Reply) returns (s: State)
    requires c.replyOk([SystemText(c.systemPrompt), UserText(PlainText(words))], reply) && reply.toolCall.Some?
    ensures Reachable(c, s) && s.deliveries.Keys == {0}
    ensures LogIn(s) == [Event(1, UserMessage(words)), Event(2, ReplyPayload(reply)),
                         Event(3, TurnFailed(SandboxFatal))]
  {
    var s1 := FirstReply(c, words, reply);
    assert LogIn(s1)[1].payload.AssistantMessage? && LastIndex(LogIn(s1), Assistant) == 1;
    var s2 := Breaks(c, s1, 0);
    s := Fails(c, s2, 0);
  }

  lemma SpokenOver(log: Log, maxIterations: nat, words: seq<string>, reply: Reply)
    requires reply.toolCall.Some?
    requires log == [Event(1, UserMessage(words)), Event(2, ReplyPayload(reply)), Event(3, TurnFailed(SandboxFatal)),
                     Event(4, UserMessage(words))]
    ensures NextAction(log, maxIterations) == Infer && SomeCutShort(log)
  {
    var before := log[..3];
    assert KindOf(log[3].payload) == User && LastIndex(log, User) == 3;
    assert KindOf(before[1].payload) == Assistant && LastIndex(before, Assistant) == 1;
    assert LastIndex(before, User) == 0 by { assert KindOf(before[0].payload) == User; }
    assert CutShort(log, 3);
  }

  // From the start on the model can come to be asked with an unanswered call in its context: the sandbox
  // failed before the call had run, and another message followed.
  lemma AskedOverAnOpenCall(c: Config, words: seq<string>, reply: Reply) returns (s: State)
    requires reply.toolCall.Some? && c.replyOk([SystemText(c.systemPrompt), UserText(PlainText(words))], reply)
    ensures Reachable(c, s) && At(s, 1, Ready) && Next(c, s, 1) == Infer && s.deliveries[1].view == LogIn(s)
    ensures !CallsAnswered(Context(LogIn(s), c.systemPrompt))
  {
    var s1 := FailsOverACall(c, words, reply);
    var s2 := Says(c, s1, words);
    s := Reads(c, s2, 1);
    SpokenOver(LogIn(s), c.maxIterations, words, reply);
    ReachableIsAnsweredIff(c, s);
  }
}

// What the reducer decides, said by looking at the log and at nothing else: which event may come next in a
// turn, and when a turn is out of budget, done, or owed a reply or a result.
module Decisions {
  import opened Events
  import opened Reducer
  import opened Store
  import opened NativeProtocol
  import opened NativeRuns
  import opened Sequential
  import opened TurnBounds

  // ------------------------------------------------------------------- where a turn stands

  // A message nobody has replied to.
  ghost predicate Waits(log: Log) {
    exists u :: 0 <= u < |log| && log[u].payload.UserMessage? && NoReplyFrom(log, u)
  }

  ghost predicate NoReplyFrom(log: Log, from: int) {
    forall j :: 0 <= j < |log| && from <= j ==> !log[j].payload.AssistantMessage?
  }

  // The turn's last reply stands at a.
  ghost predicate LastReply(log: Log, a: int) {
    && 0 <= a < |log| && log[a].payload.AssistantMessage?
    && forall j :: a < j < |log| ==> !log[j].payload.AssistantMessage? && !log[j].payload.UserMessage?
  }

  predicate Answers(p: Payload, a: int) { p.ToolResult? && p.idemKey.seqNo == a + 1 && p.idemKey.index == 0 }

  // Its call, if it made one, is answered by a result under the reply's own place.
  ghost predicate ResultFor(log: Log, a: int) {
    exists r :: 0 <= r < |log| && a < r && Answers(log[r].payload, a)
  }

  ghost predicate Done(log: Log) { exists a :: LastReply(log, a) && log[a].payload.toolCalls == [] }

  ghost predicate Owes(log: Log) { exists a :: LastReply(log, a) && OwesAt(log, a) }

  ghost predicate OwesAt(log: Log, a: int)
    requires LastReply(log, a)
  {
    log[a].payload.toolCalls != [] && !ResultFor(log, a)
  }

  ghost predicate Served(log: Log) {
    exists a :: LastReply(log, a) && log[a].payload.toolCalls != [] && ResultFor(log, a)
  }

  // The replies of the turn, by place.
  ghost function ReplyPlaces(log: Log): set<int> {
    set i | 0 <= i < |log| && log[i].payload.AssistantMessage? && NoMessageBehind(log, i)
  }

  ghost predicate NoMessageBehind(log: Log, i: int) {
    forall j :: 0 <= j < |log| && i < j ==> !log[j].payload.UserMessage?
  }

  ghost predicate Ended(log: Log) {
    log != [] && (log[|log| - 1].payload.TurnCompleted? || log[|log| - 1].payload.TurnFailed?)
  }

  // ------------------------------------------------------------- counting by looking

  ghost function Places(log: Log, from: int, k: Kind): set<int> {
    set i | 0 <= i < |log| && from <= i && KindOf(log[i].payload) == k
  }

  lemma OneMorePlace(log: Log, from: int, k: Kind)
    requires log != [] && |log| - 1 >= from
    ensures var n := |log| - 1; var before := Places(log[..n], from, k);
      n !in before && Places(log, from, k) == if KindOf(log[n].payload) == k then before + {n} else before
  {
  }

  lemma {:induction false} CountIsPlaces(log: Log, from: int, k: Kind)
    ensures Count(log, from, k) == |Places(log, from, k)|
  {
    if log == [] || |log| - 1 < from {
      assert Places(log, from, k) == {};
    } else {
      CountIsPlaces(log[..|log| - 1], from, k);
      OneMorePlace(log, from, k);
    }
  }

  lemma RepliesAreCounted(log: Log)
    ensures Replies(log) == |ReplyPlaces(log)|
  {
    var u := LastIndex(log, User);
    CountIsPlaces(log, u + 1, Assistant);
    forall i | 0 <= i < |log| && log[i].payload.AssistantMessage?
      ensures NoMessageBehind(log, i) <==> u < i
    {
      BehindLastMessage(log, i);
    }
    assert Places(log, u + 1, Assistant) == ReplyPlaces(log);
  }

  lemma BehindLastMessage(log: Log, i: int)
    requires 0 <= i < |log| && log[i].payload.AssistantMessage?
    ensures NoMessageBehind(log, i) <==> LastIndex(log, User) < i
  {
    var u := LastIndex(log, User);
    if u >= 0 { assert log[u].payload.UserMessage?; }
    if u < i { assert forall j :: u < j < |log| ==> KindOf(log[j].payload) != User; }
  }

  // ------------------------------------------------------------------ the reducer

  lemma LastReplyIs(log: Log, a: int)
    requires LastReply(log, a)
    ensures a == LastIndex(log, Assistant) && LastIndex(log, User) < a
  {
    assert KindOf(log[a].payload) == Assistant;
    var u, b := LastIndex(log, User), LastIndex(log, Assistant);
    assert u < 0 || KindOf(log[u].payload) == User;
    assert KindOf(log[b].payload) == Assistant;
  }

  lemma LastReplyStands(log: Log)
    requires LastIndex(log, Assistant) > LastIndex(log, User)
    ensures LastReply(log, LastIndex(log, Assistant))
  {
    var a := LastIndex(log, Assistant);
    assert KindOf(log[a].payload) == Assistant;
    forall j | a < j < |log| ensures !log[j].payload.AssistantMessage? && !log[j].payload.UserMessage? {
      assert KindOf(log[j].payload) != Assistant && KindOf(log[j].payload) != User;
    }
  }

  lemma WaitsIff(log: Log)
    ensures Waits(log) <==> LastIndex(log, Assistant) < LastIndex(log, User)
  {
    var u, a := LastIndex(log, User), LastIndex(log, Assistant);
    if a < u {
      assert KindOf(log[u].payload) == User;
      forall j | 0 <= j < |log| && u <= j ensures !log[j].payload.AssistantMessage? {
        assert j > a ==> KindOf(log[j].payload) != Assistant;
      }
      assert NoReplyFrom(log, u);
    }
    if Waits(log) {
      var v :| 0 <= v < |log| && log[v].payload.UserMessage? && NoReplyFrom(log, v);
      assert KindOf(log[v].payload) == User;
      if a >= 0 { assert KindOf(log[a].payload) == Assistant; }
    }
  }

  lemma ResultForIff(log: Log, a: nat)
    ensures ResultFor(log, a) <==> Answered(log, a + 1, IdemKey(a + 1, 0))
  {
  }

  // The reducer's whole decision table.
  lemma NextActionDecides(log: Log, maxIterations: nat)
    requires Numbered(log)
    ensures var action := NextAction(log, maxIterations);
      && (action == Noop <==> Ended(log))
      && (action == Infer <==> !Ended(log) && (Waits(log) || (Served(log) && |ReplyPlaces(log)| < maxIterations)))
      && (action == Finish <==> !Ended(log) && Done(log))
      && (action == Fail <==> !Ended(log) && Served(log) && |ReplyPlaces(log)| >= maxIterations)
      && (action.ExecTool? <==> !Ended(log) && Owes(log))
  {
    WaitsIff(log);
    RepliesAreCounted(log);
    var a := LastIndex(log, Assistant);
    if a > LastIndex(log, User) {
      LastReplyStands(log);
      ResultForIff(log, a);
    }
    forall b | LastReply(log, b) ensures b == a && a > LastIndex(log, User) { LastReplyIs(log, b); }
  }

  // The call to run is the last reply's first one, under that reply's place.
  lemma ExecRunsTheLastCall(log: Log, maxIterations: nat, a: int)
    requires Numbered(log) && LastReply(log, a) && NextAction(log, maxIterations).ExecTool?
    ensures log[a].payload.toolCalls != []
    ensures NextAction(log, maxIterations) == ExecTool(log[a].payload.toolCalls[0], IdemKey(a + 1, 0))
  {
    LastReplyIs(log, a);
  }

  // The reducer throws only where there is neither a message nor a reply.
  lemma ThrowsIff(log: Log, maxIterations: nat)
    ensures NextAction(log, maxIterations) == Throws <==>
      !Ended(log) && forall j :: 0 <= j < |log| ==> !log[j].payload.UserMessage? && !log[j].payload.AssistantMessage?
  {
    var u, a := LastIndex(log, User), LastIndex(log, Assistant);
    if u >= 0 { assert KindOf(log[u].payload) == User && log[u].payload.UserMessage?; }
    if a >= 0 { assert KindOf(log[a].payload) == Assistant && log[a].payload.AssistantMessage?; }
    if u < 0 && a < 0 {
      forall j | 0 <= j < |log| ensures !log[j].payload.UserMessage? && !log[j].payload.AssistantMessage? {
        assert KindOf(log[j].payload) != User && KindOf(log[j].payload) != Assistant;
      }
    }
  }

  // ------------------------------------------------------------------ the rows of a log

  // Which row a worker may put behind log, other than an error's: a reply exactly when one is asked for, a
  // result exactly when one is owed, the end exactly when the model is done or the budget is spent.
  ghost predicate RightRow(maxIterations: nat, log: Log, p: Payload) {
    && !Ended(log)
    && (p.AssistantMessage? <==> Waits(log) || (Served(log) && |ReplyPlaces(log)| < maxIterations))
    && (p.ToolResult? <==> Owes(log))
    && (p.ToolResult? ==> exists a :: LastReply(log, a) && Answers(p, a))
    && (p.TurnCompleted? <==> Done(log))
    && (p == TurnFailed(Budget) <==> Served(log) && |ReplyPlaces(log)| == maxIterations)
  }

  predicate FromErrorPath(p: Payload) { p.TurnFailed? && ErrorPathClass(p.cls) }

  lemma PrescribedIsRight(c: Config, log: Log, p: Payload)
    requires Numbered(log) && Prescribes(c, log, p, false) && !FromErrorPath(p)
    requires Replies(log) <= c.maxIterations
    ensures RightRow(c.maxIterations, log, p)
  {
    NextActionDecides(log, c.maxIterations);
    RepliesAreCounted(log);
    if p.ToolResult? {
      var a :| LastReply(log, a);
      ExecRunsTheLastCall(log, c.maxIterations, a);
      assert Answers(p, a);
    }
  }

  // Every row a worker added, errors aside, is the one its log called for.
  lemma EveryRowIsRight(c: Config, log: Log, external: seq<bool>, i: nat)
    requires c.maxIterations >= 1 && Prescribed(c, log, external) && Numbered(log)
    requires i < |log| && !external[i] && !FromErrorPath(log[i].payload)
    ensures RightRow(c.maxIterations, log[..i], log[i].payload)
  {
    assert PrescribedAt(c, log, external, i);
    FrontsAreBounded(c, log, external, i);
    PrescribedIsRight(c, log[..i], log[i].payload);
  }

  // The same at every point of every run, whatever crashed or raced.
  lemma RowsOfRunsAreRight(c: Config, run: seq<State>, steps: seq<Step>, n: nat, i: nat)
    requires c.maxIterations >= 1 && IsRun(c, run, steps) && n < |run|
    requires i < |LogIn(run[n])| && i < |run[n].external| && !run[n].external[i]
    requires !FromErrorPath(LogIn(run[n])[i].payload)
    ensures RightRow(c.maxIterations, LogIn(run[n])[..i], LogIn(run[n])[i].payload)
  {
    RunsKeepInv(c, run, steps, n);
    ReachableLog(c, run, steps, n);
    LogIsNumbered(run[n]);
    EveryRowIsRight(c, LogIn(run[n]), run[n].external, i);
  }

  lemma LogIsNumbered(s: State)
    requires ViewsArePrefixes(s)
    ensures Numbered(LogIn(s))
  {
    DenseReadAll(s.rows);
  }
}

// What holds of every log the native runtime can reach, and of every view it hands to the model.
module NativeTheorems {
  import opened Events
  import opened Reducer
  import opened Conversation
  import opened ModelMessages
  import opened NativeProtocol
  import opened NativeRuns
  import opened TurnBounds
  import opened Sequential
  import opened Pairing

  // The view a delivery asks the model with.
  ghost predicate AsksWith(c: Config, run: seq<State>, steps: seq<Step>, i: nat, view: Log) {
    && IsRun(c, run, steps) && i < |steps| && steps[i].ModelReplies?
    && steps[i].d in run[i].deliveries && run[i].deliveries[steps[i].d].view == view
  }

  lemma AskedView(c: Config, run: seq<State>, steps: seq<Step>, i: nat, view: Log)
    requires AsksWith(c, run, steps, i, view)
    ensures Numbered(view) && IsNativeLog(c, view) && NextAction(view, c.maxIterations) == Infer
  {
    assert StepAt(c, run, steps, i);
    RunsKeepInv(c, run, steps, i);
    ReachableLog(c, run, steps, i);
    PrescribedPrefix(c, LogIn(run[i]), run[i].external, |view|);
    assert LogIn(run[i])[..|view|] == view;
    assert forall j :: 0 <= j < |view| ==> view[j] == LogIn(run[i])[j];
  }

  lemma EveryAnswerIsIn(c: Config, view: Log, j: nat)
    requires c.maxIterations >= 1 && Numbered(view) && IsNativeLog(c, view)
    requires NextAction(view, c.maxIterations) == Infer
    requires LastIndex(view, User) < j < |view| && view[j].payload.AssistantMessage?
    ensures view[j].payload.toolCalls != [] && Answered(view, j + 1, IdemKey(j + 1, 0))
  {
    var external :| Prescribed(c, view, external);
    InferIsFullyAnswered(c, view, external, j);
  }

  // The model is asked only when every call since the last user message has its result.
  lemma ModelSeesEveryAnswer(c: Config, run: seq<State>, steps: seq<Step>, i: nat, view: Log, j: nat)
    requires c.maxIterations >= 1 && AsksWith(c, run, steps, i, view)
    requires LastIndex(view, User) < j < |view| && view[j].payload.AssistantMessage?
    ensures view[j].payload.toolCalls != [] && Answered(view, j + 1, IdemKey(j + 1, 0))
  {
    AskedView(c, run, steps, i, view);
    EveryAnswerIsIn(c, view, j);
  }

  lemma NativeLogIsPaired(c: Config, view: Log, sys: string)
    requires Numbered(view) && IsNativeLog(c, view)
    ensures Paired(view, sys, Context(view, sys))
  {
    var external :| Prescribed(c, view, external);
    ContextIsPaired(c, view, external, sys);
  }

  // In every context handed to the model a tool message directly follows the call it answers.
  lemma ModelSeesPairs(c: Config, run: seq<State>, steps: seq<Step>, i: nat, view: Log)
    requires AsksWith(c, run, steps, i, view)
    ensures Paired(view, c.systemPrompt, Context(view, c.systemPrompt))
  {
    AskedView(c, run, steps, i, view);
    NativeLogIsPaired(c, view, c.systemPrompt);
  }

  // Position j of a request: a result carries the id of the call right before it, a call's id is its own.
  ghost predicate IdsMatch(out: seq<ModelMessage>, j: nat)
    requires j < |out|
  {
    && (out[j].ToolTurn? ==> j > 0 && out[j - 1].AssistantCall? && out[j - 1].toolCallId == out[j].toolCallId)
    && (out[j].AssistantCall? ==>
          forall k :: j < k < |out| && out[k].AssistantCall? ==> out[j].toolCallId != out[k].toolCallId)
  }

  lemma NativeRequest(c: Config, view: Log, sid: string, j: nat)
    requires Numbered(view) && IsNativeLog(c, view)
    requires var ms := Context(view, c.systemPrompt); j < |ConvertUpTo(sid, ms, |ms|)|
    ensures var ms := Context(view, c.systemPrompt); IdsMatch(ConvertUpTo(sid, ms, |ms|), j)
  {
    var external :| Prescribed(c, view, external);
    var ms := Context(view, c.systemPrompt);
    var out := ConvertUpTo(sid, ms, |ms|);
    if out[j].ToolTurn? { RequestIsPaired(c, view, external, sid, c.systemPrompt, j); }
    forall k | j < k < |out| && out[j].AssistantCall? && out[k].AssistantCall?
      ensures out[j].toolCallId != out[k].toolCallId
    {
      RequestIdsDistinct(c, view, external, sid, c.systemPrompt, j, k);
    }
  }

  // In every provider request calls and results are paired by id and no two calls share one.
  lemma RequestsArePaired(c: Config, run: seq<State>, steps: seq<Step>, i: nat, view: Log, sid: string, j: nat)
    requires AsksWith(c, run, steps, i, view)
    requires var ms := Context(view, c.systemPrompt); j < |ConvertUpTo(sid, ms, |ms|)|
    ensures var ms := Context(view, c.systemPrompt); IdsMatch(ConvertUpTo(sid, ms, |ms|), j)
  {
    AskedView(c, run, steps, i, view);
    NativeRequest(c, view, sid, j);
  }

  // Budget: crashes and redeliveries included, a turn holds at most maxIterations replies, and at
  // most twice that and one events unless the API or the provisioner interrupts it.
  lemma TurnsStayInBudget(c: Config, run: seq<State>, steps: seq<Step>, i: nat, n: nat)
    requires c.maxIterations >= 1 && IsRun(c, run, steps) && i < |run| && n <= |LogIn(run[i])|
    ensures |run[i].external| == |LogIn(run[i])|
    ensures var turn, ext := LogIn(run[i])[..n], run[i].external[..n];
      && Results(turn) <= Replies(turn) <= c.maxIterations
      && Terminals(turn) <= Interruptions(turn, ext) + 1
      && (Interruptions(turn, ext) == 0 ==> Replies(turn) + Results(turn) + Terminals(turn) <= 2 * c.maxIterations + 1)
    ensures forall j :: 0 <= j < n && !run[i].external[j] && LogIn(run[i])[j].payload == TurnFailed(Budget) ==>
      Replies(LogIn(run[i])[..j]) == c.maxIterations && !Pending(LogIn(run[i])[..j])
  {
    ReachableLog(c, run, steps, i);
    BudgetHolds(c, LogIn(run[i]), run[i].external, n);
  }
}

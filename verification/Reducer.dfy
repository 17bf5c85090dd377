// The reducer (packages/sessions/src/reducer.ts): a pure fold from a log to the next action.
module Reducer {
  import opened Events

  datatype Action =
    | Infer
    | ExecTool(call: ToolCall, key: IdemKey)
    | Finish
    | Fail
    | Noop
    | Throws  // an empty log, or one with neither a user message nor a reply to look at

  function LastIndex(log: Log, k: Kind): (i: int)
    ensures -1 <= i < |log|
    ensures i >= 0 ==> KindOf(log[i].payload) == k
    ensures forall j :: i < j < |log| ==> KindOf(log[j].payload) != k
  {
    if log == [] then -1
    else if KindOf(log[|log| - 1].payload) == k then |log| - 1
    else LastIndex(log[..|log| - 1], k)
  }

  // Some tool_result under `key` at or after position `from`.
  predicate Answered(log: Log, from: int, key: IdemKey) {
    exists i :: 0 <= i < |log| && from <= i && log[i].payload.ToolResult? && log[i].payload.idemKey == key
  }

  // How many events of kind `k` stand at or after position `from`.
  function Count(log: Log, from: int, k: Kind): (n: nat)
    ensures n <= |log|
  {
    if log == [] || |log| - 1 < from then 0
    else Count(log[..|log| - 1], from, k) + if KindOf(log[|log| - 1].payload) == k then 1 else 0
  }

  function NextAction(log: Log, maxIterations: nat): Action {
    if log == [] then Throws
    else if IsTerminal(log[|log| - 1].payload) then Noop
    else
      var lastUser := LastIndex(log, User);
      var lastAssistant := LastIndex(log, Assistant);
      if lastAssistant < lastUser then Infer
      else if lastAssistant < 0 then Throws  // events[-1] has no payload
      else
        var calls := log[lastAssistant].payload.toolCalls;
        if calls == [] then Finish
        else
          var key := IdemKey(log[lastAssistant].seqNo, 0);
          if !Answered(log, lastAssistant + 1, key) then ExecTool(calls[0], key)
          else if Count(log, lastUser + 1, Assistant) >= maxIterations then Fail
          else Infer
  }
}

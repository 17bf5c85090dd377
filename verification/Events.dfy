// The event model of one session's log (packages/sessions/src/events.ts).
module Events {
  import opened Prelude

  datatype ToolCall = Exec(cmd: string, timeoutMs: Option<nat>)

  // What one run of a command reports: bytes, exit code, and whether the bytes were clipped.
  datatype ExecResult = ExecResult(output: seq<byte>, exitCode: int, truncated: bool)

  datatype ErrorClass = LlmPermanent | SandboxFatal | Budget | Harness | Internal

  // A call is named by its place in the log: the seq of the assistant message and the index in it.
  datatype IdemKey = IdemKey(seqNo: nat, index: nat)

  datatype Payload =
    | UserMessage(content: seq<string>)
    | AssistantMessage(content: seq<string>, toolCalls: seq<ToolCall>)
    | ToolResult(idemKey: IdemKey, result: ExecResult)
    | TurnCompleted
    | TurnFailed(cls: ErrorClass)
    | SessionProvisioned
    | HarnessAttemptStarted(attempt: nat, resumedFrom: Option<string>)

  datatype Kind = User | Assistant | Result | Completed | Failed | Provisioned | Attempt

  datatype Event = Event(seqNo: nat, payload: Payload)

  type Log = seq<Event>

  function KindOf(p: Payload): Kind {
    match p
    case UserMessage(_) => User
    case AssistantMessage(_, _) => Assistant
    case ToolResult(_, _) => Result
    case TurnCompleted => Completed
    case TurnFailed(_) => Failed
    case SessionProvisioned => Provisioned
    case HarnessAttemptStarted(_, _) => Attempt
  }

  predicate IsTerminal(p: Payload) { p.TurnCompleted? || p.TurnFailed? }

  predicate EndsTerminal(log: Log) { log != [] && IsTerminal(log[|log| - 1].payload) }

  function LastSeq(log: Log): nat { if log == [] then 0 else log[|log| - 1].seqNo }

  // The seq numbers of a log are dense from 1.
  predicate Numbered(log: Log) { forall i :: 0 <= i < |log| ==> log[i].seqNo == i + 1 }

  function TextContent(text: string): seq<string> { [text] }

  function PlainText(blocks: seq<string>): string {
    if blocks == [] then "" else blocks[0] + PlainText(blocks[1..])
  }

  // ------------------------------------------------------------------ keys

  // idemKeyFor: the printed key, "<session>:<seq>:<index>".
  function PrintKey(sessionId: string, k: IdemKey): string {
    sessionId + ":" + Decimal(k.seqNo) + ":" + Decimal(k.index)
  }

  // Row p came from the provisioner: from outside, and not a message.
  predicate IsProvisioning(log: Log, external: seq<bool>, p: int)
    requires |external| == |log|
  {
    0 <= p < |log| && external[p] && !log[p].payload.UserMessage?
  }

  // The provisioner wrote once, and no turn wrote before it did.
  ghost predicate ProvisionedOnceFirst(log: Log, external: seq<bool>)
    requires |external| == |log|
  {
    && (forall p, q :: IsProvisioning(log, external, p) && IsProvisioning(log, external, q) ==> p == q)
    && (forall k, p :: 0 <= k < |log| && !external[k] && IsProvisioning(log, external, p) ==> p < k)
  }
}

// The native turn runtime as a state machine: any number of deliveries of turn jobs, each with its
// own copy of the log, one shared log, one sandbox, and the API and provisioner appending whenever
// they like (packages/sessions/src/turn.ts, packages/sessions/src/native-strategy.ts).
module NativeProtocol {
  import opened Prelude
  import opened Events
  import opened Reducer
  import opened Store
  import opened OutputFiles
  import opened Sandbox
  import opened Conversation

  datatype Reply = Reply(text: string, toolCall: Option<ToolCall>)

  // What one session is pinned to, and what its model and its commands may answer.
  datatype Config = Config(
    maxIterations: nat,
    systemPrompt: string,
    replyOk: (seq<ChatMessage>, Reply) -> bool,
    resultOk: (IdemKey, ExecResult) -> bool)

  // Where a delivery stands between two awaits.
  datatype Pc =
    | Ready                                     // about to ask the reducer
    | Replied(reply: Reply)                     // the model answered; about to append it
    | Locked(key: IdemKey, call: ToolCall)      // won the mkdir; about to spawn
    | Tailing(key: IdemKey)                     // reading the key's files
    | Observed(key: IdemKey, res: ExecResult)   // saw the exit; about to append the result
    | Erred                                     // an error escaped the loop
    | Gone                                      // returned, stood down or died

  datatype Delivery = Delivery(view: Log, pc: Pc)

  // `external` records, row by row, which appends came from the API or the provisioner.
  datatype State = State(rows: Table, external: seq<bool>, box: Box, deliveries: map<nat, Delivery>)

  const Init := State(map[], [], EmptyBox, map[])

  function LogIn(s: State): Log { ReadAll(s.rows) }

  datatype Step =
    | SendMessage(content: seq<string>)
    | ProvisionCommit
    | ProvisionFail
    | Deliver(d: nat)
    | ModelReplies(d: nat, reply: Reply)
    | MkdirKey(d: nat)
    | SpawnCommand(d: nat)
    | SeeExit(d: nat)
    | Reboot(d: nat)
    | AppendNext(d: nat, acked: bool)
    | Raise(d: nat)
    | AppendFailure(d: nat, cls: ErrorClass, acked: bool)
    | Leave(d: nat)
    | CommandActs(key: IdemKey, files: Files)

  function ReplyPayload(r: Reply): Payload {
    AssistantMessage(TextContent(r.text), if r.toolCall.Some? then [r.toolCall.value] else [])
  }

  // The error classes the error maps append (turn.ts, native-strategy.ts).
  predicate ErrorPathClass(cls: ErrorClass) { cls in {LlmPermanent, SandboxFatal, Internal} }

  predicate Enabled(c: Config, s: State, step: Step) {
    match step
    case SendMessage(_) => true
    case ProvisionCommit => true
    case ProvisionFail => true
    case Deliver(d) => d !in s.deliveries
    case ModelReplies(d, reply) =>
      At(s, d, Ready) && Next(c, s, d) == Infer && c.replyOk(Context(s.deliveries[d].view, c.systemPrompt), reply)
    case MkdirKey(d) => At(s, d, Ready) && Next(c, s, d).ExecTool?
    case SpawnCommand(d) => d in s.deliveries && s.deliveries[d].pc.Locked?
    case SeeExit(d) =>
      d in s.deliveries && s.deliveries[d].pc.Tailing? && Finished(s.box, s.deliveries[d].pc.key)
    case Reboot(d) => d in s.deliveries && s.deliveries[d].pc.Tailing?
    case AppendNext(d, _) => d in s.deliveries && DueAppend(c, s.deliveries[d]).Some?
    case Raise(d) => d in s.deliveries && !s.deliveries[d].pc.Gone? && Next(c, s, d) != Noop
    case AppendFailure(d, cls, _) => At(s, d, Erred) && ErrorPathClass(cls)
    case Leave(d) => d in s.deliveries
    case CommandActs(key, files) =>
      CanEvolve(s.box, key, files) && (files.exit.Stamped? ==> c.resultOk(key, Report(files)))
  }

  predicate At(s: State, d: nat, pc: Pc) { d in s.deliveries && s.deliveries[d].pc == pc }

  function Next(c: Config, s: State, d: nat): Action
    requires d in s.deliveries
  {
    NextAction(s.deliveries[d].view, c.maxIterations)
  }

  datatype Due = Due(p: Payload, after: Pc)

  // The event the loop appends where it stands, and where it goes on after winning the append.
  function DueAppend(c: Config, dv: Delivery): Option<Due> {
    match dv.pc
    case Replied(reply) => Some(Due(ReplyPayload(reply), Ready))
    case Observed(key, res) => Some(Due(ToolResult(key, res), Ready))
    case Ready =>
      (match NextAction(dv.view, c.maxIterations)
       case Finish => Some(Due(TurnCompleted, Gone))
       case Fail => Some(Due(TurnFailed(Budget), Gone))
       case _ => None)
    case _ => None
  }

  function Move(s: State, d: nat, pc: Pc): State
    requires d in s.deliveries
  {
    s.(deliveries := s.deliveries[d := s.deliveries[d].(pc := pc)])
  }

  // The conditional append of turn.ts: an insert at the view's last seq plus one.  A taken seq is a
  // conflict and the delivery stands down; a committed insert whose acknowledgement is lost leaves
  // the view as it was and raises an error.
  function Append(s: State, d: nat, p: Payload, acked: bool, after: Pc): State
    requires d in s.deliveries
  {
    var view := s.deliveries[d].view;
    var e := Event(LastSeq(view) + 1, p);
    if Taken(s.rows, e) then Move(s, d, Gone)
    else
      s.(rows := s.rows[e.seqNo := e], external := s.external + [false],
         deliveries := s.deliveries[d := if acked then Delivery(view + [e], after) else Delivery(view, Erred)])
  }

  // An append inside a transaction that computed lastSeq + 1 itself.
  function AppendExternal(s: State, p: Payload): State {
    var e := Event(LastSeqOf(s.rows) + 1, p);
    s.(rows := s.rows[e.seqNo := e], external := s.external + [true])
  }

  function Apply(c: Config, s: State, step: Step): State
    requires Enabled(c, s, step)
  {
    match step
    case SendMessage(content) => AppendExternal(s, UserMessage(content))
    case ProvisionCommit => AppendExternal(s, SessionProvisioned)
    case ProvisionFail => AppendExternal(s, TurnFailed(SandboxFatal))
    case Deliver(d) => s.(deliveries := s.deliveries[d := Delivery(LogIn(s), Ready)])
    case ModelReplies(d, reply) => Move(s, d, Replied(reply))
    case MkdirKey(d) =>
      var ExecTool(call, key) := Next(c, s, d);
      if key in s.box.dirs then Move(s, d, Tailing(key))
      else Move(s.(box := MakeDir(s.box, key)), d, Locked(key, call))
    case SpawnCommand(d) =>
      var Locked(key, call) := s.deliveries[d].pc;
      Move(s.(box := SpawnIn(s.box, key, call)), d, Tailing(key))
    case SeeExit(d) =>
      var key := s.deliveries[d].pc.key;
      Move(s, d, Observed(key, Report(s.box.dirs[key].files)))
    case Reboot(d) => Move(s, d, Ready)
    case AppendNext(d, acked) =>
      var Due(p, after) := DueAppend(c, s.deliveries[d]).value;
      Append(s, d, p, acked, after)
    case Raise(d) => Move(s, d, Erred)
    case AppendFailure(d, cls, acked) => Append(s, d, TurnFailed(cls), acked, Gone)
    case Leave(d) => Move(s, d, Gone)
    case CommandActs(key, files) => s.(box := Evolve(s.box, key, files))
  }

  // ---------------------------------------------------------------- invariant

  // Every delivery's events are a prefix of the shared log; seqs are dense from 1.
  ghost predicate ViewsArePrefixes(s: State) {
    && Dense(s.rows) && |s.external| == |s.rows|
    && forall d :: d in s.deliveries ==> s.deliveries[d].view <= LogIn(s)
  }

  ghost predicate PcOk(c: Config, box: Box, dv: Delivery) {
    var action := NextAction(dv.view, c.maxIterations);
    match dv.pc
    case Ready => true
    case Replied(reply) => action == Infer && c.replyOk(Context(dv.view, c.systemPrompt), reply)
    case Locked(key, call) => action == ExecTool(call, key) && key in box.dirs && box.dirs[key] == Made
    case Tailing(key) => action.ExecTool? && action.key == key && key in box.dirs
    case Observed(key, res) => action.ExecTool? && action.key == key && BoxReports(box, key, res)
    case Erred => action != Noop
    case Gone => true
  }

  ghost predicate PcsOk(c: Config, s: State) {
    && (forall d :: d in s.deliveries ==> PcOk(c, s.box, s.deliveries[d]))
    && (forall d, d' :: d in s.deliveries && d' in s.deliveries && s.deliveries[d].pc.Locked? && d != d' ==>
          s.deliveries[d'].pc != s.deliveries[d].pc)
  }

  // What a finished command reports is an allowed outcome.
  ghost predicate OutcomesOk(c: Config, box: Box) {
    forall k, res :: BoxReports(box, k, res) ==> c.resultOk(k, res)
  }

  // What may follow `before`: an external append, an error-path failure of an unfinished turn, or
  // exactly the event the reducer prescribes.
  ghost predicate Prescribes(c: Config, before: Log, p: Payload, external: bool) {
    if external then p.UserMessage? || p.SessionProvisioned? || p == TurnFailed(SandboxFatal)
    else
      var action := NextAction(before, c.maxIterations);
      || (action != Noop && p.TurnFailed? && ErrorPathClass(p.cls))
      || match action {
           case Infer => exists r :: p == ReplyPayload(r) && c.replyOk(Context(before, c.systemPrompt), r)
           case ExecTool(_, key) => p.ToolResult? && p.idemKey == key && c.resultOk(key, p.result)
           case Finish => p == TurnCompleted
           case Fail => p == TurnFailed(Budget)
           case Noop => false
           case Throws => false
         }
  }

  // Row i may follow the rows before it.
  ghost predicate PrescribedAt(c: Config, log: Log, external: seq<bool>, i: nat)
    requires |external| == |log| && i < |log|
  {
    Prescribes(c, log[..i], log[i].payload, external[i])
  }

  ghost predicate Prescribed(c: Config, log: Log, external: seq<bool>) {
    && |external| == |log|
    && forall i :: 0 <= i < |log| ==> PrescribedAt(c, log, external, i)
  }

  // Some history of external appends makes the whole log prescribed.
  ghost predicate IsNativeLog(c: Config, log: Log) {
    exists external :: Prescribed(c, log, external)
  }

  ghost predicate Inv(c: Config, s: State) {
    && ViewsArePrefixes(s)
    && PcsOk(c, s)
    && BoxFollowsLog(s.box, LogIn(s)) && OutcomesOk(c, s.box)
    && ResultsReported(s.box, LogIn(s))
    && Prescribed(c, LogIn(s), s.external)
  }
}

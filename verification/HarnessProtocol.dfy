// The harness turn runtime as a state machine (packages/sessions/src/harness-strategy.ts,
// packages/ports/harness/src/drivers/claude-code.ts): deliveries race for the fence, recover the calls
// earlier attempts left unanswered, then let a driver append and execute until it commits.
// A delivery's attempt token is its own number, so tokens are never reused.
module HarnessProtocol {
  import opened Prelude
  import opened Events
  import opened Reducer
  import opened Store
  import opened OutputFiles
  import opened Sandbox

  // Where one exec stands: before the mkdir, holding the lock, reading the files, or done.
  datatype ExecPc = Start | Holding | Reading | Done(res: ExecResult)

  datatype Job = Job(call: ToolCall, pc: ExecPc)

  datatype Pc =
    | Loaded                 // the log was read; no attempt yet
    | Recovering             // fence won; resolving what earlier attempts left open
    | Driving(fatal: bool)   // the driver runs; fatal once its first error was latched
    | Erred                  // an error reached the error map
    | Gone

  // jobs are the calls this delivery is executing, by key.
  datatype Delivery = Delivery(view: Log, pc: Pc, fenced: bool, jobs: map<IdemKey, Job>)

  // authors records, row by row, which delivery appended it (None: the API or the provisioner);
  // token is the fence column of the session row.
  datatype State = State(
    rows: Table, authors: seq<Option<nat>>, token: Option<nat>, box: Box, deliveries: map<nat, Delivery>)

  const Init := State(map[], [], None, EmptyBox, map[])

  function LogIn(s: State): Log { ReadAll(s.rows) }

  datatype Step =
    | SendMessage(content: seq<string>)
    | ProvisionCommit
    | ProvisionFail
    | Deliver(d: nat)
    | NoDriver(d: nat, acked: bool)
    | Fence(d: nat, tip: Option<string>, acked: bool)
    | MkdirKey(d: nat, key: IdemKey)
    | SpawnCommand(d: nat, key: IdemKey)
    | SeeExit(d: nat, key: IdemKey)
    | Reboot(d: nat, key: IdemKey)
    | AppendResult(d: nat, key: IdemKey, acked: bool)
    | StartDriver(d: nat)
    | DriverText(d: nat, content: seq<string>, acked: bool)
    | DriverCall(d: nat, call: ToolCall, acked: bool)
    | DriverFails(d: nat)
    | Commit(d: nat, success: bool, acked: bool)
    | Raise(d: nat)
    | AppendFailure(d: nat, cls: ErrorClass, acked: bool)
    | Leave(d: nat)
    | CommandActs(key: IdemKey, files: Files)

  // Past the early returns of run: something to answer, and not finished yet.
  predicate CanStart(view: Log) { view != [] && !EndsTerminal(view) && LastIndex(view, User) >= 0 }

  predicate At(s: State, d: nat, pc: Pc) { d in s.deliveries && s.deliveries[d].pc == pc }

  predicate Executing(s: State, d: nat, key: IdemKey) {
    && d in s.deliveries && (s.deliveries[d].pc.Recovering? || s.deliveries[d].pc.Driving?)
    && key in s.deliveries[d].jobs
  }

  predicate ErrorPathClass(cls: ErrorClass) { cls in {ErrorClass.Harness, SandboxFatal, Internal} }

  // The driver's errors are thrown only once the driver has unwound.
  predicate CanRaise(dv: Delivery) {
    || (dv.pc.Loaded? && CanStart(dv.view))
    || dv.pc.Recovering?
    || dv.pc == Driving(true)
  }

  predicate Enabled(s: State, step: Step) {
    match step
    case SendMessage(_) => true
    case ProvisionCommit => true
    case ProvisionFail => true
    case Deliver(d) => d !in s.deliveries
    case NoDriver(d, _) => At(s, d, Loaded) && CanStart(s.deliveries[d].view)
    case Fence(d, _, _) => At(s, d, Loaded) && CanStart(s.deliveries[d].view)
    case MkdirKey(d, key) => Executing(s, d, key) && s.deliveries[d].jobs[key].pc.Start?
    case SpawnCommand(d, key) => Executing(s, d, key) && s.deliveries[d].jobs[key].pc.Holding?
    case SeeExit(d, key) => Executing(s, d, key) && s.deliveries[d].jobs[key].pc.Reading? && Finished(s.box, key)
    case Reboot(d, key) => Executing(s, d, key) && s.deliveries[d].jobs[key].pc.Reading?
    case AppendResult(d, key, _) => Executing(s, d, key) && s.deliveries[d].jobs[key].pc.Done?
    case StartDriver(d) => At(s, d, Recovering) && s.deliveries[d].jobs == map[]
    case DriverText(d, _, _) => d in s.deliveries && s.deliveries[d].pc.Driving?
    case DriverCall(d, _, _) => d in s.deliveries && s.deliveries[d].pc.Driving?
    case DriverFails(d) => d in s.deliveries && s.deliveries[d].pc.Driving?
    case Commit(d, _, _) => At(s, d, Driving(false))
    case Raise(d) => d in s.deliveries && CanRaise(s.deliveries[d])
    case AppendFailure(d, cls, _) => At(s, d, Erred) && ErrorPathClass(cls)
    case Leave(d) => d in s.deliveries
    case CommandActs(key, files) => CanEvolve(s.box, key, files)
  }

  // The calls journaled at positions from..n of the log with no result at or after `from`.
  function Outstanding(log: Log, from: int, n: nat): map<IdemKey, Job>
    requires n <= |log|
  {
    if n == 0 || n <= from then map[]
    else
      var e := log[n - 1];
      var rest := Outstanding(log, from, n - 1);
      if e.payload.AssistantMessage? && e.payload.toolCalls != [] && !Answered(log, from, IdemKey(e.seqNo, 0))
      then rest[IdemKey(e.seqNo, 0) := Job(e.payload.toolCalls[0], Start)] else rest
  }

  // The unanswered calls of the current turn.
  function OpenCalls(view: Log): map<IdemKey, Job> { Outstanding(view, LastIndex(view, User) + 1, |view|) }

  function Left(dv: Delivery): Delivery { dv.(pc := Gone, jobs := map[]) }

  function Errs(dv: Delivery): Delivery { dv.(pc := Erred, jobs := map[]) }

  // The driver's first-error latch; the failed exec is dropped.
  function Latched(dv: Delivery, key: Option<IdemKey>): Delivery {
    dv.(pc := Driving(true), jobs := if key.Some? then dv.jobs - {key.value} else dv.jobs)
  }

  function Pushed(dv: Delivery, p: Payload): Delivery {
    dv.(view := dv.view + [Event(LastSeq(dv.view) + 1, p)])
  }

  function Put(s: State, d: nat, dv: Delivery): State { s.(deliveries := s.deliveries[d := dv]) }

  function WithJob(dv: Delivery, key: IdemKey, job: Job): Delivery { dv.(jobs := dv.jobs[key := job]) }

  // A conditional append by d: `won` once acknowledged, `lost` on a conflict, `broke` when the row
  // was committed but the caller saw an error.  An attempt's row carries the token with it.
  function Insert(s: State, d: nat, p: Payload, acked: bool, won: Delivery, lost: Delivery, broke: Delivery): State
    requires d in s.deliveries
  {
    var e := Event(LastSeq(s.deliveries[d].view) + 1, p);
    if Taken(s.rows, e) then Put(s, d, lost)
    else
      State(s.rows[e.seqNo := e], s.authors + [Some(d)],
            if p.HarnessAttemptStarted? then Some(p.attempt) else s.token,
            s.box, s.deliveries[d := if acked then won else broke])
  }

  function InsertExternal(s: State, p: Payload): State {
    var e := Event(LastSeqOf(s.rows) + 1, p);
    s.(rows := s.rows[e.seqNo := e], authors := s.authors + [None])
  }

  // The fence: after it the delivery holds the unanswered calls of the turn.
  function Fenced(dv: Delivery, p: Payload): Delivery {
    var view := Pushed(dv, p).view;
    Delivery(view, Recovering, true, OpenCalls(view))
  }

  function Apply(s: State, step: Step): State
    requires Enabled(s, step)
  {
    match step
    case SendMessage(content) => InsertExternal(s, UserMessage(content))
    case ProvisionCommit => InsertExternal(s, SessionProvisioned)
    case ProvisionFail => InsertExternal(s, TurnFailed(SandboxFatal))
    case Deliver(d) => Put(s, d, Delivery(LogIn(s), Loaded, false, map[]))
    case NoDriver(d, acked) =>
      var dv, p := s.deliveries[d], TurnFailed(ErrorClass.Harness);
      Insert(s, d, p, acked, Left(Pushed(dv, p)), Left(dv), Left(dv))
    case Fence(d, tip, acked) =>
      var dv, p := s.deliveries[d], HarnessAttemptStarted(d, tip);
      Insert(s, d, p, acked, Fenced(dv, p), Left(dv), Left(dv))
    case MkdirKey(d, key) =>
      var dv := s.deliveries[d];
      if key in s.box.dirs then Put(s, d, WithJob(dv, key, dv.jobs[key].(pc := Reading)))
      else Put(s.(box := MakeDir(s.box, key)), d, WithJob(dv, key, dv.jobs[key].(pc := Holding)))
    case SpawnCommand(d, key) =>
      var dv := s.deliveries[d];
      Put(s.(box := SpawnIn(s.box, key, dv.jobs[key].call)), d, WithJob(dv, key, dv.jobs[key].(pc := Reading)))
    case SeeExit(d, key) =>
      var dv := s.deliveries[d];
      Put(s, d, WithJob(dv, key, dv.jobs[key].(pc := Done(Report(s.box.dirs[key].files)))))
    case Reboot(d, key) =>
      var dv := s.deliveries[d];
      Put(s, d, WithJob(dv, key, dv.jobs[key].(pc := Start)))
    case AppendResult(d, key, acked) =>
      var dv := s.deliveries[d];
      var p := ToolResult(key, dv.jobs[key].pc.res);
      var won := Pushed(dv, p).(jobs := dv.jobs - {key});
      if dv.pc.Recovering? then Insert(s, d, p, acked, won, Left(dv), Errs(dv))
      else Insert(s, d, p, acked, won, Latched(dv, Some(key)), Latched(dv, Some(key)))
    case StartDriver(d) => Put(s, d, s.deliveries[d].(pc := Driving(false)))
    case DriverText(d, content, acked) =>
      var dv, p := s.deliveries[d], AssistantMessage(content, []);
      Insert(s, d, p, acked, Pushed(dv, p), Latched(dv, None), Latched(dv, None))
    case DriverCall(d, call, acked) =>
      var dv, p := s.deliveries[d], AssistantMessage([], [call]);
      var key := IdemKey(LastSeq(dv.view) + 1, 0);
      Insert(s, d, p, acked, WithJob(Pushed(dv, p), key, Job(call, Start)), Latched(dv, None), Latched(dv, None))
    case DriverFails(d) => Put(s, d, Latched(s.deliveries[d], None))
    case Commit(d, success, acked) =>
      var dv, p := s.deliveries[d], if success then TurnCompleted else TurnFailed(Budget);
      Insert(s, d, p, acked, Left(Pushed(dv, p)), Left(dv), Left(dv))
    case Raise(d) => Put(s, d, Errs(s.deliveries[d]))
    case AppendFailure(d, cls, acked) =>
      var dv, p := s.deliveries[d], TurnFailed(cls);
      Insert(s, d, p, acked, Left(Pushed(dv, p)), Left(dv), Left(dv))
    case Leave(d) => Put(s, d, Left(s.deliveries[d]))
    case CommandActs(key, files) => s.(box := Evolve(s.box, key, files))
  }

  // ---------------------------------------------------------------- invariant

  ghost predicate ViewsArePrefixes(s: State) {
    && Dense(s.rows) && |s.authors| == |s.rows|
    && forall d :: d in s.deliveries ==> s.deliveries[d].view <= LogIn(s)
  }

  // The attempt that owns the turn: that of the last harness_attempt_started.
  function LastAttempt(log: Log): Option<nat> {
    var i := LastIndex(log, Attempt);
    if i < 0 then None else Some(log[i].payload.attempt)
  }

  ghost predicate JobOk(box: Box, view: Log, key: IdemKey, job: Job) {
    && CallAt(view, key, job.call) && !Answered(view, 0, key)
    && match job.pc
       case Start => true
       case Holding => key in box.dirs && box.dirs[key] == Made
       case Reading => key in box.dirs
       case Done(res) => BoxReports(box, key, res)
  }

  // Every call since the last user message has its result or is being executed right now.
  ghost predicate AnsweredOrOpen(view: Log, jobs: map<IdemKey, Job>) {
    forall i :: LastIndex(view, User) < i < |view| && MakesCall(view[i].payload) ==>
      Answered(view, 0, IdemKey(i + 1, 0)) || IdemKey(i + 1, 0) in jobs
  }

  predicate MakesCall(p: Payload) { p.AssistantMessage? && p.toolCalls != [] }

  ghost predicate JobsOk(box: Box, view: Log, jobs: map<IdemKey, Job>) {
    forall k :: k in jobs ==> JobOk(box, view, k, jobs[k])
  }

  // A delivery past its fence owns the last attempt it knows of, and while it recovers or drives
  // nothing of the turn is forgotten.
  ghost predicate PlaceOk(d: nat, dv: Delivery) {
    && (dv.fenced ==> LastAttempt(dv.view) == Some(d))
    && (dv.pc.Recovering? || dv.pc.Driving? ==> dv.fenced)
    && (dv.pc.Loaded? ==> !dv.fenced)
    && (dv.pc.Recovering? || dv.pc == Driving(false) ==> AnsweredOrOpen(dv.view, dv.jobs))
  }

  ghost predicate DeliveryOk(box: Box, d: nat, dv: Delivery) { JobsOk(box, dv.view, dv.jobs) && PlaceOk(d, dv) }

  ghost predicate DeliveriesOk(s: State) {
    forall d :: d in s.deliveries ==> DeliveryOk(s.box, d, s.deliveries[d])
  }

  predicate Holds(dv: Delivery, key: IdemKey) { key in dv.jobs && dv.jobs[key].pc.Holding? }

  ghost predicate LocksHeldOnce(s: State) {
    forall d, d', key :: d in s.deliveries && d' in s.deliveries && d != d' && Holds(s.deliveries[d], key) ==>
      !Holds(s.deliveries[d'], key)
  }

  // Results follow their calls, and no call has two.
  ghost predicate ResultsUnique(log: Log) {
    && (forall i :: 0 <= i < |log| && log[i].payload.ToolResult? ==> log[i].payload.idemKey.seqNo <= i)
    && forall i, j :: 0 <= i < j < |log| && log[i].payload.ToolResult? && log[j].payload.ToolResult? ==>
      log[i].payload.idemKey != log[j].payload.idemKey
  }

  ghost predicate StartedIn(log: Log, d: nat) {
    exists i :: 0 <= i < |log| && log[i].payload.HarnessAttemptStarted? && log[i].payload.attempt == d
  }

  // No token is started twice, and only its own delivery starts it.
  ghost predicate AttemptsOk(s: State) {
    var log := LogIn(s);
    && (forall i, j ::
          0 <= i < j < |log| && log[i].payload.HarnessAttemptStarted? && log[j].payload.HarnessAttemptStarted? ==>
            log[i].payload.attempt != log[j].payload.attempt)
    && (forall d :: StartedIn(log, d) ==> d in s.deliveries && (s.deliveries[d].fenced || s.deliveries[d].pc.Gone?))
  }

  // Row j came from outside, started its author's attempt, landed while its author's attempt was the
  // last one started, or is the terminal failure of a delivery that never started one.
  ghost predicate Owned(before: Log, p: Payload, author: Option<nat>) {
    || author.None?
    || (p.HarnessAttemptStarted? && p.attempt == author.value)
    || (!p.HarnessAttemptStarted? && LastAttempt(before) == author)
    || (p.TurnFailed? && !StartedIn(before, author.value))
  }

  ghost predicate AllOwned(log: Log, authors: seq<Option<nat>>) {
    && |authors| == |log|
    && (forall j :: 0 <= j < |log| ==> Owned(log[..j], log[j].payload, authors[j]))
    && (forall j :: 0 <= j < |log| && authors[j].None? ==> !log[j].payload.HarnessAttemptStarted?)
  }

  ghost predicate Inv(s: State) {
    && ViewsArePrefixes(s)
    && DeliveriesOk(s)
    && LocksHeldOnce(s)
    && BoxFollowsLog(s.box, LogIn(s))
    && ResultsReported(s.box, LogIn(s))
    && ResultsUnique(LogIn(s))
    && AttemptsOk(s)
    && AllOwned(LogIn(s), s.authors)
    && s.token == LastAttempt(LogIn(s))
  }
}

// The code one delivery of a harness session runs: harnessStrategy.run with its fence, recovery
// pre-pass, serialized appends and commit (packages/sessions/src/harness-strategy.ts) and the driver's
// exec handler with its first-error latch (packages/ports/harness/src/drivers/claude-code.ts).
// Each await lets other deliveries, the API, the provisioner, the sandbox, and while the driver runs
// this delivery's other handlers, take any number of steps.
module HarnessStrategy {
  import opened Prelude
  import opened Events
  import opened Reducer
  import opened Store
  import opened OutputFiles
  import opened Sandbox
  import opened HarnessProtocol
  import opened HarnessSafety
  import opened HarnessSteps
  import opened HarnessRuns
  import opened HarnessDiscipline

  // Escaped: the log read before the strategy threw; the worker nacks.
  datatype TurnOutcome = TurnDone | TurnFailedRecorded | Conflict | RetryLater | Escaped

  datatype Error = LogConflict | HarnessFenced | HarnessPermanent | HarnessTransient | SandboxUnavailable | OtherError

  datatype Returned = Outcome(o: TurnOutcome) | Threw(err: Error)

  // What reading the resume tip comes to.
  datatype Tip = Read(tip: Option<string>) | Unreadable

  // What is left to recover, in log order.
  datatype Unanswered = Unanswered(call: ToolCall, seqNo: nat)

  datatype Recovered = Recovered(call: ToolCall, result: ExecResult)

  datatype ExecOutcome = Saw(res: ExecResult) | Unobservable | OtherFailure | HandleNotSaved

  function KeyOf(u: Unanswered): IdemKey { IdemKey(u.seqNo, 0) }

  // calls lists the jobs, each once, in log order.
  ghost predicate Lists(calls: seq<Unanswered>, jobs: map<IdemKey, Job>) {
    && (forall i, j :: 0 <= i < j < |calls| ==> calls[i].seqNo < calls[j].seqNo)
    && (forall i :: 0 <= i < |calls| ==> KeyOf(calls[i]) in jobs && jobs[KeyOf(calls[i])] == Job(calls[i].call, Start))
    && (forall k :: k in jobs ==> exists i :: 0 <= i < |calls| && KeyOf(calls[i]) == k)
  }

  lemma ListsOneMore(calls: seq<Unanswered>, jobs: map<IdemKey, Job>, u: Unanswered)
    requires Lists(calls, jobs) && forall i :: 0 <= i < |calls| ==> calls[i].seqNo < u.seqNo
    ensures Lists(calls + [u], jobs[KeyOf(u) := Job(u.call, Start)])
  {
    var calls', jobs' := calls + [u], jobs[KeyOf(u) := Job(u.call, Start)];
    assert calls'[|calls|] == u;
    forall k | k in jobs' ensures exists i :: 0 <= i < |calls'| && KeyOf(calls'[i]) == k {
      if k != KeyOf(u) {
        var i :| 0 <= i < |calls| && KeyOf(calls[i]) == k;
        assert calls'[i] == calls[i];
      }
    }
  }

  // The calls from the i-th on are what is left.
  ghost predicate ListsFrom(calls: seq<Unanswered>, i: nat, jobs: map<IdemKey, Job>) {
    i <= |calls| && Lists(calls[i..], jobs)
  }

  lemma ListsFromNext(calls: seq<Unanswered>, i: nat, jobs: map<IdemKey, Job>)
    requires ListsFrom(calls, i, jobs) && i < |calls|
    ensures KeyOf(calls[i]) in jobs && jobs[KeyOf(calls[i])] == Job(calls[i].call, Start)
    ensures ListsFrom(calls, i + 1, jobs - {KeyOf(calls[i])})
  {
    var now, rest := calls[i..], calls[i + 1..];
    assert now[0] == calls[i];
    forall k | k in jobs - {KeyOf(calls[i])} ensures exists m :: 0 <= m < |rest| && KeyOf(rest[m]) == k {
      var m :| 0 <= m < |now| && KeyOf(now[m]) == k;
      assert rest[m - 1] == now[m];
    }
    assert forall m :: 0 <= m < |rest| ==> rest[m] == now[m + 1];
  }

  lemma ListsNone(calls: seq<Unanswered>, jobs: map<IdemKey, Job>)
    requires ListsFrom(calls, |calls|, jobs)
    ensures jobs == map[]
  {
    assert jobs.Keys == {};
  }

  // unansweredCalls: one pass over the turn, in log order.
  method UnansweredCalls(events: Log, lastUser: int) returns (out: seq<Unanswered>)
    requires Numbered(events) && -1 <= lastUser < |events|
    ensures Lists(out, Outstanding(events, lastUser + 1, |events|))
  {
    out := [];
    for n := lastUser + 1 to |events|
      invariant Lists(out, Outstanding(events, lastUser + 1, n))
      invariant forall i :: 0 <= i < |out| ==> out[i].seqNo <= n
    {
      var e := events[n];
      if e.payload.AssistantMessage? && e.payload.toolCalls != []
         && !Answered(events, lastUser + 1, IdemKey(e.seqNo, 0)) {
        ListsOneMore(out, Outstanding(events, lastUser + 1, n), Unanswered(e.payload.toolCalls[0], e.seqNo));
        out := out + [Unanswered(e.payload.toolCalls[0], e.seqNo)];
      }
    }
  }

  // ----------------------------------------------------------------- interference

  predicate IsBy(step: Step, d: nat) {
    match step
    case SendMessage(_) => false
    case ProvisionCommit => false
    case ProvisionFail => false
    case CommandActs(_, _) => false
    case _ => step.d == d
  }

  predicate IsJobStep(step: Step) { step.MkdirKey? || step.SpawnCommand? || step.SeeExit? || step.Reboot? }

  // What d's driver and its other exec handlers do beside the handler of `key`.
  predicate InDriver(step: Step, d: nat, key: IdemKey) {
    || ((step.DriverText? || step.DriverCall? || step.DriverFails?) && step.d == d)
    || ((IsJobStep(step) || step.AppendResult?) && step.d == d && step.key != key)
  }

  // How far a delivery may have come while the handler of `key` waited.
  ghost predicate Onward(dv: Delivery, dv': Delivery, key: IdemKey) {
    && dv'.fenced == dv.fenced && dv.view <= dv'.view
    && (dv.pc.Driving? ==> dv'.pc.Driving? && (dv.pc.fatal ==> dv'.pc.fatal))
    && (!dv.pc.Driving? ==> dv' == dv.(jobs := dv'.jobs) && dv'.jobs - {key} == dv.jobs - {key})
  }

  ghost predicate Waited(dv: Delivery, dv': Delivery, key: IdemKey) {
    && Onward(dv, dv', key)
    && (key in dv.jobs ==> key in dv'.jobs && dv'.jobs[key] == dv.jobs[key])
    && (!dv.pc.Driving? ==> dv' == dv)
  }

  // A conflict or a lost fence is latched only by a delivery that has been overtaken.
  ghost predicate CauseFits(s: State, cause: Error, d: nat) {
    && d in s.deliveries
    && (s.deliveries[d].pc == Driving(true) && (cause.LogConflict? || cause.HarnessFenced?) ==> Stale(s, d))
  }

  ghost predicate InTurn(s: State, cause: Error, d: nat) {
    && Reachable(s) && CauseFits(s, cause, d) && s.deliveries[d].fenced
    && (s.deliveries[d].pc.Recovering? || s.deliveries[d].pc.Driving?)
  }

  lemma StepGrowsLog(s: State, step: Step)
    requires Reachable(s) && Enabled(s, step)
    ensures Reachable(Apply(s, step)) && LogIn(s) <= LogIn(Apply(s, step))
    ensures forall d :: Stale(s, d) ==> Stale(Apply(s, step), d)
  {
    ReachableNext(s, step);
    ReachableKeepsInv(s);
    StepKeepsHistory(s, step);
    forall d | Stale(s, d) ensures Stale(Apply(s, step), d) { StaleStep(s, step, d); }
  }

  lemma OthersLeaveAlone(s: State, step: Step, d: nat)
    requires Enabled(s, step) && !IsBy(step, d) && d in s.deliveries
    ensures d in Apply(s, step).deliveries && Apply(s, step).deliveries[d] == s.deliveries[d]
  {
  }

  lemma JobKeysAreOld(s: State, d: nat, key: IdemKey)
    requires DeliveriesOk(s) && d in s.deliveries && key in s.deliveries[d].jobs
    ensures key.seqNo <= |s.deliveries[d].view|
  {
    assert DeliveryOk(s.box, d, s.deliveries[d]);
    assert JobOk(s.box, s.deliveries[d].view, key, s.deliveries[d].jobs[key]);
  }

  // The driver's own appends, and what other handlers do to their jobs.
  lemma DriverAppendsOn(s: State, step: Step, d: nat, key: IdemKey)
    requires Enabled(s, step) && InDriver(step, d, key) && d in s.deliveries && s.deliveries[d].pc.Driving?
    requires !IsJobStep(step)
    requires key in s.deliveries[d].jobs ==> key.seqNo <= LastSeq(s.deliveries[d].view)
    ensures d in Apply(s, step).deliveries && Waited(s.deliveries[d], Apply(s, step).deliveries[d], key)
  {
  }

  lemma OtherJobsMoveOn(s: State, step: Step, d: nat, key: IdemKey)
    requires Enabled(s, step) && InDriver(step, d, key) && d in s.deliveries && s.deliveries[d].pc.Driving?
    requires IsJobStep(step)
    ensures d in Apply(s, step).deliveries && Waited(s.deliveries[d], Apply(s, step).deliveries[d], key)
  {
  }

  lemma DriverMovesOn(s: State, step: Step, d: nat, key: IdemKey)
    requires Enabled(s, step) && InDriver(step, d, key) && d in s.deliveries && s.deliveries[d].pc.Driving?
    requires key in s.deliveries[d].jobs ==> key.seqNo <= LastSeq(s.deliveries[d].view)
    ensures d in Apply(s, step).deliveries && Waited(s.deliveries[d], Apply(s, step).deliveries[d], key)
  {
    if IsJobStep(step) { OtherJobsMoveOn(s, step, d, key); } else { DriverAppendsOn(s, step, d, key); }
  }

  lemma DriverMoves(s: State, step: Step, d: nat, key: IdemKey)
    requires Reachable(s) && Enabled(s, step) && InDriver(step, d, key)
    requires d in s.deliveries && s.deliveries[d].pc.Driving?
    ensures d in Apply(s, step).deliveries && Waited(s.deliveries[d], Apply(s, step).deliveries[d], key)
  {
    ReachableKeepsInv(s);
    ViewFacts(s, d);
    if key in s.deliveries[d].jobs { JobKeysAreOld(s, d, key); }
    DriverMovesOn(s, step, d, key);
  }

  // A delivery whose token was replaced has not seen the whole log.
  lemma OutrunIsStale(s: State, d: nat)
    requires Reachable(s) && d in s.deliveries && s.deliveries[d].fenced && s.token != Some(d)
    ensures Stale(s, d)
  {
    ReachableKeepsInv(s);
    assert DeliveryOk(s.box, d, s.deliveries[d]);
  }

  // An error escapes only from an unfinished turn.
  lemma ErredIsOpen(s: State, d: nat)
    requires Reachable(s) && At(s, d, Erred)
    ensures !EndsTerminal(s.deliveries[d].view)
  {
    var run, steps :| IsRun(run, steps) && run[|steps|] == s;
    NoTurnWritesBehindAnEnd(run, steps, |steps|);
    assert Unended(s.deliveries[d]);
  }

  lemma LostIsStale(s: State, step: Step)
    requires Reachable(s) && Enabled(s, step) && IsInsert(step) && s.deliveries[step.d].view != LogIn(s)
    ensures Stale(Apply(s, step), step.d)
  {
    ReachableKeepsInv(s);
    StaleStep(s, step, step.d);
  }

  lemma LatchesOnlyIfStale(s: State, step: Step, d: nat, key: IdemKey)
    requires Reachable(s) && Enabled(s, step) && InDriver(step, d, key) && d in s.deliveries
    requires s.deliveries[d].pc.Driving? && s.deliveries[d].fenced
    ensures (IsInsert(step) && s.deliveries[d].view != LogIn(s)) || s.token != Some(d) ==> Stale(Apply(s, step), d)
  {
    StepGrowsLog(s, step);
    if IsInsert(step) && s.deliveries[d].view != LogIn(s) { LostIsStale(s, step); }
    if s.token != Some(d) { OutrunIsStale(s, d); }
  }

  lemma JobMovesOn(s: State, step: Step)
    requires Enabled(s, step) && IsJobStep(step)
    ensures step.d in Apply(s, step).deliveries && step.key in Apply(s, step).deliveries[step.d].jobs
    ensures var dv, dv' := s.deliveries[step.d], Apply(s, step).deliveries[step.d];
      && Onward(dv, dv', step.key) && dv'.pc == dv.pc && dv'.view == dv.view
      && dv'.jobs[step.key].call == dv.jobs[step.key].call
  {
  }

  lemma ViewIsNumbered(s: State, d: nat)
    requires Reachable(s) && d in s.deliveries
    ensures Numbered(s.deliveries[d].view) && LastSeq(s.deliveries[d].view) == |s.deliveries[d].view|
  {
    ReachableKeepsInv(s);
    ViewFacts(s, d);
  }

  lemma NothingOpen(s: State, d: nat)
    requires Reachable(s) && At(s, d, Recovering) && s.deliveries[d].jobs == map[]
    ensures AllAnsweredOnce(s, d)
  {
    ReachableKeepsInv(s);
    NoneOpen(s, d);
  }

  // A refused insert: the delivery had not seen the whole log.
  lemma TakenIsStale(s: State, d: nat, step: Step, p: Payload)
    requires Reachable(s) && Enabled(s, step) && IsInsertBy(step, d)
    requires Taken(s.rows, Event(LastSeq(s.deliveries[d].view) + 1, p))
    ensures Stale(s, d) && Stale(Apply(s, step), d)
  {
    ReachableKeepsInv(s);
    ConditionalAppend(s.rows, s.deliveries[d].view, Event(LastSeq(s.deliveries[d].view) + 1, p));
    LostIsStale(s, step);
  }

  // The steps that append p and leave.
  predicate Ends(s: State, step: Step, d: nat, p: Payload) {
    && Enabled(s, step)
    && match step
       case NoDriver(x, _) => x == d && p == TurnFailed(ErrorClass.Harness)
       case AppendFailure(x, cls, _) => x == d && p == TurnFailed(cls)
       case Commit(x, success, _) => x == d && p == if success then TurnCompleted else TurnFailed(Budget)
       case _ => false
  }

  function LastPayload(log: Log): Payload
    requires log != []
  {
    log[|log| - 1].payload
  }

  ghost predicate EndedWith(s: State, d: nat, p: Payload) {
    d in s.deliveries && s.deliveries[d].view != [] && LastPayload(s.deliveries[d].view) == p
  }

  lemma EndsOrIsStale(s: State, step: Step, d: nat, p: Payload)
    requires Reachable(s) && Ends(s, step, d, p)
    ensures d in Apply(s, step).deliveries
    ensures var taken := Taken(s.rows, Event(LastSeq(s.deliveries[d].view) + 1, p));
      && (taken ==> Stale(Apply(s, step), d))
      && (!taken && step.acked ==> EndedWith(Apply(s, step), d, p))
      && (!(!taken && step.acked) ==> Apply(s, step).deliveries[d].view == s.deliveries[d].view)
      && s.deliveries[d].view <= Apply(s, step).deliveries[d].view
  {
    if Taken(s.rows, Event(LastSeq(s.deliveries[d].view) + 1, p)) { TakenIsStale(s, d, step, p); }
  }

  // The delivery holds exactly what earlier attempts left open in the turn.
  ghost predicate TakesOver(dv: Delivery, lastUser: int) {
    && dv.pc.Recovering? && dv.fenced && lastUser == LastIndex(dv.view, User)
    && dv.jobs == OpenCalls(dv.view)
  }

  ghost predicate TookOver(s: State, d: nat, lastUser: int) {
    d in s.deliveries && TakesOver(s.deliveries[d], lastUser) && s.token == Some(d)
  }

  // The attempt's own row: its token, and the transcript it resumes from.
  ghost predicate Attempted(dv: Delivery, dv': Delivery, d: nat, tip: Option<string>) {
    dv'.view == dv.view + [Event(LastSeq(dv.view) + 1, HarnessAttemptStarted(d, tip))]
  }

  lemma FencedHolds(dv: Delivery, p: Payload)
    ensures var dv' := Fenced(dv, p);
      dv'.pc.Recovering? && dv'.fenced && dv'.view == Pushed(dv, p).view && dv'.jobs == OpenCalls(dv'.view)
  {
  }

  lemma FencedTakesOver(dv: Delivery, p: Payload)
    requires p.HarnessAttemptStarted?
    ensures TakesOver(Fenced(dv, p), LastIndex(dv.view, User))
  {
    FencedHolds(dv, p);
    AttemptIsNoMessage(dv.view, Event(LastSeq(dv.view) + 1, p));
  }

  lemma AttemptIsNoMessage(log: Log, e: Event)
    requires e.payload.HarnessAttemptStarted?
    ensures LastIndex(log + [e], User) == LastIndex(log, User)
  {
    IndexPush(log, e, User);
  }

  lemma FenceWins(s: State, d: nat, tip: Option<string>)
    requires Enabled(s, Fence(d, tip, true))
    requires !Taken(s.rows, Event(LastSeq(s.deliveries[d].view) + 1, HarnessAttemptStarted(d, tip)))
    ensures var s' := Apply(s, Fence(d, tip, true));
      && d in s'.deliveries && s'.deliveries[d] == Fenced(s.deliveries[d], HarnessAttemptStarted(d, tip))
      && s'.token == Some(d)
  {
  }

  // Where the recovery's append leaves its delivery, unless the seq was taken.
  function AfterRecord(dv: Delivery, key: IdemKey, acked: bool): Delivery
    requires key in dv.jobs && dv.jobs[key].pc.Done?
  {
    if acked then Pushed(dv, ToolResult(key, dv.jobs[key].pc.res)).(jobs := dv.jobs - {key}) else Errs(dv)
  }

  lemma RecordsOrIsStale(s: State, d: nat, key: IdemKey, acked: bool)
    requires Reachable(s) && Enabled(s, AppendResult(d, key, acked)) && s.deliveries[d].pc.Recovering?
    ensures var s', p := Apply(s, AppendResult(d, key, acked)), ToolResult(key, s.deliveries[d].jobs[key].pc.res);
      && d in s'.deliveries
      && if Taken(s.rows, Event(LastSeq(s.deliveries[d].view) + 1, p)) then Stale(s', d)
         else s'.deliveries[d] == AfterRecord(s.deliveries[d], key, acked)
  {
    var p := ToolResult(key, s.deliveries[d].jobs[key].pc.res);
    if Taken(s.rows, Event(LastSeq(s.deliveries[d].view) + 1, p)) {
      TakenIsStale(s, d, AppendResult(d, key, acked), p);
    }
  }

  // The handler's promise: its call was journaled after view, and its result recorded after that.
  ghost predicate Bridged(view: Log, view': Log, call: ToolCall, res: ExecResult) {
    exists key: IdemKey, j ::
      |view| < key.seqNo && CallAt(view', key, call) && RecordedAt(view', j, key, res) && key.seqNo <= j
  }

  predicate RecordedAt(view: Log, j: int, key: IdemKey, res: ExecResult) {
    0 <= j < |view| && view[j].payload == ToolResult(key, res)
  }

  // The results of the first |done| calls, in order, right after view.
  ghost predicate RecoveredIn(view: Log, view': Log, calls: seq<Unanswered>, done: seq<Recovered>) {
    && |done| <= |calls| && |view'| == |view| + |done| && view <= view'
    && forall i :: 0 <= i < |done| ==>
         done[i].call == calls[i].call && RecordedAt(view', |view| + i, KeyOf(calls[i]), done[i].result)
  }

  lemma RecoveredOneMore(view: Log, view': Log, e: Event, calls: seq<Unanswered>, done: seq<Recovered>, res: ExecResult)
    requires RecoveredIn(view, view', calls, done) && |done| < |calls|
    requires e.payload == ToolResult(KeyOf(calls[|done|]), res)
    ensures RecoveredIn(view, view' + [e], calls, done + [Recovered(calls[|done|].call, res)])
  {
    forall i | 0 <= i < |done| ensures RecordedAt(view' + [e], |view| + i, KeyOf(calls[i]), done[i].result) {
      assert RecordedAt(view', |view| + i, KeyOf(calls[i]), done[i].result);
    }
  }

  // The first |done| calls are recorded, the rest are left.
  ghost predicate Progress(view: Log, dv: Delivery, calls: seq<Unanswered>, done: seq<Recovered>) {
    ListsFrom(calls, |done|, dv.jobs) && RecoveredIn(view, dv.view, calls, done)
  }

  lemma ProgressOne(
    view: Log, dv: Delivery, dv': Delivery, calls: seq<Unanswered>, done: seq<Recovered>, res: ExecResult)
    requires Progress(view, dv, calls, done) && |done| < |calls|
    requires dv'.view == dv.view + [Event(LastSeq(dv.view) + 1, ToolResult(KeyOf(calls[|done|]), res))]
    requires dv'.jobs == dv.jobs - {KeyOf(calls[|done|])}
    ensures Progress(view, dv', calls, done + [Recovered(calls[|done|].call, res)])
  {
    ListsFromNext(calls, |done|, dv.jobs);
    var e := Event(LastSeq(dv.view) + 1, ToolResult(KeyOf(calls[|done|]), res));
    RecoveredOneMore(view, dv.view, e, calls, done, res);
  }

  class Runtime {
    var s: State
    // What the driver's first error was; read only once it was latched.
    var cause: Error
    // Some store operation failed other than by conflict.
    var storeBroke: bool
    // The errors the store, the driver and the sandbox have thrown so far.
    var thrown: set<Error>
    var reboots: nat

    ghost predicate Standing(d: nat, pc: Pc) reads this { Reachable(s) && At(s, d, pc) }

    constructor ()
      ensures Reachable(s) && s == Init && !storeBroke && thrown == {} && reboots == 0
    {
      s, cause, storeBroke, thrown, reboots := Init, OtherError, false, {}, 0;
      new;
      ReachableInit();
    }

    method Perform(step: Step)
      requires Reachable(s) && Enabled(s, step)
      modifies `s
      ensures s == Apply(old(s), step) && Reachable(s) && old(LogIn(s)) <= LogIn(s)
      ensures forall d :: old(Stale(s, d)) ==> Stale(s, d)
    {
      StepGrowsLog(s, step);
      s := Apply(s, step);
    }

    method OthersStep(d: nat, step: Step)
      requires Reachable(s) && CauseFits(s, cause, d) && Enabled(s, step) && !IsBy(step, d)
      modifies `s
      ensures Reachable(s) && CauseFits(s, cause, d) && s.deliveries[d] == old(s.deliveries[d])
      ensures old(LogIn(s)) <= LogIn(s) && (old(Stale(s, d)) ==> Stale(s, d))
    {
      OthersLeaveAlone(s, step, d);
      Perform(step);
    }

    // Others run any schedule of steps.
    method Await(d: nat)
      requires Reachable(s) && CauseFits(s, cause, d)
      modifies `s
      ensures Reachable(s) && CauseFits(s, cause, d) && s.deliveries[d] == old(s.deliveries[d])
      ensures old(LogIn(s)) <= LogIn(s) && (old(Stale(s, d)) ==> Stale(s, d))
    {
      var schedule: seq<Step> := *;
      for i := 0 to |schedule|
        invariant Reachable(s) && CauseFits(s, cause, d) && s.deliveries[d] == old(s.deliveries[d])
        invariant old(LogIn(s)) <= LogIn(s) && (old(Stale(s, d)) ==> Stale(s, d))
      {
        if Enabled(s, schedule[i]) && !IsBy(schedule[i], d) { OthersStep(d, schedule[i]); }
      }
    }

    // The first error of the driver and its handlers is kept; an append that lost is a conflict, a
    // transcript write refused by the fence means the token was replaced.
    method Latch(lost: bool, outrun: bool)
      modifies `cause
      ensures cause.LogConflict? ==> lost
      ensures cause.HarnessFenced? ==> outrun
    {
      var permanent: bool, sandbox: bool, fenced: bool, other: bool := *, *, *, *;
      cause :=
        if lost then LogConflict
        else if outrun && fenced then HarnessFenced
        else if permanent then HarnessPermanent
        else if sandbox then SandboxUnavailable
        else if other then OtherError
        else HarnessTransient;
    }

    method DriverStep(d: nat, step: Step, key: IdemKey)
      requires InTurn(s, cause, d) && s.deliveries[d].pc.Driving? && Enabled(s, step) && InDriver(step, d, key)
      modifies `s, `cause
      ensures InTurn(s, cause, d) && s == Apply(old(s), step) && old(LogIn(s)) <= LogIn(s)
      ensures Waited(old(s.deliveries[d]), s.deliveries[d], key)
    {
      var latched := s.deliveries[d].pc.fatal;
      var lost := IsInsert(step) && s.deliveries[d].view != LogIn(s);
      var outrun := s.token != Some(d);
      LatchesOnlyIfStale(s, step, d, key);
      DriverMoves(s, step, d, key);
      Perform(step);
      if !latched { Latch(lost, outrun); }
    }

    // The handler of `key` waits.
    method Interfere(d: nat, key: IdemKey)
      requires InTurn(s, cause, d)
      modifies `s, `cause
      ensures InTurn(s, cause, d) && Waited(old(s.deliveries[d]), s.deliveries[d], key)
      ensures old(LogIn(s)) <= LogIn(s)
    {
      var schedule: seq<Step> := *;
      for i := 0 to |schedule|
        invariant InTurn(s, cause, d) && Waited(old(s.deliveries[d]), s.deliveries[d], key)
        invariant old(LogIn(s)) <= LogIn(s)
      {
        if Enabled(s, schedule[i]) && !IsBy(schedule[i], d) {
          OthersStep(d, schedule[i]);
        } else if Enabled(s, schedule[i]) && s.deliveries[d].pc.Driving? && InDriver(schedule[i], d, key) {
          DriverStep(d, schedule[i], key);
        }
      }
    }

    // ---------------------------------------------------------------------- exec

    ghost predicate Runs(d: nat, key: IdemKey) reads this {
      InTurn(s, cause, d) && key in s.deliveries[d].jobs
    }

    method JobStep(d: nat, key: IdemKey, step: Step)
      requires Runs(d, key) && Enabled(s, step) && IsJobStep(step) && step.d == d && step.key == key
      modifies `s
      ensures Runs(d, key) && s == Apply(old(s), step) && old(LogIn(s)) <= LogIn(s)
      ensures Onward(old(s.deliveries[d]), s.deliveries[d], key)
      ensures s.deliveries[d].jobs[key].call == old(s.deliveries[d].jobs[key].call)
    {
      JobMovesOn(s, step);
      Perform(step);
    }

    method MakesDir(d: nat, key: IdemKey)
      requires Runs(d, key) && s.deliveries[d].jobs[key].pc.Start?
      modifies `s, `cause
      ensures Runs(d, key) && Onward(old(s.deliveries[d]), s.deliveries[d], key) && old(LogIn(s)) <= LogIn(s)
      ensures s.deliveries[d].jobs[key].call == old(s.deliveries[d].jobs[key].call)
      ensures s.deliveries[d].jobs[key].pc.Holding? || s.deliveries[d].jobs[key].pc.Reading?
    {
      Interfere(d, key);
      JobStep(d, key, MkdirKey(d, key));
    }

    method Spawns(d: nat, key: IdemKey)
      requires Runs(d, key) && s.deliveries[d].jobs[key].pc.Holding?
      modifies `s, `cause
      ensures Runs(d, key) && Onward(old(s.deliveries[d]), s.deliveries[d], key) && old(LogIn(s)) <= LogIn(s)
      ensures s.deliveries[d].jobs[key].call == old(s.deliveries[d].jobs[key].call)
      ensures s.deliveries[d].jobs[key].pc.Reading?
    {
      Interfere(d, key);
      JobStep(d, key, SpawnCommand(d, key));
    }

    method TailKey(d: nat, key: IdemKey) returns (r: ExecOutcome)
      requires Runs(d, key) && s.deliveries[d].jobs[key].pc.Reading?
      modifies `s, `cause, `thrown
      ensures Runs(d, key) && Onward(old(s.deliveries[d]), s.deliveries[d], key) && old(LogIn(s)) <= LogIn(s)
      ensures s.deliveries[d].jobs[key].call == old(s.deliveries[d].jobs[key].call)
      ensures r.Saw? ==> s.deliveries[d].jobs[key].pc == Done(r.res)
      ensures !r.Saw? ==> FailedExec(r) && s.deliveries[d].jobs[key].pc.Reading?
      ensures old(thrown) <= thrown
    {
      var polls: nat := *;
      while polls > 0
        invariant Runs(d, key) && Waited(old(s.deliveries[d]), s.deliveries[d], key) && old(LogIn(s)) <= LogIn(s)
        invariant thrown == old(thrown)
      {
        Interfere(d, key);
        if Finished(s.box, key) {
          var res := Report(s.box.dirs[key].files);
          JobStep(d, key, SeeExit(d, key));
          return Saw(res);
        }
        polls := polls - 1;
      }
      r := SandboxFails();
    }

    // What a failed exec threw.
    predicate FailedExec(r: ExecOutcome) reads this {
      || (r.Unobservable? && SandboxUnavailable in thrown)
      || (r.OtherFailure? && OtherError in thrown)
    }

    // The sandbox is out of reach, or its port fails in some other way.
    method SandboxFails() returns (r: ExecOutcome)
      modifies `thrown
      ensures FailedExec(r) && old(thrown) <= thrown
    {
      var unavailable: bool := *;
      thrown := thrown + {if unavailable then SandboxUnavailable else OtherError};
      r := if unavailable then Unobservable else OtherFailure;
    }

    // One exec under the key: whoever makes the directory spawns, everyone tails.
    method RunKey(d: nat, key: IdemKey) returns (r: ExecOutcome)
      requires Runs(d, key) && s.deliveries[d].jobs[key].pc.Start?
      modifies `s, `cause, `thrown
      ensures Runs(d, key) && Onward(old(s.deliveries[d]), s.deliveries[d], key) && old(LogIn(s)) <= LogIn(s)
      ensures s.deliveries[d].jobs[key].call == old(s.deliveries[d].jobs[key].call)
      ensures r.Saw? ==> s.deliveries[d].jobs[key].pc == Done(r.res)
      ensures !r.Saw? ==> FailedExec(r) && s.deliveries[d].jobs[key].pc.Reading?
      ensures old(thrown) <= thrown
    {
      MakesDir(d, key);
      if s.deliveries[d].jobs[key].pc.Holding? { Spawns(d, key); }
      r := TailKey(d, key);
    }

    // exec with one reboot of an unobservable sandbox; the rebooted handle is saved in between.
    method Exec(d: nat, key: IdemKey, hasHandle: bool) returns (r: ExecOutcome)
      requires Runs(d, key) && s.deliveries[d].jobs[key].pc.Start?
      modifies this
      ensures Runs(d, key) && Onward(old(s.deliveries[d]), s.deliveries[d], key) && old(LogIn(s)) <= LogIn(s)
      ensures s.deliveries[d].jobs[key].call == old(s.deliveries[d].jobs[key].call)
      ensures r.Saw? ==> s.deliveries[d].jobs[key].pc == Done(r.res)
      ensures if r.HandleNotSaved? then storeBroke && OtherError in thrown else storeBroke == old(storeBroke)
      ensures !r.Saw? && !r.HandleNotSaved? ==> FailedExec(r)
      // Rebooted at most once, only when out of reach, and then the key was tried again.
      ensures reboots <= old(reboots) + 1 && (reboots > old(reboots) ==> SandboxUnavailable in thrown)
      ensures r.HandleNotSaved? ==> reboots > old(reboots)
      ensures !hasHandle ==> r.Unobservable? && s == old(s)
      ensures hasHandle && r.HandleNotSaved? ==> s.deliveries[d].jobs[key].pc.Start?
      ensures hasHandle && !r.Saw? && !r.HandleNotSaved? ==> s.deliveries[d].jobs[key].pc.Reading?
    {
      if !hasHandle {
        thrown := thrown + {SandboxUnavailable};
        return Unobservable;
      }
      r := RunKey(d, key);
      if !r.Unobservable? { return; }
      var rebooted: bool := *;
      if !rebooted {
        r := SandboxFails();
        return;
      }
      reboots := reboots + 1;
      JobStep(d, key, Reboot(d, key));
      var saved: bool := *;
      if !saved {
        storeBroke, thrown := true, thrown + {OtherError};
        return HandleNotSaved;
      }
      r := RunKey(d, key);
    }

    // ------------------------------------------------------------------- driver

    ghost predicate InDrive(d: nat) reads this { InTurn(s, cause, d) && s.deliveries[d].pc.Driving? }

    // The exec handler journals its call first: the seq it lands at is the key.
    method JournalCall(d: nat, call: ToolCall) returns (key: IdemKey, won: bool)
      requires InDrive(d)
      modifies this
      ensures InDrive(d) && old(s.deliveries[d]).view <= s.deliveries[d].view
      ensures old(LogIn(s)) <= LogIn(s) && (old(storeBroke) ==> storeBroke)
      ensures won ==> |old(s.deliveries[d]).view| < key.seqNo && CallAt(s.deliveries[d].view, key, call)
      ensures won ==> key in s.deliveries[d].jobs && s.deliveries[d].jobs[key] == Job(call, Start)
      ensures !won ==> s.deliveries[d].pc == Driving(true) && (Stale(s, d) || storeBroke)
    {
      Interfere(d, IdemKey(0, 0));
      ViewIsNumbered(s, d);
      key := IdemKey(LastSeq(s.deliveries[d].view) + 1, 0);
      var answered: bool := *;
      if answered { won := CallNow(d, call); } else {
        CallBreaks(d, call);
        won := false;
      }
    }

    // The insert of a call is answered: it wins, or the seq is taken.
    method CallNow(d: nat, call: ToolCall) returns (won: bool)
      requires InDrive(d) && LastSeq(s.deliveries[d].view) == |s.deliveries[d].view|
      modifies `s, `cause
      ensures InDrive(d) && old(s.deliveries[d]).view <= s.deliveries[d].view && old(LogIn(s)) <= LogIn(s)
      ensures var key := IdemKey(old(LastSeq(s.deliveries[d].view)) + 1, 0);
        won ==>
          && CallAt(s.deliveries[d].view, key, call)
          && key in s.deliveries[d].jobs && s.deliveries[d].jobs[key] == Job(call, Start)
      ensures !won ==> s.deliveries[d].pc == Driving(true) && Stale(s, d)
    {
      var p := AssistantMessage([], [call]);
      won := !Taken(s.rows, Event(LastSeq(s.deliveries[d].view) + 1, p));
      if !won { TakenIsStale(s, d, DriverCall(d, call, true), p); }
      DriverStep(d, DriverCall(d, call, true), IdemKey(0, 0));
    }

    // It is not; the row may be there all the same.
    method CallBreaks(d: nat, call: ToolCall)
      requires InDrive(d)
      modifies `s, `cause, `storeBroke
      ensures InDrive(d) && old(s.deliveries[d]).view <= s.deliveries[d].view && old(LogIn(s)) <= LogIn(s)
      ensures s.deliveries[d].pc == Driving(true) && storeBroke
    {
      storeBroke := true;
      var committed: bool := *;
      if committed && !Taken(s.rows, Event(LastSeq(s.deliveries[d].view) + 1, AssistantMessage([], [call]))) {
        DriverStep(d, DriverCall(d, call, false), IdemKey(0, 0));
      } else {
        DriverStep(d, DriverFails(d), IdemKey(0, 0));
      }
    }

    // ... and records the result last.
    method RecordResult(d: nat, key: IdemKey) returns (won: bool)
      requires InDrive(d) && key in s.deliveries[d].jobs && s.deliveries[d].jobs[key].pc.Done?
      modifies this
      ensures InDrive(d) && old(s.deliveries[d]).view <= s.deliveries[d].view
      ensures old(LogIn(s)) <= LogIn(s) && (old(storeBroke) ==> storeBroke)
      ensures won ==> |old(s.deliveries[d]).view| < |s.deliveries[d].view|
      ensures won ==>
        RecordedAt(s.deliveries[d].view, |s.deliveries[d].view| - 1, key, old(s.deliveries[d].jobs[key].pc.res))
      ensures !won ==> s.deliveries[d].pc == Driving(true) && (Stale(s, d) || storeBroke)
    {
      Interfere(d, key);
      var answered: bool := *;
      if answered { won := ResultNow(d, key); } else {
        ResultBreaks(d, key);
        won := false;
      }
    }

    method ResultNow(d: nat, key: IdemKey) returns (won: bool)
      requires InDrive(d) && key in s.deliveries[d].jobs && s.deliveries[d].jobs[key].pc.Done?
      modifies `s, `cause
      ensures InDrive(d) && old(s.deliveries[d]).view <= s.deliveries[d].view && old(LogIn(s)) <= LogIn(s)
      ensures won ==> |old(s.deliveries[d]).view| < |s.deliveries[d].view|
      ensures won ==>
        RecordedAt(s.deliveries[d].view, |s.deliveries[d].view| - 1, key, old(s.deliveries[d].jobs[key].pc.res))
      ensures !won ==> s.deliveries[d].pc == Driving(true) && Stale(s, d)
    {
      var p := ToolResult(key, s.deliveries[d].jobs[key].pc.res);
      won := !Taken(s.rows, Event(LastSeq(s.deliveries[d].view) + 1, p));
      if !won { TakenIsStale(s, d, AppendResult(d, key, true), p); }
      DriverStep(d, AppendResult(d, key, true), IdemKey(key.seqNo + 1, 0));
    }

    method ResultBreaks(d: nat, key: IdemKey)
      requires InDrive(d) && key in s.deliveries[d].jobs && s.deliveries[d].jobs[key].pc.Done?
      modifies `s, `cause, `storeBroke
      ensures InDrive(d) && old(s.deliveries[d]).view <= s.deliveries[d].view && old(LogIn(s)) <= LogIn(s)
      ensures s.deliveries[d].pc == Driving(true) && storeBroke
    {
      storeBroke := true;
      var committed: bool := *;
      var p := ToolResult(key, s.deliveries[d].jobs[key].pc.res);
      if committed && !Taken(s.rows, Event(LastSeq(s.deliveries[d].view) + 1, p)) {
        DriverStep(d, AppendResult(d, key, false), IdemKey(key.seqNo + 1, 0));
      } else {
        DriverStep(d, DriverFails(d), IdemKey(key.seqNo + 1, 0));
      }
    }

    // The exec handler of the driver: journal, key, exec, record.  It gives up only with the latch set.
    method HandleExec(d: nat, call: ToolCall, hasHandle: bool) returns (r: Option<ExecResult>)
      requires InDrive(d)
      modifies this
      ensures InDrive(d) && old(s.deliveries[d]).view <= s.deliveries[d].view
      ensures old(LogIn(s)) <= LogIn(s) && (old(storeBroke) ==> storeBroke)
      ensures r.Some? ==> Bridged(old(s.deliveries[d]).view, s.deliveries[d].view, call, r.value)
      ensures r.None? ==> s.deliveries[d].pc == Driving(true)
      ensures r.None? ==> Stale(s, d) || storeBroke || SandboxUnavailable in thrown || OtherError in thrown
    {
      var key, journaled := JournalCall(d, call);
      if !journaled { return None; }
      ghost var view1 := s.deliveries[d].view;
      var x := Exec(d, key, hasHandle);
      if !x.Saw? {
        DriverStep(d, DriverFails(d), key);
        return None;
      }
      ghost var view2 := s.deliveries[d].view;
      var recorded := RecordResult(d, key);
      if !recorded { return None; }
      ghost var view3 := s.deliveries[d].view;
      CallPersists(view1, view3, key, call);
      assert RecordedAt(view3, |view3| - 1, key, x.res);
      r := Some(x.res);
    }

    // Assistant text is projected into the log; a failed append trips the latch.
    method ProjectText(d: nat, content: seq<string>)
      requires InDrive(d)
      modifies this
      ensures InDrive(d) && old(s.deliveries[d]).view <= s.deliveries[d].view
      ensures old(LogIn(s)) <= LogIn(s) && (old(storeBroke) ==> storeBroke)
    {
      var none := IdemKey(0, 0);
      Interfere(d, none);
      var free := !Taken(s.rows, Event(LastSeq(s.deliveries[d].view) + 1, AssistantMessage(content, [])));
      var answered: bool, committed: bool := *, *;
      if answered || (committed && free) { DriverStep(d, DriverText(d, content, answered), none); }
      else { DriverStep(d, DriverFails(d), none); }
      storeBroke := storeBroke || !answered;
    }

    // HarnessPort.runTurn: any stream of text and calls, then its result or its first error.
    method Drive(d: nat, hasHandle: bool) returns (stopped: Option<bool>)
      requires InDrive(d)
      modifies this
      ensures InDrive(d) && old(s.deliveries[d]).view <= s.deliveries[d].view
      ensures old(LogIn(s)) <= LogIn(s) && (old(storeBroke) ==> storeBroke)
      ensures s.deliveries[d].pc == Driving(stopped.None?) && (stopped.None? ==> cause in thrown)
    {
      var messages: nat := *;
      while messages > 0
        invariant InDrive(d) && old(s.deliveries[d]).view <= s.deliveries[d].view
        invariant old(LogIn(s)) <= LogIn(s) && (old(storeBroke) ==> storeBroke)
      {
        var isCall: bool, call: ToolCall, content: seq<string> := *, *, *;
        if isCall { var _ := HandleExec(d, call, hasHandle); } else { ProjectText(d, content); }
        messages := messages - 1;
      }
      Await(d);
      if s.deliveries[d].pc.fatal {
        thrown := thrown + {cause};
        return None;
      }
      var result: bool, success: bool := *, *;
      if result { return Some(success); }
      DriverStep(d, DriverFails(d), IdemKey(0, 0));
      thrown := thrown + {cause};
      stopped := None;
    }

    // ----------------------------------------------------------------- recovery

    // Every way a delivery can stand after an error was thrown.
    ghost predicate ThrewOk(d: nat, err: Error) reads this {
      && Reachable(s) && d in s.deliveries
      && if err.LogConflict? || err.HarnessFenced? then Stale(s, d)
         else s.deliveries[d].pc == Erred && err in thrown
    }

    method Raises(d: nat)
      requires Reachable(s) && d in s.deliveries && CanRaise(s.deliveries[d])
      modifies `s
      ensures Reachable(s) && At(s, d, Erred) && s.deliveries[d].view == old(s.deliveries[d].view)
      ensures old(LogIn(s)) <= LogIn(s) && (old(Stale(s, d)) ==> Stale(s, d))
    {
      Perform(Raise(d));
    }

    // The recovery's insert: it wins, or the seq is taken; unanswered, the row is committed all the same.
    method RecordNow(d: nat, key: IdemKey, answered: bool) returns (free: bool)
      requires InTurn(s, cause, d) && s.deliveries[d].pc.Recovering?
      requires key in s.deliveries[d].jobs && s.deliveries[d].jobs[key].pc.Done?
      modifies `s
      ensures Reachable(s) && old(LogIn(s)) <= LogIn(s) && d in s.deliveries
      ensures if free then s.deliveries[d] == AfterRecord(old(s.deliveries[d]), key, answered) else Stale(s, d)
    {
      RecordsOrIsStale(s, d, key, answered);
      var dv := s.deliveries[d];
      free := !Taken(s.rows, Event(LastSeq(dv.view) + 1, ToolResult(key, dv.jobs[key].pc.res)));
      Perform(AppendResult(d, key, answered));
    }

    method RecordRecovered(d: nat, key: IdemKey) returns (failed: Option<Error>)
      requires InTurn(s, cause, d) && s.deliveries[d].pc.Recovering?
      requires key in s.deliveries[d].jobs && s.deliveries[d].jobs[key].pc.Done?
      modifies this
      ensures old(LogIn(s)) <= LogIn(s) && (old(storeBroke) ==> storeBroke)
      ensures failed.None? ==> InTurn(s, cause, d) && s.deliveries[d] == AfterRecord(old(s.deliveries[d]), key, true)
      ensures failed.Some? ==> ThrewOk(d, failed.value)
    {
      Await(d);
      var answered: bool, committed: bool := *, *;
      if answered {
        var won := RecordNow(d, key, true);
        return if won then None else Some(LogConflict);
      }
      storeBroke, thrown := true, thrown + {OtherError};
      var dv := s.deliveries[d];
      if committed && !Taken(s.rows, Event(LastSeq(dv.view) + 1, ToolResult(key, dv.jobs[key].pc.res))) {
        CommitsUnanswered(d, key);
      } else {
        Raises(d);
      }
      failed := Some(OtherError);
    }

    method CommitsUnanswered(d: nat, key: IdemKey)
      requires InTurn(s, cause, d) && s.deliveries[d].pc.Recovering?
      requires key in s.deliveries[d].jobs && s.deliveries[d].jobs[key].pc.Done?
      requires var dv := s.deliveries[d];
        !Taken(s.rows, Event(LastSeq(dv.view) + 1, ToolResult(key, dv.jobs[key].pc.res)))
      modifies `s
      ensures Reachable(s) && old(LogIn(s)) <= LogIn(s) && At(s, d, Erred)
    {
      RecordsOrIsStale(s, d, key, false);
      Perform(AppendResult(d, key, false));
    }

    method RecoverOne(d: nat, key: IdemKey, hasHandle: bool) returns (res: ExecResult, failed: Option<Error>)
      requires InTurn(s, cause, d) && s.deliveries[d].pc.Recovering?
      requires key in s.deliveries[d].jobs && s.deliveries[d].jobs[key].pc.Start?
      modifies this
      ensures old(LogIn(s)) <= LogIn(s) && (old(storeBroke) ==> storeBroke)
      ensures failed.None? ==> InTurn(s, cause, d) && s.deliveries[d].pc.Recovering?
      ensures failed.None? ==>
        var dv, dv' := old(s.deliveries[d]), s.deliveries[d];
        && dv'.view == dv.view + [Event(LastSeq(dv.view) + 1, ToolResult(key, res))]
        && dv'.jobs == dv.jobs - {key}
      ensures failed.Some? ==> ThrewOk(d, failed.value)
    {
      ghost var jobs := s.deliveries[d].jobs;
      var x := Exec(d, key, hasHandle);
      if !x.Saw? {
        Raises(d);
        res := ExecResult([], 0, false);
        failed := Some(if x.Unobservable? then SandboxUnavailable else OtherError);
        return;
      }
      assert s.deliveries[d].jobs - {key} == jobs - {key};
      failed := RecordRecovered(d, key);
      res := x.res;
    }

    ghost predicate Midway(d: nat, view: Log, calls: seq<Unanswered>, done: seq<Recovered>) reads this {
      InTurn(s, cause, d) && s.deliveries[d].pc.Recovering? && Progress(view, s.deliveries[d], calls, done)
    }

    method RecoverNext(d: nat, ghost view: Log, calls: seq<Unanswered>, done: seq<Recovered>, hasHandle: bool)
        returns (recovered: seq<Recovered>, failed: Option<Error>)
      requires Midway(d, view, calls, done) && |done| < |calls|
      modifies this
      ensures old(LogIn(s)) <= LogIn(s) && (old(storeBroke) ==> storeBroke)
      ensures failed.None? ==> |recovered| == |done| + 1 && Midway(d, view, calls, recovered)
      ensures failed.Some? ==> ThrewOk(d, failed.value)
    {
      var call := calls[|done|];
      ghost var dv := s.deliveries[d];
      ListsFromNext(calls, |done|, dv.jobs);
      var res: ExecResult;
      res, failed := RecoverOne(d, KeyOf(call), hasHandle);
      recovered := done + [Recovered(call.call, res)];
      if failed.None? { ProgressOne(view, dv, s.deliveries[d], calls, done, res); }
    }

    // Resolve every unanswered call of the turn, in log order, each under its own key.
    method Recover(d: nat, calls: seq<Unanswered>, hasHandle: bool)
      returns (recovered: seq<Recovered>, failed: Option<Error>)
      requires InTurn(s, cause, d) && s.deliveries[d].pc.Recovering? && Lists(calls, s.deliveries[d].jobs)
      modifies this
      ensures old(LogIn(s)) <= LogIn(s) && (old(storeBroke) ==> storeBroke)
      ensures failed.None? ==> InTurn(s, cause, d) && s.deliveries[d].pc.Recovering? && s.deliveries[d].jobs == map[]
      ensures failed.None? ==>
        |recovered| == |calls| && RecoveredIn(old(s.deliveries[d]).view, s.deliveries[d].view, calls, recovered)
      ensures failed.None? ==> AllAnsweredOnce(s, d)
      ensures failed.Some? ==> ThrewOk(d, failed.value)
    {
      recovered, failed := [], None;
      assert calls[0..] == calls;
      ghost var view := s.deliveries[d].view;
      while |recovered| < |calls|
        invariant failed.None? && Midway(d, view, calls, recovered)
        invariant old(LogIn(s)) <= LogIn(s) && (old(storeBroke) ==> storeBroke)
      {
        recovered, failed := RecoverNext(d, view, calls, recovered, hasHandle);
        if failed.Some? { return; }
      }
      ListsNone(calls, s.deliveries[d].jobs);
      NothingOpen(s, d);
    }

    // ------------------------------------------------------------------ the turn

    // A finished turn was seen to end, or had nothing to answer; a conflict means that the log has
    // events this delivery has not seen.
    ghost predicate OutcomeOk(d: nat, o: TurnOutcome) reads this {
      && Reachable(s) && d in s.deliveries
      && match o
         case TurnDone =>
           var view := s.deliveries[d].view;
           EndsTerminal(view) || view == [] || LastIndex(view, User) < 0
         case TurnFailedRecorded => s.deliveries[d].view != [] && LastPayload(s.deliveries[d].view).TurnFailed?
         case Conflict => Stale(s, d)
         case RetryLater => !EndsTerminal(s.deliveries[d].view)
         case Escaped => true
    }

    // An append that ends the turn and is answered: recorded, or lost and stale.
    method End(d: nat, step: Step, p: Payload) returns (won: bool)
      requires Reachable(s) && Ends(s, step, d, p)
      modifies `s
      ensures Reachable(s) && old(LogIn(s)) <= LogIn(s) && d in s.deliveries
      ensures !won ==> Stale(s, d)
      ensures won && step.acked ==> EndedWith(s, d, p)
      ensures !(won && step.acked) ==> s.deliveries[d].view == old(s.deliveries[d].view)
      ensures old(s.deliveries[d].view) <= s.deliveries[d].view
    {
      EndsOrIsStale(s, step, d, p);
      won := !Taken(s.rows, Event(LastSeq(s.deliveries[d].view) + 1, p));
      Perform(step);
    }

    // terminalFail: record a turn_failed; a lost race is a conflict, any other failure is retried.
    method TerminalFail(d: nat, cls: ErrorClass) returns (o: TurnOutcome)
      requires Standing(d, Erred) && ErrorPathClass(cls) && !EndsTerminal(s.deliveries[d].view)
      modifies `s, `storeBroke
      ensures OutcomeOk(d, o) && !o.TurnDone? && !o.Escaped? && old(LogIn(s)) <= LogIn(s)
      ensures o.TurnFailedRecorded? ==> EndedWith(s, d, TurnFailed(cls))
      ensures (o.RetryLater? ==> storeBroke) && (old(storeBroke) ==> storeBroke)
    {
      Await(d);
      var answered: bool, committed: bool := *, *;
      if answered {
        var won := End(d, AppendFailure(d, cls, true), TurnFailed(cls));
        return if won then TurnFailedRecorded else Conflict;
      }
      storeBroke := true;
      if committed { var _ := End(d, AppendFailure(d, cls, false), TurnFailed(cls)); }
      o := RetryLater;
    }

    // The same, before the fence, on a worker that has no driver.
    method FailWithoutDriver(d: nat) returns (o: TurnOutcome)
      requires Standing(d, Loaded) && CanStart(s.deliveries[d].view)
      modifies this
      ensures OutcomeOk(d, o) && !o.TurnDone? && !o.Escaped? && old(LogIn(s)) <= LogIn(s)
      ensures o.TurnFailedRecorded? ==> EndedWith(s, d, TurnFailed(ErrorClass.Harness))
      ensures (o.RetryLater? ==> storeBroke) && (old(storeBroke) ==> storeBroke)
    {
      Await(d);
      var p := TurnFailed(ErrorClass.Harness);
      var answered: bool, committed: bool := *, *;
      if answered {
        var won := End(d, NoDriver(d, true), p);
        return if won then TurnFailedRecorded else Conflict;
      }
      storeBroke := true;
      if committed { var _ := End(d, NoDriver(d, false), p); }
      o := RetryLater;
    }

    // The strategy's error map, then the shared one.
    method MapError(d: nat, err: Error, lastAttempt: bool) returns (o: TurnOutcome)
      requires ThrewOk(d, err)
      modifies `s, `storeBroke
      ensures OutcomeOk(d, o) && !o.TurnDone? && !o.Escaped? && old(LogIn(s)) <= LogIn(s)
      ensures o.RetryLater? && (lastAttempt || err.HarnessPermanent?) ==> storeBroke
      ensures old(storeBroke) ==> storeBroke
      ensures err.LogConflict? || err.HarnessFenced? ==> o.Conflict? && s == old(s)
      ensures !lastAttempt && !err.HarnessPermanent? && !err.LogConflict? && !err.HarnessFenced? ==>
        o.RetryLater? && s == old(s)
      ensures o.TurnFailedRecorded? ==>
        && (lastAttempt || err.HarnessPermanent?)
        && EndedWith(s, d, TurnFailed(
             if err.HarnessPermanent? then ErrorClass.Harness
             else if err.SandboxUnavailable? then SandboxFatal else Internal))
    {
      if !err.LogConflict? && !err.HarnessFenced? { ErredIsOpen(s, d); }
      match err
      case LogConflict => o := Conflict;
      case HarnessFenced => o := Conflict;
      case HarnessPermanent => o := TerminalFail(d, ErrorClass.Harness);
      case SandboxUnavailable =>
        o := RetryLater;
        if lastAttempt { o := TerminalFail(d, SandboxFatal); }
      case HarnessTransient =>
        o := RetryLater;
        if lastAttempt { o := TerminalFail(d, Internal); }
      case OtherError =>
        o := RetryLater;
        if lastAttempt { o := TerminalFail(d, Internal); }
    }

    method FenceNow(d: nat, tip: Option<string>) returns (won: bool)
      requires Standing(d, Loaded) && CanStart(s.deliveries[d].view)
      modifies `s
      ensures Reachable(s) && old(LogIn(s)) <= LogIn(s)
      ensures if won then TookOver(s, d, old(LastIndex(s.deliveries[d].view, User))) else Stale(s, d)
      ensures won ==> Attempted(old(s.deliveries[d]), s.deliveries[d], d, tip)
    {
      var p := HarnessAttemptStarted(d, tip);
      won := !Taken(s.rows, Event(LastSeq(s.deliveries[d].view) + 1, p));
      if won {
        FencedTakesOver(s.deliveries[d], p);
        FenceWins(s, d, tip);
      } else {
        TakenIsStale(s, d, Fence(d, tip, true), p);
      }
      Perform(Fence(d, tip, true));
    }

    // The fence: attempt event and token in one transaction.  A conflict stands down, anything else
    // is retried.
    method AcquireFence(d: nat, tip: Option<string>) returns (o: Option<TurnOutcome>)
      requires Standing(d, Loaded) && CanStart(s.deliveries[d].view)
      modifies this
      ensures Reachable(s) && old(LogIn(s)) <= LogIn(s) && (old(storeBroke) ==> storeBroke)
      ensures o.None? ==> TookOver(s, d, old(LastIndex(s.deliveries[d].view, User)))
      ensures o.None? ==> Attempted(old(s.deliveries[d]), s.deliveries[d], d, tip)
      ensures o.Some? ==> (o.value.Conflict? || o.value.RetryLater?) && OutcomeOk(d, o.value)
      ensures o == Some(RetryLater) ==> storeBroke
    {
      Await(d);
      var answered: bool := *;
      if answered {
        var won := FenceNow(d, tip);
        return if won then None else Some(Conflict);
      }
      storeBroke := true;
      Perform(Leave(d));
      o := Some(RetryLater);
    }

    // Done: completed.  Failed without an error: out of budget.
    ghost predicate CommittedWith(d: nat, o: TurnOutcome) reads this {
      && (o.TurnDone? || o.TurnFailedRecorded?)
      && EndedWith(s, d, if o.TurnDone? then TurnCompleted else TurnFailed(Budget))
    }

    // The commit: the terminal event and the vendor session id, one transaction.
    method CommitTurn(d: nat, success: bool) returns (r: Returned)
      requires InDrive(d) && !s.deliveries[d].pc.fatal
      modifies this
      ensures old(LogIn(s)) <= LogIn(s) && (old(storeBroke) ==> storeBroke)
      ensures r.Outcome? ==> OutcomeOk(d, r.o) && r.o == (if success then TurnDone else TurnFailedRecorded)
      ensures r.Outcome? ==> CommittedWith(d, r.o) && old(s.deliveries[d].view) <= s.deliveries[d].view
      ensures r.Threw? ==> ThrewOk(d, r.err)
    {
      Await(d);
      var answered: bool := *;
      if answered {
        var won := End(d, Commit(d, success, true), if success then TurnCompleted else TurnFailed(Budget));
        return if won then Outcome(if success then TurnDone else TurnFailedRecorded) else Threw(LogConflict);
      }
      storeBroke, thrown := true, thrown + {OtherError};
      RollsBack(d);
      r := Threw(OtherError);
    }

    // The commit's transaction failed: the driver is done, its error is thrown.
    method RollsBack(d: nat)
      requires InDrive(d)
      modifies `s, `cause
      ensures Reachable(s) && old(LogIn(s)) <= LogIn(s) && At(s, d, Erred)
    {
      DriverStep(d, DriverFails(d), IdemKey(0, 0));
      Raises(d);
    }

    method LeftOpen(d: nat, lastUser: nat) returns (calls: seq<Unanswered>)
      requires Reachable(s) && TookOver(s, d, lastUser)
      ensures Lists(calls, s.deliveries[d].jobs)
    {
      ViewIsNumbered(s, d);
      calls := UnansweredCalls(s.deliveries[d].view, lastUser);
    }

    method DriveAndCommit(d: nat, hasHandle: bool) returns (r: Returned)
      requires InTurn(s, cause, d) && s.deliveries[d].pc.Recovering? && s.deliveries[d].jobs == map[]
      modifies this
      ensures old(LogIn(s)) <= LogIn(s) && (old(storeBroke) ==> storeBroke)
      ensures r.Outcome? ==> OutcomeOk(d, r.o) && CommittedWith(d, r.o)
      ensures r.Outcome? ==> old(s.deliveries[d].view) <= s.deliveries[d].view
      ensures r.Threw? ==> ThrewOk(d, r.err)
    {
      Perform(StartDriver(d));
      var stopped := Drive(d, hasHandle);
      if stopped.None? {
        Raises(d);
        return Threw(cause);
      }
      r := CommitTurn(d, stopped.value);
    }

    // What follows a won fence: recovery, then the driver, then the commit.
    method RunAttempt(d: nat, lastUser: nat, hasHandle: bool) returns (r: Returned)
      requires Reachable(s) && TookOver(s, d, lastUser)
      modifies this
      ensures old(LogIn(s)) <= LogIn(s) && (old(storeBroke) ==> storeBroke)
      ensures r.Outcome? ==> OutcomeOk(d, r.o) && CommittedWith(d, r.o)
      ensures r.Outcome? ==> old(s.deliveries[d].view) <= s.deliveries[d].view
      ensures r.Threw? ==> ThrewOk(d, r.err)
    {
      var calls := LeftOpen(d, lastUser);
      var _, failed := Recover(d, calls, hasHandle);
      if failed.Some? { return Threw(failed.value); }
      r := DriveAndCommit(d, hasHandle);
    }

    method TipUnreadable(d: nat)
      requires Standing(d, Loaded) && CanStart(s.deliveries[d].view)
      modifies this
      ensures Reachable(s) && old(LogIn(s)) <= LogIn(s) && At(s, d, Erred) && storeBroke && OtherError in thrown
    {
      Await(d);
      storeBroke, thrown := true, thrown + {OtherError};
      Raises(d);
    }

    // Behind the log that was read stands this attempt's row, with the tip that was read.
    ghost predicate ResumedFrom(d: nat, read: Log, tip: Tip) reads this {
      && tip.Read? && d in s.deliveries && |s.deliveries[d].view| > |read|
      && s.deliveries[d].view[|read|].payload == HarnessAttemptStarted(d, tip.tip)
    }

    // Read the transcript tip, win the fence, run the attempt.
    method StartAttempt(d: nat, lastUser: nat, hasHandle: bool, tip: Tip) returns (r: Returned)
      requires Standing(d, Loaded) && CanStart(s.deliveries[d].view)
      requires lastUser == LastIndex(s.deliveries[d].view, User)
      modifies this
      ensures old(LogIn(s)) <= LogIn(s) && (old(storeBroke) ==> storeBroke)
      ensures r.Outcome? ==> OutcomeOk(d, r.o) && !r.o.Escaped? && (r.o.RetryLater? ==> storeBroke)
      ensures r.Outcome? && (r.o.TurnDone? || r.o.TurnFailedRecorded?) ==>
        CommittedWith(d, r.o) && ResumedFrom(d, old(s.deliveries[d].view), tip)
      ensures r.Threw? ==> ThrewOk(d, r.err)
    {
      if tip.Unreadable? {
        TipUnreadable(d);
        return Threw(OtherError);
      }
      var o := AcquireFence(d, tip.tip);
      if o.Some? { return Outcome(o.value); }
      r := RunAttempt(d, lastUser, hasHandle);
    }

    // Done: completed now, or there was nothing to do in the log that was read.
    ghost predicate DoneOk(d: nat, read: Log, tip: Tip) reads this {
      || (EndedWith(s, d, TurnCompleted) && ResumedFrom(d, read, tip))
      || (d in s.deliveries && s.deliveries[d].view == read && !CanStart(read))
    }

    // Which failure was recorded: a spent budget, a refusal of the driver or none to run at any time, anything
    // else only on the last attempt, a lost sandbox as what it is.
    ghost predicate RecordedOk(d: nat, hasDriver: bool, lastAttempt: bool) reads this {
      || EndedWith(s, d, TurnFailed(Budget))
      || (EndedWith(s, d, TurnFailed(ErrorClass.Harness)) && (!hasDriver || HarnessPermanent in thrown))
      || (lastAttempt && EndedWith(s, d, TurnFailed(SandboxFatal)) && SandboxUnavailable in thrown)
      || (lastAttempt && EndedWith(s, d, TurnFailed(Internal)) && (HarnessTransient in thrown || OtherError in thrown))
    }

    // harnessStrategy.run.
    method Run(d: nat, hasDriver: bool, hasHandle: bool, tip: Tip) returns (r: Returned)
      requires Standing(d, Loaded)
      modifies this
      ensures old(LogIn(s)) <= LogIn(s) && (old(storeBroke) ==> storeBroke)
      ensures r.Outcome? ==> OutcomeOk(d, r.o) && !r.o.Escaped? && (r.o.RetryLater? ==> storeBroke)
      ensures r.Outcome? && r.o.TurnFailedRecorded? ==>
        EndedWith(s, d, TurnFailed(if hasDriver then Budget else ErrorClass.Harness))
      ensures r.Outcome? && r.o.TurnDone? ==> DoneOk(d, old(s.deliveries[d].view), tip)
      ensures r.Outcome? && r.o.TurnFailedRecorded? && hasDriver ==> ResumedFrom(d, old(s.deliveries[d].view), tip)
      ensures r.Threw? ==> ThrewOk(d, r.err)
    {
      var view := s.deliveries[d].view;
      if view == [] || EndsTerminal(view) { return Outcome(TurnDone); }
      var lastUser := LastIndex(view, User);
      if lastUser < 0 { return Outcome(TurnDone); }
      if !hasDriver {
        var o := FailWithoutDriver(d);
        return Outcome(o);
      }
      r := StartAttempt(d, lastUser, hasHandle, tip);
    }

    // runTurn past its gate, for a session pinned to a harness runtime.
    method RunTurn(d: nat, hasDriver: bool, hasHandle: bool, tip: Tip, attempts: nat, maxAttempts: nat)
        returns (o: TurnOutcome)
      requires Reachable(s) && d !in s.deliveries
      modifies this
      ensures old(LogIn(s)) <= LogIn(s)
      ensures if o.Escaped? then storeBroke && s == old(s) else OutcomeOk(d, o)
      ensures o.RetryLater? && attempts >= maxAttempts ==> storeBroke
      ensures o.TurnFailedRecorded? ==> RecordedOk(d, hasDriver, attempts >= maxAttempts)
      ensures o.TurnDone? ==> DoneOk(d, LogIn(old(s)), tip)
    {
      var lastAttempt := attempts >= maxAttempts;
      var logRead: bool := *;
      if !logRead {
        storeBroke := true;
        return Escaped;
      }
      Perform(Deliver(d));
      var r := Run(d, hasDriver, hasHandle, tip);
      match r
      case Outcome(out) => o := out;
      case Threw(err) => o := MapError(d, err, lastAttempt);
    }
  }
}

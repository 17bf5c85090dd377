// What every run of the harness runtime keeps, whatever the interleaving, crashes and redeliveries.
module HarnessRuns {
  import opened Prelude
  import opened Events
  import opened Reducer
  import opened Store
  import opened Sandbox
  import opened HarnessProtocol
  import opened HarnessSafety
  import opened HarnessSteps

  ghost predicate StepAt(run: seq<State>, steps: seq<Step>, i: nat)
    requires |run| == |steps| + 1 && i < |steps|
  {
    Enabled(run[i], steps[i]) && run[i + 1] == Apply(run[i], steps[i])
  }

  ghost predicate IsRun(run: seq<State>, steps: seq<Step>) {
    && |run| == |steps| + 1 && run[0] == Init
    && forall i :: 0 <= i < |steps| ==> StepAt(run, steps, i)
  }

  lemma {:induction false} RunsKeepInv(run: seq<State>, steps: seq<Step>, n: nat)
    requires IsRun(run, steps) && n < |run|
    ensures Inv(run[n])
  {
    if n == 0 {
      InvInit();
    } else {
      RunsKeepInv(run, steps, n - 1);
      assert StepAt(run, steps, n - 1);
      InvNext(run[n - 1], steps[n - 1]);
    }
  }

  ghost predicate Reachable(s: State) {
    exists run, steps :: IsRun(run, steps) && run[|steps|] == s
  }

  lemma ReachableKeepsInv(s: State)
    requires Reachable(s)
    ensures Inv(s)
  {
    var run, steps :| IsRun(run, steps) && run[|steps|] == s;
    RunsKeepInv(run, steps, |steps|);
  }

  lemma ReachableInit()
    ensures Reachable(Init)
  {
    assert IsRun([Init], []);
  }

  lemma ReachableNext(s: State, step: Step)
    requires Reachable(s) && Enabled(s, step)
    ensures Reachable(Apply(s, step))
  {
    var run, steps :| IsRun(run, steps) && run[|steps|] == s;
    var run', steps' := run + [Apply(s, step)], steps + [step];
    forall i | 0 <= i < |steps'| ensures StepAt(run', steps', i) {
      if i < |steps| { assert StepAt(run, steps, i); }
    }
    assert IsRun(run', steps') && run'[|steps'|] == Apply(s, step);
  }

  // The steps in which a delivery tries to append.
  predicate IsInsert(step: Step) {
    step.NoDriver? || step.Fence? || step.AppendResult? || step.DriverText? || step.DriverCall? || step.Commit?
    || step.AppendFailure?
  }

  predicate IsInsertBy(step: Step, d: nat) { IsInsert(step) && step.d == d }

  predicate IsExternal(step: Step) { step.SendMessage? || step.ProvisionCommit? || step.ProvisionFail? }

  // s' has one more row, by `author`.
  ghost predicate OneMore(s: State, s': State, author: Option<nat>) {
    && |LogIn(s')| == |LogIn(s)| + 1 && LogIn(s) <= LogIn(s')
    && s'.authors == s.authors + [author]
  }

  ghost predicate SameLog(s: State, s': State) { LogIn(s') == LogIn(s) && s'.authors == s.authors }

  // What an append by d does: one more row when d had seen the whole log, nothing otherwise.
  ghost predicate Appended(s: State, s': State, d: nat)
    requires d in s.deliveries
  {
    && d in s'.deliveries
    && (if s.deliveries[d].view == LogIn(s) then OneMore(s, s', Some(d))
        else SameLog(s, s') && s'.deliveries[d].view == s.deliveries[d].view)
    && (forall x :: x in s.deliveries && x != d ==> x in s'.deliveries && s'.deliveries[x] == s.deliveries[x])
    && s'.box == s.box
  }

  lemma InsertEffect(s: State, d: nat, p: Payload, acked: bool, won: Delivery, lost: Delivery, broke: Delivery)
    requires ViewsArePrefixes(s) && d in s.deliveries
    requires won.view == Pushed(s.deliveries[d], p).view
    requires lost.view == broke.view == s.deliveries[d].view
    ensures Appended(s, Insert(s, d, p, acked, won, lost, broke), d)
  {
    ViewsAfterInsert(s, d, p, acked, won, lost, broke);
  }

  // One append: won and one row longer when the delivery had seen the whole log, a conflict otherwise.
  lemma AppendStep(s: State, step: Step)
    requires ViewsArePrefixes(s) && Enabled(s, step) && IsInsert(step)
    ensures Appended(s, Apply(s, step), step.d)
  {
    var dv := s.deliveries[step.d];
    match step
    case NoDriver(d, acked) =>
      var p := TurnFailed(ErrorClass.Harness);
      InsertEffect(s, d, p, acked, Left(Pushed(dv, p)), Left(dv), Left(dv));
    case Fence(d, tip, acked) =>
      var p := HarnessAttemptStarted(d, tip);
      InsertEffect(s, d, p, acked, Fenced(dv, p), Left(dv), Left(dv));
    case AppendResult(d, key, acked) => ResultEffect(s, d, key, acked);
    case DriverText(d, content, acked) =>
      var p := AssistantMessage(content, []);
      InsertEffect(s, d, p, acked, Pushed(dv, p), Latched(dv, None), Latched(dv, None));
    case DriverCall(d, call, acked) =>
      var p := AssistantMessage([], [call]);
      InsertEffect(s, d, p, acked, Calls(dv, call), Latched(dv, None), Latched(dv, None));
    case Commit(d, success, acked) =>
      var p := if success then TurnCompleted else TurnFailed(Budget);
      InsertEffect(s, d, p, acked, Left(Pushed(dv, p)), Left(dv), Left(dv));
    case AppendFailure(d, cls, acked) =>
      var p := TurnFailed(cls);
      InsertEffect(s, d, p, acked, Left(Pushed(dv, p)), Left(dv), Left(dv));
  }

  lemma ResultEffect(s: State, d: nat, key: IdemKey, acked: bool)
    requires ViewsArePrefixes(s) && Enabled(s, AppendResult(d, key, acked))
    ensures Appended(s, Apply(s, AppendResult(d, key, acked)), d)
  {
    var dv := s.deliveries[d];
    var p := ToolResult(key, dv.jobs[key].pc.res);
    var won := Pushed(dv, p).(jobs := dv.jobs - {key});
    if dv.pc.Recovering? { InsertEffect(s, d, p, acked, won, Left(dv), Errs(dv)); }
    else { InsertEffect(s, d, p, acked, won, Latched(dv, Some(key)), Latched(dv, Some(key))); }
  }

  lemma ExternalStep(s: State, step: Step)
    requires ViewsArePrefixes(s) && Enabled(s, step) && IsExternal(step)
    ensures var s' := Apply(s, step); OneMore(s, s', None) && s'.box == s.box && s'.deliveries == s.deliveries
  {
    match step
    case SendMessage(content) => ViewsAfterExternal(s, UserMessage(content));
    case ProvisionCommit => ViewsAfterExternal(s, SessionProvisioned);
    case ProvisionFail => ViewsAfterExternal(s, TurnFailed(SandboxFatal));
  }

  // --------------------------------------------------------------- append-only

  lemma StepKeepsHistory(s: State, step: Step)
    requires ViewsArePrefixes(s) && Enabled(s, step)
    ensures LogIn(s) <= LogIn(Apply(s, step)) && s.authors <= Apply(s, step).authors
    ensures s.box.spawns <= Apply(s, step).box.spawns
    ensures !step.SpawnCommand? ==> Apply(s, step).box.spawns == s.box.spawns
    ensures !IsInsert(step) && !IsExternal(step) ==> SameLog(s, Apply(s, step))
  {
    if IsInsert(step) { AppendStep(s, step); } else if IsExternal(step) { ExternalStep(s, step); }
  }

  lemma RunStepKeepsHistory(run: seq<State>, steps: seq<Step>, i: nat)
    requires IsRun(run, steps) && i < |steps|
    ensures LogIn(run[i]) <= LogIn(run[i + 1]) && run[i].box.spawns <= run[i + 1].box.spawns
  {
    RunsKeepInv(run, steps, i);
    assert StepAt(run, steps, i);
    StepKeepsHistory(run[i], steps[i]);
  }

  // The log is append-only over a whole run, and so is the history of spawns.
  lemma {:induction false} HistoryGrows(run: seq<State>, steps: seq<Step>, i: nat, j: nat)
    requires IsRun(run, steps) && i <= j < |run|
    ensures LogIn(run[i]) <= LogIn(run[j]) && run[i].box.spawns <= run[j].box.spawns
    decreases j
  {
    if i < j {
      HistoryGrows(run, steps, i, j - 1);
      RunStepKeepsHistory(run, steps, j - 1);
    }
  }

  // ----------------------------------------------------------------- ownership

  predicate StartsAt(log: Log, i: int, d: nat) {
    0 <= i < |log| && log[i].payload.HarnessAttemptStarted? && log[i].payload.attempt == d
  }

  // Attempt a was started, and another attempt after it.
  ghost predicate Superseded(log: Log, a: nat) {
    exists p, q, b :: p < q && StartsAt(log, p, a) && StartsAt(log, q, b)
  }

  lemma LastAttemptIsLast(log: Log, q: nat)
    requires q < |log| && log[q].payload.HarnessAttemptStarted?
    ensures q <= LastIndex(log, Attempt) && StartsAt(log, LastIndex(log, Attempt), LastAttempt(log).value)
  {
  }

  ghost predicate DistinctStarts(log: Log) {
    forall p, q, a :: p < q && StartsAt(log, p, a) ==> !StartsAt(log, q, a)
  }

  // A superseded attempt owns nothing that could land now.
  lemma SupersededOwnsNothing(log: Log, p: Payload, a: nat)
    requires Superseded(log, a) && DistinctStarts(log) && !(p.HarnessAttemptStarted? && p.attempt == a)
    ensures !Owned(log, p, Some(a))
  {
    var i, q, b :| i < q && StartsAt(log, i, a) && StartsAt(log, q, b);
    LastAttemptIsLast(log, q);
    assert StartedIn(log, a);
  }

  lemma NotStartedAgain(log: Log, e: Event, a: nat)
    requires StartedIn(log, a) && DistinctStarts(log + [e])
    ensures !(e.payload.HarnessAttemptStarted? && e.payload.attempt == a)
  {
    var log' := log + [e];
    var p :| 0 <= p < |log| && log[p].payload.HarnessAttemptStarted? && log[p].payload.attempt == a;
    assert log'[p] == log[p] && log'[|log|] == e && StartsAt(log', p, a) && !StartsAt(log', |log|, a);
  }

  lemma StartsAreDistinct(s: State)
    requires AttemptsOk(s)
    ensures DistinctStarts(LogIn(s))
  {
  }

  lemma LastRowIsOwned(s: State, s': State, a: nat)
    requires OneMore(s, s', Some(a)) && AllOwned(LogIn(s'), s'.authors) && |s.authors| == |LogIn(s)|
    ensures var e := LogIn(s')[|LogIn(s)|]; LogIn(s') == LogIn(s) + [e] && Owned(LogIn(s), e.payload, Some(a))
  {
    var n := |LogIn(s)|;
    assert LogIn(s')[..n] == LogIn(s);
    assert Owned(LogIn(s')[..n], LogIn(s')[n].payload, s'.authors[n]);
  }

  lemma SupersededAddsNothing(s: State, s': State, a: nat)
    requires ViewsArePrefixes(s) && AttemptsOk(s) && AttemptsOk(s') && AllOwned(LogIn(s'), s'.authors)
    requires Superseded(LogIn(s), a)
    ensures !OneMore(s, s', Some(a))
  {
    if OneMore(s, s', Some(a)) {
      DenseReadAll(s.rows);
      LastRowIsOwned(s, s', a);
      StartsAreDistinct(s);
      StartsAreDistinct(s');
      var e := LogIn(s')[|LogIn(s)|];
      NotStartedAgain(LogIn(s), e, a);
      SupersededOwnsNothing(LogIn(s), e.payload, a);
    }
  }

  lemma SupersededLosesStep(s: State, step: Step, a: nat)
    requires Inv(s) && Enabled(s, step) && IsInsertBy(step, a) && Superseded(LogIn(s), a)
    ensures SameLog(s, Apply(s, step))
  {
    AppendStep(s, step);
    InvNext(s, step);
    SupersededAddsNothing(s, Apply(s, step), a);
  }

  lemma SupersededPersists(log: Log, log': Log, a: nat)
    requires Superseded(log, a) && log <= log'
    ensures Superseded(log', a)
  {
    var p, q, b :| p < q && StartsAt(log, p, a) && StartsAt(log, q, b);
    assert StartsAt(log', p, a) && StartsAt(log', q, b);
  }

  // Ownership: once another attempt has started after a's, nothing of a -- text, exec call, result,
  // commit or terminal failure -- ever lands again, in any continuation of the run.
  lemma NothingLandsAfterALaterFence(run: seq<State>, steps: seq<Step>, i: nat, j: nat, a: nat)
    requires IsRun(run, steps) && i <= j < |steps|
    requires Superseded(LogIn(run[i]), a) && IsInsertBy(steps[j], a)
    ensures LogIn(run[j + 1]) == LogIn(run[j])
  {
    HistoryGrows(run, steps, i, j);
    SupersededPersists(LogIn(run[i]), LogIn(run[j]), a);
    RunsKeepInv(run, steps, j);
    assert StepAt(run, steps, j);
    SupersededLosesStep(run[j], steps[j], a);
  }

  // The same, read off the log: between two fences only the first one's attempt, the API, the
  // provisioner or a delivery that never started an attempt has written.
  lemma RowsBelongToTheLastAttempt(run: seq<State>, steps: seq<Step>, n: nat, p: nat, j: nat, a: nat)
    requires IsRun(run, steps) && n < |run| && p < j < |LogIn(run[n])|
    requires StartsAt(LogIn(run[n]), p, a) && !LogIn(run[n])[j].payload.HarnessAttemptStarted?
    requires forall q :: p < q < j ==> !LogIn(run[n])[q].payload.HarnessAttemptStarted?
    ensures var log, authors := LogIn(run[n]), run[n].authors;
      && |authors| == |log|
      && (authors[j].None? || authors[j] == Some(a)
          || (log[j].payload.TurnFailed? && !StartedIn(log[..j], authors[j].value)))
  {
    RunsKeepInv(run, steps, n);
    var log := LogIn(run[n]);
    LastAttemptIsLast(log[..j], p);
    assert Owned(log[..j], log[j].payload, run[n].authors[j]);
  }

  // What the row a step added says: the fence its token and the transcript it resumes from, the driver its
  // very words and calls, the handler what was seen under its key, the commit how the turn ended.
  predicate RowOfStep(s: State, step: Step, e: Event) {
    && e.seqNo == |LogIn(s)| + 1
    && match step
       case SendMessage(content) => e.payload == UserMessage(content)
       case ProvisionCommit => e.payload == SessionProvisioned
       case ProvisionFail => e.payload == TurnFailed(SandboxFatal)
       case NoDriver(_, _) => e.payload == TurnFailed(ErrorClass.Harness)
       case Fence(d, tip, _) => e.payload == HarnessAttemptStarted(d, tip)
       case AppendResult(d, key, _) =>
         && d in s.deliveries && key in s.deliveries[d].jobs
         && s.deliveries[d].jobs[key].pc.Done? && e.payload == ToolResult(key, s.deliveries[d].jobs[key].pc.res)
       case DriverText(_, content, _) => e.payload == AssistantMessage(content, [])
       case DriverCall(_, call, _) => e.payload == AssistantMessage([], [call])
       case Commit(_, success, _) => e.payload == if success then TurnCompleted else TurnFailed(Budget)
       case AppendFailure(_, cls, _) => e.payload == TurnFailed(cls)
       case _ => false
  }

  // The row of an append that won.
  lemma InsertRow(s: State, d: nat, p: Payload, acked: bool, won: Delivery, lost: Delivery, broke: Delivery)
    requires ViewsArePrefixes(s) && d in s.deliveries
    requires won.view == Pushed(s.deliveries[d], p).view && lost.view == broke.view == s.deliveries[d].view
    ensures var s' := Insert(s, d, p, acked, won, lost, broke);
      LogIn(s') != LogIn(s) ==> LogIn(s') == LogIn(s) + [Event(|LogIn(s)| + 1, p)]
  {
    ViewsAfterInsert(s, d, p, acked, won, lost, broke);
    DenseReadAll(s.rows);
  }

  lemma AppendRow(s: State, step: Step)
    requires ViewsArePrefixes(s) && Enabled(s, step) && IsInsert(step)
    requires LogIn(Apply(s, step)) != LogIn(s) && |LogIn(Apply(s, step))| == |LogIn(s)| + 1
    ensures RowOfStep(s, step, LogIn(Apply(s, step))[|LogIn(s)|])
  {
    var dv := s.deliveries[step.d];
    match step
    case NoDriver(d, acked) =>
      var p := TurnFailed(ErrorClass.Harness);
      InsertRow(s, d, p, acked, Left(Pushed(dv, p)), Left(dv), Left(dv));
    case Fence(d, tip, acked) =>
      var p := HarnessAttemptStarted(d, tip);
      InsertRow(s, d, p, acked, Fenced(dv, p), Left(dv), Left(dv));
    case AppendResult(d, key, acked) => ResultRow(s, d, key, acked);
    case DriverText(d, content, acked) =>
      var p := AssistantMessage(content, []);
      InsertRow(s, d, p, acked, Pushed(dv, p), Latched(dv, None), Latched(dv, None));
    case DriverCall(d, call, acked) =>
      var p := AssistantMessage([], [call]);
      InsertRow(s, d, p, acked, Calls(dv, call), Latched(dv, None), Latched(dv, None));
    case Commit(d, success, acked) =>
      var p := if success then TurnCompleted else TurnFailed(Budget);
      InsertRow(s, d, p, acked, Left(Pushed(dv, p)), Left(dv), Left(dv));
    case AppendFailure(d, cls, acked) =>
      var p := TurnFailed(cls);
      InsertRow(s, d, p, acked, Left(Pushed(dv, p)), Left(dv), Left(dv));
  }

  lemma ResultRow(s: State, d: nat, key: IdemKey, acked: bool)
    requires ViewsArePrefixes(s) && Enabled(s, AppendResult(d, key, acked))
    ensures var s', p := Apply(s, AppendResult(d, key, acked)), ToolResult(key, s.deliveries[d].jobs[key].pc.res);
      LogIn(s') != LogIn(s) ==> LogIn(s') == LogIn(s) + [Event(|LogIn(s)| + 1, p)]
  {
    var dv := s.deliveries[d];
    var p := ToolResult(key, dv.jobs[key].pc.res);
    var won := Pushed(dv, p).(jobs := dv.jobs - {key});
    if dv.pc.Recovering? { InsertRow(s, d, p, acked, won, Left(dv), Errs(dv)); }
    else { InsertRow(s, d, p, acked, won, Latched(dv, Some(key)), Latched(dv, Some(key))); }
  }

  lemma ExternalRow(s: State, step: Step)
    requires ViewsArePrefixes(s) && Enabled(s, step) && IsExternal(step)
    requires |LogIn(Apply(s, step))| == |LogIn(s)| + 1
    ensures RowOfStep(s, step, LogIn(Apply(s, step))[|LogIn(s)|])
  {
    match step
    case SendMessage(content) => ViewsAfterExternal(s, UserMessage(content));
    case ProvisionCommit => ViewsAfterExternal(s, SessionProvisioned);
    case ProvisionFail => ViewsAfterExternal(s, TurnFailed(SandboxFatal));
  }

  // authors is what its name says: a row's author is the delivery whose step added it.
  lemma AuthorsAreTheAppenders(run: seq<State>, steps: seq<Step>, i: nat)
    requires IsRun(run, steps) && i < |steps| && LogIn(run[i + 1]) != LogIn(run[i])
    ensures IsInsert(steps[i]) || IsExternal(steps[i])
    ensures OneMore(run[i], run[i + 1], if IsInsert(steps[i]) then Some(steps[i].d) else None)
    ensures RowOfStep(run[i], steps[i], LogIn(run[i + 1])[|LogIn(run[i])|])
  {
    RunsKeepInv(run, steps, i);
    assert StepAt(run, steps, i);
    StepKeepsHistory(run[i], steps[i]);
    if IsInsert(steps[i]) {
      AppendStep(run[i], steps[i]);
      AppendRow(run[i], steps[i]);
    } else {
      ExternalStep(run[i], steps[i]);
      ExternalRow(run[i], steps[i]);
    }
  }

  // The fence column and the log never disagree, and no token was started twice.
  lemma TokenIsTheLastFence(run: seq<State>, steps: seq<Step>, n: nat)
    requires IsRun(run, steps) && n < |run|
    ensures run[n].token == LastAttempt(LogIn(run[n]))
    ensures DistinctStarts(LogIn(run[n]))
  {
    RunsKeepInv(run, steps, n);
  }

  // ------------------------------------------------------------------ recovery

  predicate ResultAt(log: Log, r: int, key: IdemKey) {
    0 <= r < |log| && log[r].payload.ToolResult? && log[r].payload.idemKey == key
  }

  ghost predicate AnsweredOnce(log: Log, key: IdemKey) {
    exists r :: ResultAt(log, r, key) && forall r' :: ResultAt(log, r', key) ==> r' == r
  }

  lemma OnceIfAnswered(view: Log, log: Log, key: IdemKey)
    requires Answered(view, 0, key) && view <= log && ResultsUnique(log)
    ensures AnsweredOnce(view, key) && AnsweredOnce(log, key)
  {
    var r :| 0 <= r < |view| && view[r].payload.ToolResult? && view[r].payload.idemKey == key;
    assert ResultAt(view, r, key) && ResultAt(log, r, key);
    forall r' | ResultAt(log, r', key) ensures r' == r { }
    forall r' | ResultAt(view, r', key) ensures r' == r {
      assert ResultAt(log, r', key);
    }
  }

  // Every call d knows of since the last user message has exactly one result, which is also the only
  // one in the shared log.
  ghost predicate AllAnsweredOnce(s: State, d: nat) {
    d in s.deliveries &&
    var view := s.deliveries[d].view;
    forall i :: LastIndex(view, User) < i < |view| && MakesCall(view[i].payload) ==>
      AnsweredOnce(view, IdemKey(i + 1, 0)) && AnsweredOnce(LogIn(s), IdemKey(i + 1, 0))
  }

  lemma NoneOpen(s: State, d: nat)
    requires Inv(s) && d in s.deliveries && s.deliveries[d].jobs == map[]
    requires s.deliveries[d].pc.Recovering? || s.deliveries[d].pc == Driving(false)
    ensures AllAnsweredOnce(s, d)
  {
    var view := s.deliveries[d].view;
    assert DeliveryOk(s.box, d, s.deliveries[d]);
    forall i | LastIndex(view, User) < i < |view| && MakesCall(view[i].payload)
      ensures AnsweredOnce(view, IdemKey(i + 1, 0)) && AnsweredOnce(LogIn(s), IdemKey(i + 1, 0))
    {
      OnceIfAnswered(view, LogIn(s), IdemKey(i + 1, 0));
    }
  }

  // Recovery is complete: after any number of crashed attempts, with any number of calls open at
  // once, the driver starts only when every exec call of the turn has exactly one result.
  lemma RecoveryIsComplete(run: seq<State>, steps: seq<Step>, i: nat)
    requires IsRun(run, steps) && i < |steps| && steps[i].StartDriver?
    ensures AllAnsweredOnce(run[i], steps[i].d)
  {
    RunsKeepInv(run, steps, i);
    assert StepAt(run, steps, i);
    NoneOpen(run[i], steps[i].d);
  }

  predicate NoExecInFlight(s: State, d: nat) { d in s.deliveries && s.deliveries[d].jobs == map[] }

  // Nor does a turn commit over an open call, if the driver returned with no exec in flight.
  lemma CommitLeavesNothingOpen(run: seq<State>, steps: seq<Step>, i: nat)
    requires IsRun(run, steps) && i < |steps| && steps[i].Commit? && NoExecInFlight(run[i], steps[i].d)
    ensures AllAnsweredOnce(run[i], steps[i].d)
  {
    RunsKeepInv(run, steps, i);
    assert StepAt(run, steps, i);
    NoneOpen(run[i], steps[i].d);
  }

  // ------------------------------------------------------ exactly-once effects

  // No key was spawned twice, each spawn ran the call in the log at its key, no key has two results,
  // and each result reports the one spawn under its key.
  lemma ExactlyOnceEffects(run: seq<State>, steps: seq<Step>, n: nat)
    requires IsRun(run, steps) && n < |run|
    ensures var box, log := run[n].box, LogIn(run[n]);
      && (forall i, j :: 0 <= i < j < |box.spawns| ==> box.spawns[i].key != box.spawns[j].key)
      && (forall i :: 0 <= i < |box.spawns| ==> CallAt(log, box.spawns[i].key, box.spawns[i].call))
      && (forall i :: 0 <= i < |log| && log[i].payload.ToolResult? ==>
            && AnsweredOnce(log, log[i].payload.idemKey)
            && BoxReports(box, log[i].payload.idemKey, log[i].payload.result)
            && CallAt(log, log[i].payload.idemKey, box.dirs[log[i].payload.idemKey].call))
  {
    RunsKeepInv(run, steps, n);
    var box, log := run[n].box, LogIn(run[n]);
    forall i | 0 <= i < |box.spawns| ensures CallAt(log, box.spawns[i].key, box.spawns[i].call) {
      assert box.spawns[i].key in box.dirs;
    }
    forall i | 0 <= i < |log| && log[i].payload.ToolResult?
      ensures AnsweredOnce(log, log[i].payload.idemKey)
      ensures BoxReports(box, log[i].payload.idemKey, log[i].payload.result)
      ensures CallAt(log, log[i].payload.idemKey, box.dirs[log[i].payload.idemKey].call)
    {
      assert BoxReports(box, log[i].payload.idemKey, log[i].payload.result);
      OnceIfAnswered(log, log, log[i].payload.idemKey);
    }
  }

  // --------------------------------------------------------- permanent stand-down

  ghost predicate Stale(s: State, d: nat) {
    d in s.deliveries && s.deliveries[d].view != LogIn(s)
  }

  predicate IsSandboxStep(step: Step) {
    step.MkdirKey? || step.SpawnCommand? || step.SeeExit? || step.Reboot? || step.CommandActs?
  }

  lemma OtherStepsKeepViews(s: State, step: Step)
    requires Enabled(s, step) && !IsInsert(step) && !IsExternal(step)
    ensures forall x :: x in s.deliveries ==>
      x in Apply(s, step).deliveries && Apply(s, step).deliveries[x].view == s.deliveries[x].view
  {
    if IsSandboxStep(step) { } else { }
  }

  lemma StaleStep(s: State, step: Step, d: nat)
    requires ViewsArePrefixes(s) && Enabled(s, step) && Stale(s, d)
    ensures Stale(Apply(s, step), d)
    ensures IsInsertBy(step, d) ==> LogIn(Apply(s, step)) == LogIn(s)
  {
    StepKeepsHistory(s, step);
    assert s.deliveries[d].view <= LogIn(s);
    if IsInsert(step) { AppendStep(s, step); }
    else if IsExternal(step) { ExternalStep(s, step); }
    else { OtherStepsKeepViews(s, step); }
  }

  lemma StaleRunStep(run: seq<State>, steps: seq<Step>, d: nat, j: nat)
    requires IsRun(run, steps) && j < |steps| && Stale(run[j], d)
    ensures Stale(run[j + 1], d)
    ensures IsInsertBy(steps[j], d) ==> LogIn(run[j + 1]) == LogIn(run[j])
  {
    RunsKeepInv(run, steps, j);
    assert StepAt(run, steps, j);
    StaleStep(run[j], steps[j], d);
  }

  // Once a delivery's view has fallen behind, nothing it or its driver does reaches the log again.
  lemma {:induction false} StaleForever(run: seq<State>, steps: seq<Step>, d: nat, i: nat, j: nat)
    requires IsRun(run, steps) && i <= j < |steps| && Stale(run[i], d)
    ensures Stale(run[j], d)
    ensures IsInsertBy(steps[j], d) ==> LogIn(run[j + 1]) == LogIn(run[j])
    decreases j
  {
    if i < j {
      StaleForever(run, steps, d, i, j - 1);
      StaleRunStep(run, steps, d, j - 1);
    }
    StaleRunStep(run, steps, d, j);
  }
}

// What every run of the native runtime keeps, whatever the interleaving, crashes and redeliveries.
module NativeRuns {
  import opened Events
  import opened Store
  import opened Sandbox
  import opened NativeProtocol
  import opened NativeSafety

  ghost predicate StepAt(c: Config, run: seq<State>, steps: seq<Step>, i: nat)
    requires |run| == |steps| + 1 && i < |steps|
  {
    Enabled(c, run[i], steps[i]) && run[i + 1] == Apply(c, run[i], steps[i])
  }

  ghost predicate IsRun(c: Config, run: seq<State>, steps: seq<Step>) {
    && |run| == |steps| + 1 && run[0] == Init
    && forall i :: 0 <= i < |steps| ==> StepAt(c, run, steps, i)
  }

  lemma {:induction false} RunsKeepInv(c: Config, run: seq<State>, steps: seq<Step>, n: nat)
    requires IsRun(c, run, steps) && n < |run|
    ensures Inv(c, run[n])
  {
    if n == 0 {
      InvInit(c);
    } else {
      RunsKeepInv(c, run, steps, n - 1);
      assert StepAt(c, run, steps, n - 1);
      InvNext(c, run[n - 1], steps[n - 1]);
    }
  }

  ghost predicate Reachable(c: Config, s: State) {
    exists run, steps :: IsRun(c, run, steps) && run[|steps|] == s
  }

  lemma ReachableKeepsInv(c: Config, s: State)
    requires Reachable(c, s)
    ensures Inv(c, s)
  {
    var run, steps :| IsRun(c, run, steps) && run[|steps|] == s;
    RunsKeepInv(c, run, steps, |steps|);
  }

  lemma ReachableInit(c: Config)
    ensures Reachable(c, Init)
  {
    assert IsRun(c, [Init], []);
  }

  lemma ReachableNext(c: Config, s: State, step: Step)
    requires Reachable(c, s) && Enabled(c, s, step)
    ensures Reachable(c, Apply(c, s, step))
  {
    var run, steps :| IsRun(c, run, steps) && run[|steps|] == s;
    var run', steps' := run + [Apply(c, s, step)], steps + [step];
    forall i | 0 <= i < |steps'| ensures StepAt(c, run', steps', i) {
      if i < |steps| { assert StepAt(c, run, steps, i); }
    }
    assert IsRun(c, run', steps') && run'[|steps'|] == Apply(c, s, step);
  }

  predicate IsAppend(step: Step) {
    step.AppendNext? || step.AppendFailure?
  }

  predicate IsAppendBy(step: Step, d: nat) { IsAppend(step) && step.d == d }

  predicate IsExternal(step: Step) { step.SendMessage? || step.ProvisionCommit? || step.ProvisionFail? }

  // What is appended, and where the delivery goes on.
  function AppendedBy(c: Config, s: State, step: Step): Due
    requires Enabled(c, s, step) && IsAppend(step)
  {
    if step.AppendNext? then DueAppend(c, s.deliveries[step.d]).value else Due(TurnFailed(step.cls), Gone)
  }

  lemma AppendIs(c: Config, s: State, step: Step)
    requires Enabled(c, s, step) && IsAppend(step)
    ensures var due := AppendedBy(c, s, step); Apply(c, s, step) == Append(s, step.d, due.p, step.acked, due.after)
  {
  }

  lemma AppendFrame(s: State, d: nat, p: Payload, acked: bool, after: Pc)
    requires ViewsArePrefixes(s) && d in s.deliveries
    ensures var s', view := Append(s, d, p, acked, after), s.deliveries[d].view;
      && (if view == LogIn(s) then |LogIn(s')| == |LogIn(s)| + 1 && LogIn(s) <= LogIn(s') else s' == Move(s, d, Gone))
      && s'.box == s.box
      && forall x :: x in s.deliveries && x != d ==> x in s'.deliveries && s'.deliveries[x] == s.deliveries[x]
  {
    AppendEffect(s, d, p, acked, after);
  }

  // One conditional append: won and one row longer, or lost and gone.
  lemma AppendStep(c: Config, s: State, step: Step)
    requires Inv(c, s) && Enabled(c, s, step) && IsAppend(step)
    ensures var s', view := Apply(c, s, step), s.deliveries[step.d].view;
      if view == LogIn(s) then |LogIn(s')| == |LogIn(s)| + 1 && LogIn(s) <= LogIn(s') else s' == Move(s, step.d, Gone)
    ensures Apply(c, s, step).box == s.box
    ensures forall x :: x in s.deliveries && x != step.d ==>
      x in Apply(c, s, step).deliveries && Apply(c, s, step).deliveries[x] == s.deliveries[x]
  {
    AppendIs(c, s, step);
    var due := AppendedBy(c, s, step);
    AppendFrame(s, step.d, due.p, step.acked, due.after);
  }

  lemma ExternalStep(c: Config, s: State, step: Step)
    requires Inv(c, s) && Enabled(c, s, step) && IsExternal(step)
    ensures LogIn(s) <= LogIn(Apply(c, s, step)) && Apply(c, s, step).box == s.box
    ensures Apply(c, s, step).deliveries == s.deliveries
  {
    match step
    case SendMessage(content) => ExternalEffect(s, UserMessage(content));
    case ProvisionCommit => ExternalEffect(s, SessionProvisioned);
    case ProvisionFail => ExternalEffect(s, TurnFailed(SandboxFatal));
  }

  // Which rows a step marks as external.
  lemma QuietStep(c: Config, s: State, step: Step)
    requires Enabled(c, s, step) && !IsAppend(step) && !IsExternal(step)
    ensures Apply(c, s, step).rows == s.rows
  {
  }

  lemma AppendMarks(c: Config, s: State, step: Step)
    requires Enabled(c, s, step) && IsAppend(step) && Apply(c, s, step).rows != s.rows
    ensures Apply(c, s, step).external == s.external + [false]
  {
  }

  lemma ExternalMarks(c: Config, s: State, step: Step)
    requires Enabled(c, s, step) && IsExternal(step)
    ensures Apply(c, s, step).external == s.external + [true]
  {
  }

  // What the row a step added says: the message that was sent, the very words and call of the model, the
  // bytes and code that were seen, or how the turn or the provisioning ended.
  predicate RowOfStep(s: State, step: Step, e: Event) {
    && e.seqNo == |LogIn(s)| + 1
    && match step
       case SendMessage(content) => e.payload == UserMessage(content)
       case ProvisionCommit => e.payload == SessionProvisioned
       case ProvisionFail => e.payload == TurnFailed(SandboxFatal)
       case AppendFailure(_, cls, _) => e.payload == TurnFailed(cls)
       case AppendNext(d, _) =>
         && d in s.deliveries
         && (match s.deliveries[d].pc
             case Replied(reply) => JournalsReply(e.payload, reply)
             case Observed(key, res) => e.payload == ToolResult(key, res)
             case _ => e.payload == TurnCompleted || e.payload == TurnFailed(Budget))
       case _ => false
  }

  predicate JournalsReply(p: Payload, reply: Reply) {
    && p.AssistantMessage? && p.content == [reply.text]
    && (if reply.toolCall.Some? then p.toolCalls == [reply.toolCall.value] else p.toolCalls == [])
  }

  lemma ExternalRow(c: Config, s: State, step: Step)
    requires Inv(c, s) && Enabled(c, s, step) && IsExternal(step)
    ensures var s' := Apply(c, s, step); |LogIn(s')| == |LogIn(s)| + 1 && LogIn(s) <= LogIn(s')
    ensures RowOfStep(s, step, LogIn(Apply(c, s, step))[|LogIn(s)|])
  {
    match step
    case SendMessage(content) => ExternalEffect(s, UserMessage(content));
    case ProvisionCommit => ExternalEffect(s, SessionProvisioned);
    case ProvisionFail => ExternalEffect(s, TurnFailed(SandboxFatal));
  }

  lemma AppendRow(c: Config, s: State, step: Step)
    requires Inv(c, s) && Enabled(c, s, step) && IsAppend(step) && LogIn(Apply(c, s, step)) != LogIn(s)
    ensures var s' := Apply(c, s, step); |LogIn(s')| == |LogIn(s)| + 1 && LogIn(s) <= LogIn(s')
    ensures RowOfStep(s, step, LogIn(Apply(c, s, step))[|LogIn(s)|])
  {
    AppendIs(c, s, step);
    var due := AppendedBy(c, s, step);
    AppendedRow(s, step.d, due.p, step.acked, due.after);
  }

  lemma AppendedRow(s: State, d: nat, p: Payload, acked: bool, after: Pc)
    requires ViewsArePrefixes(s) && d in s.deliveries && LogIn(Append(s, d, p, acked, after)) != LogIn(s)
    ensures LogIn(Append(s, d, p, acked, after)) == LogIn(s) + [Event(|LogIn(s)| + 1, p)]
  {
    DenseReadAll(s.rows);
    AppendEffect(s, d, p, acked, after);
  }

  // `external` is what its name says: a row is marked exactly when the API or the provisioner added it.
  lemma ExternalIsRecorded(c: Config, run: seq<State>, steps: seq<Step>, i: nat)
    requires IsRun(c, run, steps) && i < |steps| && LogIn(run[i + 1]) != LogIn(run[i])
    ensures IsAppend(steps[i]) || IsExternal(steps[i])
    ensures run[i + 1].external == run[i].external + [IsExternal(steps[i])]
    ensures |LogIn(run[i + 1])| == |LogIn(run[i])| + 1 && LogIn(run[i]) <= LogIn(run[i + 1])
    ensures RowOfStep(run[i], steps[i], LogIn(run[i + 1])[|LogIn(run[i])|])
  {
    assert StepAt(c, run, steps, i);
    RunsKeepInv(c, run, steps, i);
    if IsAppend(steps[i]) {
      AppendMarks(c, run[i], steps[i]);
      AppendRow(c, run[i], steps[i]);
    } else if IsExternal(steps[i]) {
      ExternalMarks(c, run[i], steps[i]);
      ExternalRow(c, run[i], steps[i]);
    } else {
      QuietStep(c, run[i], steps[i]);
    }
  }

  // ------------------------------------------------------ exactly-once effects

  lemma StepKeepsHistory(c: Config, s: State, step: Step)
    requires Inv(c, s) && Enabled(c, s, step)
    ensures LogIn(s) <= LogIn(Apply(c, s, step))
    ensures s.box.spawns <= Apply(c, s, step).box.spawns
    ensures step.SpawnCommand? || Apply(c, s, step).box.spawns == s.box.spawns
  {
    if IsAppend(step) { AppendStep(c, s, step); }
    if IsExternal(step) { ExternalStep(c, s, step); }
  }

  // The log is append-only over a whole run, and so is the history of spawns.
  lemma {:induction false} HistoryGrows(c: Config, run: seq<State>, steps: seq<Step>, i: nat, j: nat)
    requires IsRun(c, run, steps) && i <= j < |run|
    ensures LogIn(run[i]) <= LogIn(run[j]) && run[i].box.spawns <= run[j].box.spawns
    decreases j
  {
    if i < j {
      HistoryGrows(c, run, steps, i, j - 1);
      RunsKeepInv(c, run, steps, j - 1);
      assert StepAt(c, run, steps, j - 1);
      StepKeepsHistory(c, run[j - 1], steps[j - 1]);
    }
  }

  // A spawn is the first under its key and runs the call already journaled at the key's seq.
  lemma SpawnRunsJournaledCall(c: Config, run: seq<State>, steps: seq<Step>, i: nat)
    requires IsRun(c, run, steps) && i < |steps| && steps[i].SpawnCommand?
    ensures exists sp: Spawn ::
      && run[i + 1].box.spawns == run[i].box.spawns + [sp]
      && CallAt(LogIn(run[i]), sp.key, sp.call)
      && forall n :: 0 <= n < |run[i].box.spawns| ==> run[i].box.spawns[n].key != sp.key
  {
    RunsKeepInv(c, run, steps, i);
    assert StepAt(c, run, steps, i);
    var s, d := run[i], steps[i].d;
    assert PcOk(c, s.box, s.deliveries[d]);
    ViewCall(c, s, d);
    var sp := Spawn(s.deliveries[d].pc.key, s.deliveries[d].pc.call);
    assert run[i + 1].box.spawns == s.box.spawns + [sp];
  }

  // Exactly-once effects: at any point of any run no key was spawned twice, each spawn ran the call
  // in the log at its key, and each recorded result is the report of the one spawn under its key.
  lemma ExactlyOnceEffects(c: Config, run: seq<State>, steps: seq<Step>, n: nat)
    requires IsRun(c, run, steps) && n < |run|
    ensures var box, log := run[n].box, LogIn(run[n]);
      && (forall i, j :: 0 <= i < j < |box.spawns| ==> box.spawns[i].key != box.spawns[j].key)
      && (forall i :: 0 <= i < |box.spawns| ==> CallAt(log, box.spawns[i].key, box.spawns[i].call))
      && (forall i :: 0 <= i < |log| && log[i].payload.ToolResult? ==>
            && BoxReports(box, log[i].payload.idemKey, log[i].payload.result)
            && CallAt(log, log[i].payload.idemKey, box.dirs[log[i].payload.idemKey].call))
      && Numbered(log)
  {
    RunsKeepInv(c, run, steps, n);
    DenseReadAll(run[n].rows);
    var box, log := run[n].box, LogIn(run[n]);
    forall i | 0 <= i < |box.spawns| ensures CallAt(log, box.spawns[i].key, box.spawns[i].call) {
      assert box.spawns[i].key in box.dirs;
    }
    forall i | 0 <= i < |log| && log[i].payload.ToolResult?
      ensures BoxReports(box, log[i].payload.idemKey, log[i].payload.result)
      ensures CallAt(log, log[i].payload.idemKey, box.dirs[log[i].payload.idemKey].call)
    {
      assert BoxReports(box, log[i].payload.idemKey, log[i].payload.result);
    }
  }

  // ------------------------------------------------------- permanent stand-down

  ghost predicate Stale(s: State, d: nat) {
    d in s.deliveries && s.deliveries[d].view != LogIn(s)
  }

  lemma QuietViews(c: Config, s: State, step: Step)
    requires Enabled(c, s, step) && !IsAppend(step) && !IsExternal(step)
    ensures forall x :: x in s.deliveries ==>
      x in Apply(c, s, step).deliveries && Apply(c, s, step).deliveries[x].view == s.deliveries[x].view
  {
  }

  lemma StaleAppend(c: Config, s: State, step: Step, d: nat)
    requires Inv(c, s) && Enabled(c, s, step) && IsAppend(step) && Stale(s, d)
    ensures Stale(Apply(c, s, step), d)
    ensures step.d == d ==> LogIn(Apply(c, s, step)) == LogIn(s) && At(Apply(c, s, step), d, Gone)
  {
    AppendStep(c, s, step);
    assert s.deliveries[d].view <= LogIn(s);
  }

  lemma StaleStep(c: Config, s: State, step: Step, d: nat)
    requires Inv(c, s) && Enabled(c, s, step) && Stale(s, d)
    ensures Stale(Apply(c, s, step), d)
    ensures IsAppendBy(step, d) ==> LogIn(Apply(c, s, step)) == LogIn(s) && At(Apply(c, s, step), d, Gone)
  {
    assert s.deliveries[d].view <= LogIn(s);
    if IsAppend(step) { StaleAppend(c, s, step, d); }
    else if IsExternal(step) { ExternalStep(c, s, step); }
    else {
      QuietStep(c, s, step);
      QuietViews(c, s, step);
    }
  }

  lemma StaleRunStep(c: Config, run: seq<State>, steps: seq<Step>, d: nat, j: nat)
    requires IsRun(c, run, steps) && j < |steps| && Stale(run[j], d)
    ensures Stale(run[j + 1], d)
    ensures IsAppendBy(steps[j], d) ==> LogIn(run[j + 1]) == LogIn(run[j])
  {
    RunsKeepInv(c, run, steps, j);
    assert StepAt(c, run, steps, j);
    StaleStep(c, run[j], steps[j], d);
  }

  // Once a delivery's view has fallen behind, nothing it does ever reaches the log again.
  lemma {:induction false} StaleForever(c: Config, run: seq<State>, steps: seq<Step>, d: nat, i: nat, j: nat)
    requires IsRun(c, run, steps) && i <= j < |run| && Stale(run[i], d)
    ensures Stale(run[j], d)
    ensures j < |steps| && IsAppendBy(steps[j], d) ==> LogIn(run[j + 1]) == LogIn(run[j])
    decreases j
  {
    if i < j {
      StaleForever(c, run, steps, d, i, j - 1);
      StaleRunStep(c, run, steps, d, j - 1);
    }
    if j < |steps| { StaleRunStep(c, run, steps, d, j); }
  }

  // An append changes the log exactly when its delivery has seen the whole log; otherwise it is a
  // conflict and the delivery never appends again.
  lemma AppendWinsIffCurrent(c: Config, run: seq<State>, steps: seq<Step>, i: nat, d: nat)
    requires IsRun(c, run, steps) && i < |steps| && IsAppendBy(steps[i], d)
    ensures LogIn(run[i + 1]) != LogIn(run[i]) <==> !Stale(run[i], d)
    ensures LogIn(run[i + 1]) == LogIn(run[i]) ==>
      forall j :: i <= j < |steps| && IsAppendBy(steps[j], d) ==> LogIn(run[j + 1]) == LogIn(run[j])
  {
    RunsKeepInv(c, run, steps, i);
    assert StepAt(c, run, steps, i);
    AppendStep(c, run[i], steps[i]);
    if LogIn(run[i + 1]) == LogIn(run[i]) {
      forall j | i <= j < |steps| && IsAppendBy(steps[j], d) ensures LogIn(run[j + 1]) == LogIn(run[j]) {
        StaleForever(c, run, steps, d, i, j);
      }
    }
  }
}

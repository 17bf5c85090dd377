// Terminal discipline of the harness runtime: a delivery that sees a finished turn starts nothing, so behind
// a terminal event only the API and the provisioner write.
module HarnessDiscipline {
  import opened Prelude
  import opened Events
  import opened Store
  import opened HarnessProtocol
  import opened HarnessSafety
  import opened HarnessSteps
  import opened HarnessRuns
  import TerminalDiscipline
  import S = Sessions
  import F = SessionFates

  // A delivery that may still append does not know the turn to be over, or has yet to look.
  predicate Unended(dv: Delivery) { dv.pc.Gone? || dv.pc.Loaded? || !EndsTerminal(dv.view) }

  ghost predicate AllUnended(s: State) { forall d :: d in s.deliveries ==> Unended(s.deliveries[d]) }

  lemma InsertKeepsUnended(s: State, d: nat, p: Payload, acked: bool, won: Delivery, lost: Delivery, broke: Delivery)
    requires AllUnended(s) && d in s.deliveries && Unended(won) && Unended(lost) && Unended(broke)
    ensures AllUnended(Insert(s, d, p, acked, won, lost, broke))
  {
  }

  // A row that goes on with the turn: the delivery keeps its place behind it.
  lemma GoesOn(dv: Delivery, p: Payload)
    requires !IsTerminal(p)
    ensures !EndsTerminal(Pushed(dv, p).view)
  {
  }

  lemma AppendKeepsUnended(s: State, step: Step)
    requires AllUnended(s) && Enabled(s, step) && IsInsert(step)
    ensures AllUnended(Apply(s, step))
  {
    var dv := s.deliveries[step.d];
    assert Unended(dv);
    match step
    case NoDriver(d, acked) =>
      var p := TurnFailed(ErrorClass.Harness);
      InsertKeepsUnended(s, d, p, acked, Left(Pushed(dv, p)), Left(dv), Left(dv));
    case Fence(d, tip, acked) =>
      var p := HarnessAttemptStarted(d, tip);
      GoesOn(dv, p);
      InsertKeepsUnended(s, d, p, acked, Fenced(dv, p), Left(dv), Left(dv));
    case AppendResult(d, key, acked) => ResultKeepsUnended(s, d, key, acked);
    case DriverText(d, content, acked) =>
      var p := AssistantMessage(content, []);
      GoesOn(dv, p);
      InsertKeepsUnended(s, d, p, acked, Pushed(dv, p), Latched(dv, None), Latched(dv, None));
    case DriverCall(d, call, acked) =>
      var p := AssistantMessage([], [call]);
      GoesOn(dv, p);
      InsertKeepsUnended(s, d, p, acked, Calls(dv, call), Latched(dv, None), Latched(dv, None));
    case Commit(d, success, acked) =>
      var p := if success then TurnCompleted else TurnFailed(Budget);
      InsertKeepsUnended(s, d, p, acked, Left(Pushed(dv, p)), Left(dv), Left(dv));
    case AppendFailure(d, cls, acked) =>
      var p := TurnFailed(cls);
      InsertKeepsUnended(s, d, p, acked, Left(Pushed(dv, p)), Left(dv), Left(dv));
  }

  lemma ResultKeepsUnended(s: State, d: nat, key: IdemKey, acked: bool)
    requires AllUnended(s) && Enabled(s, AppendResult(d, key, acked))
    ensures AllUnended(Apply(s, AppendResult(d, key, acked)))
  {
    var dv := s.deliveries[d];
    assert Unended(dv);
    var p := ToolResult(key, dv.jobs[key].pc.res);
    var won := Pushed(dv, p).(jobs := dv.jobs - {key});
    GoesOn(dv, p);
    if dv.pc.Recovering? { InsertKeepsUnended(s, d, p, acked, won, Left(dv), Errs(dv)); }
    else { InsertKeepsUnended(s, d, p, acked, won, Latched(dv, Some(key)), Latched(dv, Some(key))); }
  }

  lemma StepKeepsUnended(s: State, step: Step)
    requires AllUnended(s) && Enabled(s, step)
    ensures AllUnended(Apply(s, step))
  {
    if IsInsert(step) { AppendKeepsUnended(s, step); }
    else if IsExternal(step) { }
    else if IsSandboxStep(step) { }
    else { }
  }

  // Whoever wins an append saw a log that does not end in a terminal event.
  lemma WinnerSawNoEnd(s: State, step: Step)
    requires ViewsArePrefixes(s) && AllUnended(s) && Enabled(s, step) && IsInsert(step)
    ensures EndsTerminal(LogIn(s)) ==> SameLog(s, Apply(s, step))
  {
    AppendStep(s, step);
    assert Unended(s.deliveries[step.d]);
  }

  // Every row behind a terminal event came from outside.
  ghost predicate OnlyOutsideBehindEnds(s: State) {
    && |s.authors| == |LogIn(s)|
    && forall i :: 0 <= i && i + 1 < |LogIn(s)| && IsTerminal(LogIn(s)[i].payload) ==> s.authors[i + 1].None?
  }

  lemma OneMoreBehindEnds(s: State, s': State, author: Option<nat>)
    requires OnlyOutsideBehindEnds(s) && OneMore(s, s', author)
    requires EndsTerminal(LogIn(s)) ==> author.None?
    ensures OnlyOutsideBehindEnds(s')
  {
    forall i | 0 <= i && i + 1 < |LogIn(s')| && IsTerminal(LogIn(s')[i].payload) ensures s'.authors[i + 1].None? {
      assert LogIn(s')[i] == LogIn(s)[i];
    }
  }

  lemma StepKeepsEnds(s: State, step: Step)
    requires ViewsArePrefixes(s) && AllUnended(s) && OnlyOutsideBehindEnds(s) && Enabled(s, step)
    ensures OnlyOutsideBehindEnds(Apply(s, step))
  {
    StepKeepsHistory(s, step);
    if IsInsert(step) {
      AppendStep(s, step);
      WinnerSawNoEnd(s, step);
      if s.deliveries[step.d].view == LogIn(s) { OneMoreBehindEnds(s, Apply(s, step), Some(step.d)); }
    } else if IsExternal(step) {
      ExternalStep(s, step);
      OneMoreBehindEnds(s, Apply(s, step), None);
    }
  }

  // Behind a terminal event no delivery ever writes, whatever raced, crashed or was redelivered: neither an
  // attempt under way, nor a failure on its way to the log, nor a new fence.
  lemma {:induction false} NoTurnWritesBehindAnEnd(run: seq<State>, steps: seq<Step>, n: nat)
    requires IsRun(run, steps) && n < |run|
    ensures AllUnended(run[n]) && OnlyOutsideBehindEnds(run[n])
  {
    if n > 0 {
      NoTurnWritesBehindAnEnd(run, steps, n - 1);
      RunsKeepInv(run, steps, n - 1);
      assert StepAt(run, steps, n - 1);
      StepKeepsUnended(run[n - 1], steps[n - 1]);
      StepKeepsEnds(run[n - 1], steps[n - 1]);
    }
  }

  // The provisioner's rows: from outside, and no message.
  predicate ProvisionerWrote(s: State, i: nat) {
    i < |LogIn(s)| && i < |s.authors| && s.authors[i].None? && !LogIn(s)[i].payload.UserMessage?
  }

  ghost predicate ProvisionedBehindAnEnd(s: State) {
    exists i: nat :: i + 1 < |LogIn(s)| && IsTerminal(LogIn(s)[i].payload) && ProvisionerWrote(s, i + 1)
  }

  // Every terminal event of a harness log is followed by a message, if by anything, exactly when the provisioner
  // never wrote right behind one.
  lemma HarnessDisciplineIff(run: seq<State>, steps: seq<Step>, n: nat)
    requires IsRun(run, steps) && n < |run|
    ensures TerminalDiscipline.Disciplined(LogIn(run[n])) <==> !ProvisionedBehindAnEnd(run[n])
  {
    NoTurnWritesBehindAnEnd(run, steps, n);
    var s := run[n];
    var log := LogIn(s);
    if !ProvisionedBehindAnEnd(s) {
      forall i | 0 <= i && i + 1 < |log| && IsTerminal(log[i].payload) ensures log[i + 1].payload.UserMessage? {
        assert !ProvisionerWrote(s, i + 1);
      }
    }
  }

  // Then a user message separates any two terminal events.
  lemma MessageBetweenEnds(run: seq<State>, steps: seq<Step>, n: nat, i: nat, j: nat)
    requires IsRun(run, steps) && n < |run| && !ProvisionedBehindAnEnd(run[n])
    requires i < j < |LogIn(run[n])| && IsTerminal(LogIn(run[n])[i].payload) && IsTerminal(LogIn(run[n])[j].payload)
    ensures exists k :: i < k < j && LogIn(run[n])[k].payload.UserMessage?
  {
    HarnessDisciplineIff(run, steps, n);
    assert LogIn(run[n])[i + 1].payload.UserMessage?;
  }

  // The log and its authors are what the session's own run made them.
  ghost predicate SameHistory(s: State, session: S.State) {
    && LogIn(s) == session.log && |s.authors| == |session.external| == |session.log|
    && forall i :: 0 <= i < |s.authors| ==> (s.authors[i].None? <==> session.external[i])
  }

  // So it does on a session whose closes each found nothing but messages.
  lemma OneEndPerTurn(run: seq<State>, steps: seq<Step>, n: nat, srun: seq<S.State>, ssteps: seq<S.Step>, m: nat,
                      i: nat, j: nat)
    requires IsRun(run, steps) && n < |run| && S.IsRun(srun, ssteps) && m < |srun|
    requires SameHistory(run[n], srun[m]) && F.FirstCloses(srun, ssteps, m)
    requires i < j < |LogIn(run[n])| && IsTerminal(LogIn(run[n])[i].payload) && IsTerminal(LogIn(run[n])[j].payload)
    ensures exists k :: i < k < j && LogIn(run[n])[k].payload.UserMessage?
  {
    F.ProvisionedOnceIff(srun, ssteps, m);
    var log, external := srun[m].log, srun[m].external;
    forall k: nat | k + 1 < |log| && IsTerminal(log[k].payload) ensures !ProvisionerWrote(run[n], k + 1) {
      assert external[k] ==> IsProvisioning(log, external, k);
      assert external[k + 1] && !log[k + 1].payload.UserMessage? ==> IsProvisioning(log, external, k + 1);
    }
    MessageBetweenEnds(run, steps, n, i, j);
  }

  lemma InsertLands(s: State, d: nat, p: Payload, won: Delivery, lost: Delivery)
    requires ViewsArePrefixes(s) && d in s.deliveries && s.deliveries[d].view == LogIn(s)
    requires won.view == Pushed(s.deliveries[d], p).view && lost.view == LogIn(s)
    ensures LogIn(Insert(s, d, p, true, won, lost, lost)) == LogIn(s) + [Event(|LogIn(s)| + 1, p)]
    ensures Insert(s, d, p, true, won, lost, lost).deliveries.Keys == s.deliveries.Keys
  {
    DenseReadAll(s.rows);
    ViewsAfterInsert(s, d, p, true, won, lost, lost);
  }

  lemma NoDriverInserts(s: State, d: nat)
    requires d in s.deliveries && s.deliveries[d].pc.Loaded? && CanStart(s.deliveries[d].view)
    ensures var dv, p, step := s.deliveries[d], TurnFailed(ErrorClass.Harness), NoDriver(d, true);
      Enabled(s, step) && Apply(s, step) == Insert(s, d, p, true, Left(Pushed(dv, p)), Left(dv), Left(dv))
  {
  }

  lemma Takes(s: State, step: Step) returns (s': State)
    requires Reachable(s) && Enabled(s, step)
    ensures s' == Apply(s, step) && Reachable(s') && ViewsArePrefixes(s')
  {
    ReachableNext(s, step);
    s' := Apply(s, step);
    ReachableKeepsInv(s');
  }

  lemma Reads(s: State, d: nat) returns (s': State)
    requires Reachable(s) && d !in s.deliveries
    ensures Reachable(s') && ViewsArePrefixes(s') && LogIn(s') == LogIn(s)
    ensures s'.deliveries.Keys == s.deliveries.Keys + {d}
    ensures s'.deliveries[d] == Delivery(LogIn(s), Loaded, false, map[])
  {
    s' := Takes(s, Deliver(d));
  }

  lemma EndsNow(s: State, d: nat) returns (s': State)
    requires Reachable(s) && ViewsArePrefixes(s) && d in s.deliveries
    requires s.deliveries[d] == Delivery(LogIn(s), Loaded, false, map[]) && CanStart(LogIn(s))
    ensures Reachable(s') && s'.deliveries.Keys == s.deliveries.Keys
    ensures LogIn(s') == LogIn(s) + [Event(|LogIn(s)| + 1, TurnFailed(ErrorClass.Harness))]
  {
    NoDriverInserts(s, d);
    var dv, p := s.deliveries[d], TurnFailed(ErrorClass.Harness);
    InsertLands(s, d, p, Left(Pushed(dv, p)), Left(dv));
    ReachableNext(s, NoDriver(d, true));
    s' := Apply(s, NoDriver(d, true));
  }

  // A delivery that reads an open turn on a worker without a driver ends it.
  lemma FailsNow(s: State, d: nat) returns (s': State)
    requires Reachable(s) && d !in s.deliveries && CanStart(LogIn(s))
    ensures Reachable(s') && s'.deliveries.Keys == s.deliveries.Keys + {d}
    ensures LogIn(s') == LogIn(s) + [Event(|LogIn(s)| + 1, TurnFailed(ErrorClass.Harness))]
  {
    var mid := Reads(s, d);
    s' := EndsNow(mid, d);
  }

  lemma WritesNow(s: State, step: Step, p: Payload) returns (s': State)
    requires Reachable(s) && IsExternal(step) && Apply(s, step) == InsertExternal(s, p)
    ensures Reachable(s') && s'.deliveries == s.deliveries
    ensures LogIn(s') == LogIn(s) + [Event(|LogIn(s)| + 1, p)]
  {
    ReachableNext(s, step);
    ReachableKeepsInv(s);
    ViewsAfterExternal(s, p);
    s' := Apply(s, step);
  }

  // A turn with a message in it may be started until it ends.
  lemma OpenTurn(log: Log)
    requires log != [] && log[0].payload.UserMessage? && !EndsTerminal(log)
    ensures CanStart(log)
  {
    assert KindOf(log[0].payload) == User;
  }

  lemma NothingYet()
    ensures Reachable(Init) && LogIn(Init) == []
  {
    ReachableInit();
    InvInit();
    DenseReadAll(Init.rows);
  }

  lemma FirstFailure(words: seq<string>) returns (s: State)
    ensures Reachable(s) && s.deliveries.Keys == {0}
    ensures LogIn(s) == [Event(1, UserMessage(words)), Event(2, TurnFailed(ErrorClass.Harness))]
  {
    NothingYet();
    s := WritesNow(Init, SendMessage(words), UserMessage(words));
    OpenTurn(LogIn(s));
    s := FailsNow(s, 0);
  }

  // The condition can fail: a provisioning behind a failed turn lets the next delivery fail it again.
  lemma TurnFailsTwice(words: seq<string>) returns (s: State)
    ensures Reachable(s) && !TerminalDiscipline.Disciplined(LogIn(s))
    ensures LogIn(s) == [Event(1, UserMessage(words)), Event(2, TurnFailed(ErrorClass.Harness)),
                         Event(3, SessionProvisioned), Event(4, TurnFailed(ErrorClass.Harness))]
  {
    var s1 := FirstFailure(words);
    var s2 := WritesNow(s1, ProvisionCommit, SessionProvisioned);
    OpenTurn(LogIn(s2));
    s := FailsNow(s2, 1);
    assert IsTerminal(LogIn(s)[1].payload) && !LogIn(s)[1 + 1].payload.UserMessage?;
  }
}

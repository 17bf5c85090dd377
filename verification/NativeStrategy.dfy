// The code one delivery runs: runTurn's gate and shell (packages/sessions/src/turn.ts), the native
// loop and its error map (packages/sessions/src/native-strategy.ts) and exec with one reboot
// (packages/sessions/src/exec.ts).  Each await lets any number of steps of other deliveries, the API,
// the provisioner and the sandbox happen; each of its own effects is one step of the protocol.
module NativeStrategy {
  import opened Prelude
  import opened Events
  import opened Reducer
  import opened Store
  import opened OutputFiles
  import opened Sandbox
  import opened Conversation
  import opened NativeProtocol
  import opened NativeSafety
  import opened NativeRuns
  import opened TurnBounds

  // Escaped: a read before the strategy threw; the worker nacks.
  datatype TurnOutcome = TurnDone | TurnFailedRecorded | Conflict | Abandoned | RetryLater | Escaped

  datatype Status = Provisioning | ReadyToRun | SessionFailed | Archived

  // What can escape the loop.
  datatype Error = ErrConflict | LlmPermanentError | LlmTransientError | SandboxUnavailableError | OtherError

  datatype AppendResult = Won | Lost | Broke

  function AfterWin(dv: Delivery, p: Payload, acked: bool, after: Pc): Delivery {
    if acked then Delivery(dv.view + [Event(LastSeq(dv.view) + 1, p)], after) else Delivery(dv.view, Erred)
  }

  datatype Returned = Outcome(o: TurnOutcome) | Threw(err: Error)

  datatype ExecOutcome = Saw(res: ExecResult) | Unobservable | OtherFailure | HandleNotSaved

  // What the model port gave back.
  datatype Answer = Answered(reply: Reply) | Refused(err: Error)

  // One round of the loop either goes on or ends it.
  datatype Round = GoOn | Stop(r: Returned)

  predicate IsBy(step: Step, d: nat) {
    match step
    case Deliver(x) => x == d
    case ModelReplies(x, _) => x == d
    case MkdirKey(x) => x == d
    case SpawnCommand(x) => x == d
    case SeeExit(x) => x == d
    case Reboot(x) => x == d
    case AppendNext(x, _) => x == d
    case Raise(x) => x == d
    case AppendFailure(x, _, _) => x == d
    case Leave(x) => x == d
    case _ => false
  }

  datatype PolicyValue = Missing | NotAnInteger | Integer(v: int)

  // tool_policy.max_iterations, default 20.
  function ReadMaxIterations(v: PolicyValue): (n: nat)
    ensures n >= 1
    ensures v.Integer? && v.v > 0 ==> n == v.v
    ensures !(v.Integer? && v.v > 0) ==> n == 20
  {
    if v.Integer? && v.v > 0 then v.v else 20
  }

  // An error may escape: the loop is between its first action and a terminal event.
  predicate Unfinished(c: Config, dv: Delivery) {
    !dv.pc.Gone? && NextAction(dv.view, c.maxIterations) != Noop
  }

  // Where an append of what is due leaves the delivery.
  ghost predicate AppendLeaves(c: Config, dv: Delivery, r: AppendResult, dv': Delivery) {
    && DueAppend(c, dv).Some?
    && match r {
         case Won => dv' == AfterWin(dv, DueAppend(c, dv).value.p, true, DueAppend(c, dv).value.after)
         case Lost => dv' == Delivery(dv.view, Gone)
         case Broke => dv' == Delivery(dv.view, Erred)
       }
  }

  // Where an insert of p leaves its delivery.
  ghost predicate Inserted(s: State, d: nat, p: Payload, acked: bool, after: Pc, s': State)
    requires d in s.deliveries
  {
    var dv := s.deliveries[d];
    && d in s'.deliveries && LogIn(s) <= LogIn(s')
    && if !Taken(s.rows, Event(LastSeq(dv.view) + 1, p)) then s'.deliveries[d] == AfterWin(dv, p, acked, after)
       else s'.deliveries[d] == Delivery(dv.view, Gone) && Stale(s', d)
  }

  lemma AppendInserts(s: State, d: nat, p: Payload, acked: bool, after: Pc)
    requires ViewsArePrefixes(s) && d in s.deliveries
    ensures Inserted(s, d, p, acked, after, Append(s, d, p, acked, after))
  {
    AppendEffect(s, d, p, acked, after);
  }

  lemma StepGrowsLog(c: Config, s: State, step: Step)
    requires Reachable(c, s) && Enabled(c, s, step)
    ensures Reachable(c, Apply(c, s, step)) && LogIn(s) <= LogIn(Apply(c, s, step))
  {
    ReachableNext(c, s, step);
    ReachableKeepsInv(c, s);
    StepKeepsHistory(c, s, step);
  }

  lemma DueInsert(c: Config, s: State, d: nat, acked: bool)
    requires Reachable(c, s) && Enabled(c, s, AppendNext(d, acked))
    ensures Reachable(c, Apply(c, s, AppendNext(d, acked)))
    ensures var due := DueAppend(c, s.deliveries[d]).value;
      Inserted(s, d, due.p, acked, due.after, Apply(c, s, AppendNext(d, acked)))
  {
    ReachableNext(c, s, AppendNext(d, acked));
    ReachableKeepsInv(c, s);
    var due := DueAppend(c, s.deliveries[d]).value;
    AppendInserts(s, d, due.p, acked, due.after);
  }

  lemma WhatIsDue(c: Config, s: State, d: nat)
    requires Reachable(c, s) && d in s.deliveries && DueAppend(c, s.deliveries[d]).Some?
    ensures Next(c, s, d) != Noop && Prescribes(c, s.deliveries[d].view, DueAppend(c, s.deliveries[d]).value.p, false)
  {
    ReachableKeepsInv(c, s);
    DueIsPrescribed(c, s, d);
  }

  lemma FailureInsert(c: Config, s: State, d: nat, cls: ErrorClass, acked: bool)
    requires Reachable(c, s) && Enabled(c, s, AppendFailure(d, cls, acked))
    ensures Reachable(c, Apply(c, s, AppendFailure(d, cls, acked)))
    ensures Inserted(s, d, TurnFailed(cls), acked, Gone, Apply(c, s, AppendFailure(d, cls, acked)))
  {
    ReachableNext(c, s, AppendFailure(d, cls, acked));
    ReachableKeepsInv(c, s);
    AppendInserts(s, d, TurnFailed(cls), acked, Gone);
  }

  class Runtime {
    const c: Config
    var s: State
    // Some store operation failed other than by conflict.
    var storeBroke: bool
    // The errors the store, the model, the sandbox and the reducer have thrown so far.
    var thrown: set<Error>
    var reboots: nat
    // What the model port gave back, call by call.
    var answers: seq<Answer>

    ghost predicate Valid() reads this { c.maxIterations >= 1 && Reachable(c, s) }

    ghost predicate Standing(d: nat, pc: Pc) reads this { Valid() && At(s, d, pc) }

    constructor (c: Config)
      requires c.maxIterations >= 1
      ensures Valid() && s == Init && !storeBroke && thrown == {} && reboots == 0 && answers == []
    {
      this.c, s, storeBroke, thrown, reboots, answers := c, Init, false, {}, 0, [];
      new;
      ReachableInit(c);
    }

    // Others run any schedule of steps.
    method Await(d: nat)
      requires Valid() && d in s.deliveries
      modifies `s
      ensures Valid() && d in s.deliveries && s.deliveries[d] == old(s.deliveries[d])
      ensures old(LogIn(s)) <= LogIn(s)
    {
      var schedule: seq<Step> := *;
      for i := 0 to |schedule|
        invariant Valid() && d in s.deliveries && s.deliveries[d] == old(s.deliveries[d])
        invariant old(LogIn(s)) <= LogIn(s)
      {
        if Enabled(c, s, schedule[i]) && !IsBy(schedule[i], d) {
          StepGrowsLog(c, s, schedule[i]);
          OthersLeaveAlone(c, s, schedule[i], d);
          s := Apply(c, s, schedule[i]);
        }
      }
    }

    // One step of this delivery.
    method Perform(step: Step)
      requires Valid() && Enabled(c, s, step)
      modifies `s
      ensures Valid() && s == Apply(c, old(s), step) && LogIn(old(s)) <= LogIn(s)
    {
      StepGrowsLog(c, s, step);
      s := Apply(c, s, step);
    }

    // The insert of the event that is due: it wins, or the seq is taken and the delivery is stale.
    method InsertDue(d: nat, acked: bool) returns (won: bool)
      requires Valid() && d in s.deliveries && DueAppend(c, s.deliveries[d]).Some?
      modifies `s
      ensures Valid() && d in s.deliveries && LogIn(old(s)) <= LogIn(s)
      ensures var dv := old(s.deliveries[d]); var due := DueAppend(c, dv).value;
        if won then s.deliveries[d] == AfterWin(dv, due.p, acked, due.after)
        else s.deliveries[d] == Delivery(dv.view, Gone) && Stale(s, d)
    {
      won := !Taken(s.rows, Event(LastSeq(s.deliveries[d].view) + 1, DueAppend(c, s.deliveries[d]).value.p));
      DueInsert(c, s, d, acked);
      s := Apply(c, s, AppendNext(d, acked));
    }

    method InsertFailure(d: nat, cls: ErrorClass, acked: bool) returns (won: bool)
      requires Standing(d, Erred) && ErrorPathClass(cls)
      modifies `s
      ensures Valid() && d in s.deliveries && LogIn(old(s)) <= LogIn(s)
      ensures var dv := old(s.deliveries[d]);
        if won then s.deliveries[d] == AfterWin(dv, TurnFailed(cls), acked, Gone)
        else s.deliveries[d] == Delivery(dv.view, Gone) && Stale(s, d)
    {
      won := !Taken(s.rows, Event(LastSeq(s.deliveries[d].view) + 1, TurnFailed(cls)));
      FailureInsert(c, s, d, cls, acked);
      s := Apply(c, s, AppendFailure(d, cls, acked));
    }

    // An error escapes while the turn is unfinished.
    method Raises(d: nat)
      requires Valid() && d in s.deliveries && Unfinished(c, s.deliveries[d])
      modifies `s
      ensures Valid() && d in s.deliveries && LogIn(s) == LogIn(old(s))
      ensures s.deliveries[d] == Delivery(old(s.deliveries[d].view), Erred)
    {
      Perform(Raise(d));
    }

    // The store call fails; its row may have been committed all the same.
    method Breaks(d: nat)
      requires Valid() && d in s.deliveries && DueAppend(c, s.deliveries[d]).Some?
      modifies `s, `storeBroke, `thrown
      ensures Valid() && d in s.deliveries && LogIn(old(s)) <= LogIn(s)
      ensures s.deliveries[d] == Delivery(old(s.deliveries[d].view), Erred)
      ensures storeBroke && OtherError in thrown
    {
      storeBroke, thrown := true, thrown + {OtherError};
      var committed: bool := *;
      var p := DueAppend(c, s.deliveries[d]).value.p;
      if committed && !Taken(s.rows, Event(LastSeq(s.deliveries[d].view) + 1, p)) {
        DueInsert(c, s, d, false);
        s := Apply(c, s, AppendNext(d, false));
      } else {
        WhatIsDue(c, s, d);
        Raises(d);
      }
    }

    // The conditional append of the shell: compute the seq, await the insert, mirror the row.  It can
    // win, lose the seq race, or break.
    method Append(d: nat) returns (r: AppendResult)
      requires Valid() && d in s.deliveries && DueAppend(c, s.deliveries[d]).Some?
      modifies `s, `storeBroke, `thrown
      ensures Valid() && d in s.deliveries && LogIn(old(s)) <= LogIn(s)
      ensures AppendLeaves(c, old(s.deliveries[d]), r, s.deliveries[d])
      ensures r.Lost? ==> Stale(s, d)
      ensures r.Broke? ==> storeBroke && OtherError in thrown
      ensures !r.Broke? ==> storeBroke == old(storeBroke)
    {
      Await(d);
      var answered: bool := *;
      if answered {
        var won := InsertDue(d, true);
        r := if won then Won else Lost;
      } else {
        Breaks(d);
        r := Broke;
      }
    }

    // terminalFail: record a turn_failed; a lost race is a conflict, any other failure is retried.
    method TerminalFail(d: nat, cls: ErrorClass) returns (o: TurnOutcome)
      requires Standing(d, Erred) && ErrorPathClass(cls)
      modifies `s, `storeBroke
      ensures Valid() && d in s.deliveries && LogIn(old(s)) <= LogIn(s)
      ensures o.TurnFailedRecorded? || o.Conflict? || o.RetryLater?
      ensures o.TurnFailedRecorded? ==> s.deliveries[d] == AfterWin(old(s.deliveries[d]), TurnFailed(cls), true, Gone)
      ensures o.Conflict? ==> Stale(s, d)
      ensures o.RetryLater? ==> storeBroke && s.deliveries[d].view == old(s.deliveries[d].view)
      ensures !o.RetryLater? ==> storeBroke == old(storeBroke)
    {
      Await(d);
      var answered: bool, committed: bool := *, *;
      if answered {
        var won := InsertFailure(d, cls, true);
        return if won then TurnFailedRecorded else Conflict;
      }
      storeBroke := true;
      if committed {
        var _ := InsertFailure(d, cls, false);
      }
      o := RetryLater;
    }

    // Tail the key's files for as long as the sandbox can be observed.
    method TailKey(d: nat) returns (r: ExecOutcome)
      requires Valid() && d in s.deliveries && s.deliveries[d].pc.Tailing?
      modifies `s, `thrown
      ensures Valid() && d in s.deliveries && LogIn(old(s)) <= LogIn(s)
      ensures s.deliveries[d].view == old(s.deliveries[d].view)
      ensures r.Saw? ==> s.deliveries[d].pc == Observed(old(s.deliveries[d].pc.key), r.res)
      ensures old(thrown) <= thrown
      ensures !r.Saw? ==> FailedExec(r) && s.deliveries[d] == old(s.deliveries[d])
    {
      var polls: nat := *;
      while polls > 0
        invariant Valid() && d in s.deliveries && s.deliveries[d] == old(s.deliveries[d])
        invariant LogIn(old(s)) <= LogIn(s) && thrown == old(thrown)
      {
        Await(d);
        var key := s.deliveries[d].pc.key;
        if Finished(s.box, key) {
          var res := Report(s.box.dirs[key].files);
          Perform(SeeExit(d));
          return Saw(res);
        }
        polls := polls - 1;
      }
      r := SandboxFails();
    }

    // What a failed exec threw.
    predicate FailedExec(r: ExecOutcome) reads this {
      || (r.Unobservable? && SandboxUnavailableError in thrown)
      || (r.OtherFailure? && OtherError in thrown)
    }

    // The sandbox is out of reach, or its driver fails in some other way.
    method SandboxFails() returns (r: ExecOutcome)
      modifies `thrown
      ensures FailedExec(r) && old(thrown) <= thrown
    {
      var unavailable: bool := *;
      thrown := thrown + {if unavailable then SandboxUnavailableError else OtherError};
      r := if unavailable then Unobservable else OtherFailure;
    }

    // One exec under the key: whoever makes the directory spawns, everyone tails.
    method RunKey(d: nat) returns (r: ExecOutcome)
      requires Standing(d, Ready) && Next(c, s, d).ExecTool?
      modifies `s, `thrown
      ensures Valid() && d in s.deliveries && LogIn(old(s)) <= LogIn(s)
      ensures s.deliveries[d].view == old(s.deliveries[d].view)
      ensures r.Saw? ==> s.deliveries[d].pc == Observed(old(Next(c, s, d).key), r.res)
      ensures !r.Saw? ==> FailedExec(r) && s.deliveries[d].pc == Tailing(old(Next(c, s, d).key))
      ensures old(thrown) <= thrown
    {
      MakesDir(d);
      if s.deliveries[d].pc.Locked? { Spawns(d); }
      r := TailKey(d);
    }

    method MakesDir(d: nat)
      requires Standing(d, Ready) && Next(c, s, d).ExecTool?
      modifies `s
      ensures Valid() && d in s.deliveries && LogIn(old(s)) <= LogIn(s)
      ensures var dv, a := old(s.deliveries[d]), old(Next(c, s, d));
        || s.deliveries[d] == Delivery(dv.view, Tailing(a.key))
        || s.deliveries[d] == Delivery(dv.view, Locked(a.key, a.call))
    {
      Await(d);
      Perform(MkdirKey(d));
    }

    method Spawns(d: nat)
      requires Valid() && d in s.deliveries && s.deliveries[d].pc.Locked?
      modifies `s
      ensures Valid() && d in s.deliveries && LogIn(old(s)) <= LogIn(s)
      ensures s.deliveries[d] == Delivery(old(s.deliveries[d].view), Tailing(old(s.deliveries[d].pc.key)))
    {
      Await(d);
      Perform(SpawnCommand(d));
    }

    // makeExecWithReboot: an unobservable sandbox is rebooted once and the same key tried again; the
    // rebooted handle is saved in between.
    method Exec(d: nat, hasHandle: bool) returns (r: ExecOutcome)
      requires Standing(d, Ready) && Next(c, s, d).ExecTool?
      modifies this
      ensures Valid() && d in s.deliveries && LogIn(old(s)) <= LogIn(s)
      ensures s.deliveries[d].view == old(s.deliveries[d].view)
      ensures r.Saw? ==> s.deliveries[d].pc == Observed(old(Next(c, s, d).key), r.res)
      ensures if r.HandleNotSaved? then storeBroke && OtherError in thrown else storeBroke == old(storeBroke)
      ensures !r.Saw? && !r.HandleNotSaved? ==> FailedExec(r)
      // Rebooted at most once, only when out of reach, and then the key was tried again.
      ensures reboots <= old(reboots) + 1 && (reboots > old(reboots) ==> SandboxUnavailableError in thrown)
      ensures r.HandleNotSaved? ==> reboots > old(reboots)
      ensures !hasHandle ==> r.Unobservable? && s == old(s)
      ensures hasHandle && r.HandleNotSaved? ==> s.deliveries[d].pc == Ready
      ensures hasHandle && !r.Saw? && !r.HandleNotSaved? ==> s.deliveries[d].pc == Tailing(old(Next(c, s, d).key))
    {
      if !hasHandle {
        thrown := thrown + {SandboxUnavailableError};
        return Unobservable;
      }
      r := RunKey(d);
      if !r.Unobservable? { return; }
      var rebooted: bool := *;
      if !rebooted {
        r := SandboxFails();
        return;
      }
      reboots := reboots + 1;
      Perform(Reboot(d));
      var saved: bool := *;
      if !saved {
        storeBroke, thrown := true, thrown + {OtherError};
        return HandleNotSaved;
      }
      r := RunKey(d);
    }

    // Every way a delivery can stand after an error or a lost race was thrown.
    ghost predicate ThrewOk(d: nat, err: Error) reads this {
      && Valid() && d in s.deliveries
      && if err.ErrConflict? then s.deliveries[d].pc == Gone && Stale(s, d)
         else s.deliveries[d].pc == Erred && err in thrown
    }

    // A finished turn: the delivery's view ends in a terminal event.
    ghost predicate FinishedOk(d: nat) reads this {
      Valid() && d in s.deliveries && s.deliveries[d].pc == Gone && EndsTerminal(s.deliveries[d].view)
    }

    // Done: the turn was completed now, or had ended before, as view says.
    ghost predicate StopOk(d: nat, view: Log, r: Returned) reads this {
      match r
      case Threw(err) => ThrewOk(d, err)
      case Outcome(o) =>
        && FinishedOk(d)
        && (o.TurnDone? ==> LastPayload(s.deliveries[d].view) == TurnCompleted || s.deliveries[d].view == view)
        && (!o.TurnDone? ==>
              o.TurnFailedRecorded? && LastPayload(s.deliveries[d].view) == TurnFailed(Budget)
              && |view| < |s.deliveries[d].view|)
    }

    // A round that goes on has grown the view by one prescribed reply or result.
    ghost predicate RoundOk(d: nat, view: Log, round: Round) reads this {
      if round.Stop? then StopOk(d, view, round.r)
      else
        Standing(d, Ready) && GrewByOne(c, view, s.deliveries[d].view)
    }

    // Append what is due and go on, or throw.
    method AppendAndGoOn(d: nat) returns (round: Round)
      requires Valid() && d in s.deliveries && (s.deliveries[d].pc.Replied? || s.deliveries[d].pc.Observed?)
      modifies `s, `storeBroke, `thrown
      ensures RoundOk(d, old(s.deliveries[d].view), round) && LogIn(old(s)) <= LogIn(s)
      ensures round.Stop? ==> round.r.Threw? && (round.r.err.ErrConflict? || (round.r.err.OtherError? && storeBroke))
      ensures round.GoOn? ==> LastPayload(s.deliveries[d].view) == old(DueAppend(c, s.deliveries[d]).value.p)
      ensures old(storeBroke) ==> storeBroke
    {
      WhatIsDue(c, s, d);
      var a := Append(d);
      round :=
        match a
        case Won => GoOn
        case Lost => Stop(Threw(Error.ErrConflict))
        case Broke => Stop(Threw(OtherError));
    }

    method ModelAnswers(d: nat, reply: Reply)
      requires Standing(d, Ready) && Next(c, s, d) == Infer
      requires c.replyOk(Context(s.deliveries[d].view, c.systemPrompt), reply)
      modifies `s
      ensures Valid() && d in s.deliveries && LogIn(s) == LogIn(old(s))
      ensures s.deliveries[d] == Delivery(old(s.deliveries[d].view), Replied(reply))
    {
      Perform(ModelReplies(d, reply));
    }

    method AppendReply(d: nat, reply: Reply) returns (round: Round)
      requires Standing(d, Ready) && Next(c, s, d) == Infer
      requires c.replyOk(Context(s.deliveries[d].view, c.systemPrompt), reply)
      modifies `s, `storeBroke, `thrown
      ensures RoundOk(d, old(s.deliveries[d].view), round) && LogIn(old(s)) <= LogIn(s)
      ensures old(storeBroke) ==> storeBroke
      ensures round.Stop? ==> round.r.Threw? && (round.r.err.ErrConflict? || (round.r.err.OtherError? && storeBroke))
      ensures round.GoOn? ==> JournalsReply(LastPayload(s.deliveries[d].view), reply)
    {
      ModelAnswers(d, reply);
      round := AppendAndGoOn(d);
    }

    // The model port: a reply to these messages, or one of its two errors.
    method Complete(messages: seq<ChatMessage>) returns (a: Answer)
      modifies `answers, `thrown
      ensures answers == old(answers) + [a] && old(thrown) <= thrown
      ensures a.Answered? ==> c.replyOk(messages, a.reply)
      ensures a.Refused? ==> (a.err.LlmPermanentError? || a.err.LlmTransientError?) && a.err in thrown
    {
      var reply: Reply, permanent: bool := *, *;
      a := if c.replyOk(messages, reply) then Answered(reply)
           else Refused(if permanent then LlmPermanentError else LlmTransientError);
      answers := answers + [a];
      if a.Refused? { thrown := thrown + {a.err}; }
    }

    // The model is asked once; its reply is journaled as it is, unless the append is lost or breaks, and its
    // error is thrown as it is.
    method InferRound(d: nat) returns (round: Round)
      requires Standing(d, Ready) && Next(c, s, d) == Infer
      modifies this
      ensures RoundOk(d, old(s.deliveries[d].view), round) && LogIn(old(s)) <= LogIn(s)
      ensures old(storeBroke) ==> storeBroke
      ensures |answers| == |old(answers)| + 1 && old(answers) <= answers
      ensures var a := answers[|old(answers)|];
        && (a.Refused? ==> round == Stop(Threw(a.err)))
        && (a.Answered? && round.GoOn? ==> JournalsReply(LastPayload(s.deliveries[d].view), a.reply))
        && (a.Answered? && round.Stop? ==>
              round.r.Threw? && (round.r.err.ErrConflict? || (round.r.err.OtherError? && storeBroke)))
    {
      var messages := BuildContext(s.deliveries[d].view, c.systemPrompt);
      Await(d);
      var a := Complete(messages);
      match a
      case Answered(reply) => round := AppendReply(d, reply);
      case Refused(err) =>
        Raises(d);
        round := Stop(Threw(err));
    }

    method ExecRound(d: nat, hasHandle: bool) returns (round: Round)
      requires Standing(d, Ready) && Next(c, s, d).ExecTool?
      modifies this
      ensures RoundOk(d, old(s.deliveries[d].view), round) && LogIn(old(s)) <= LogIn(s)
      ensures old(storeBroke) ==> storeBroke
    {
      var x := Exec(d, hasHandle);
      if x.Saw? {
        round := AppendAndGoOn(d);
      } else {
        Raises(d);
        round := Stop(Threw(if x.Unobservable? then SandboxUnavailableError else OtherError));
      }
    }

    method EndRound(d: nat) returns (round: Round)
      requires Standing(d, Ready) && (Next(c, s, d) == Finish || Next(c, s, d) == Fail)
      modifies this
      ensures round.Stop? && StopOk(d, old(s.deliveries[d].view), round.r) && LogIn(old(s)) <= LogIn(s)
      ensures old(storeBroke) ==> storeBroke
    {
      var finish := Next(c, s, d) == Finish;
      var a := Append(d);
      round := Stop(match a
        case Won => Outcome(if finish then TurnDone else TurnFailedRecorded)
        case Lost => Threw(Error.ErrConflict)
        case Broke => Threw(OtherError));
    }

    method PerformAction(d: nat, hasHandle: bool) returns (round: Round)
      requires Standing(d, Ready)
      modifies this
      ensures RoundOk(d, old(s.deliveries[d].view), round) && LogIn(old(s)) <= LogIn(s)
      ensures old(storeBroke) ==> storeBroke
    {
      match Next(c, s, d)
      case Noop =>
        Perform(Leave(d));
        round := Stop(Outcome(TurnDone));  // redelivery of finished work
      case Throws =>
        thrown := thrown + {OtherError};
        Raises(d);
        round := Stop(Threw(OtherError));
      case Finish => round := EndRound(d);
      case Fail => round := EndRound(d);
      case Infer => round := InferRound(d);
      case ExecTool(_, _) => round := ExecRound(d, hasHandle);
    }

    // nativeStrategy.run: ask the reducer, perform the action, append, repeat.
    method Run(d: nat, hasHandle: bool) returns (r: Returned)
      requires Standing(d, Ready)
      modifies this
      ensures StopOk(d, old(s.deliveries[d].view), r) && LogIn(old(s)) <= LogIn(s)
      ensures old(storeBroke) ==> storeBroke
    {
      while true
        invariant Standing(d, Ready) && LogIn(old(s)) <= LogIn(s)
        invariant s.deliveries[d].view == old(s.deliveries[d].view) || !EndsTerminal(s.deliveries[d].view)
        invariant old(s.deliveries[d].view) <= s.deliveries[d].view
        invariant old(storeBroke) ==> storeBroke
        decreases Remaining(c, s.deliveries[d].view)
      {
        ghost var view := s.deliveries[d].view;
        ViewIsPrescribed(c, s, d);
        var round := PerformAction(d, hasHandle);
        if round.Stop? { return round.r; }
        RoundDecreases(c, view, s.deliveries[d].view);
      }
    }

    // The strategy's error map, then the shared one.
    method MapError(d: nat, err: Error, lastAttempt: bool) returns (o: TurnOutcome)
      requires ThrewOk(d, err)
      modifies `s, `storeBroke
      ensures OutcomeOk(d, o) && LogIn(old(s)) <= LogIn(s)
      ensures !o.TurnDone? && !o.Abandoned? && !o.Escaped?
      ensures o.RetryLater? && (lastAttempt || err.LlmPermanentError?) ==> storeBroke
      ensures !lastAttempt && !err.LlmPermanentError? && !err.ErrConflict? ==> o.RetryLater? && s == old(s)
      ensures err.ErrConflict? ==> o.Conflict? && s == old(s)
      ensures o.TurnFailedRecorded? ==>
        && (lastAttempt || err.LlmPermanentError?)
        && LastPayload(s.deliveries[d].view) == TurnFailed(
             if err.LlmPermanentError? then LlmPermanent
             else if err.SandboxUnavailableError? then SandboxFatal else Internal)
    {
      if !err.ErrConflict? { ErredIsOpen(c, s, d); }
      match err
      case ErrConflict => o := Conflict;
      case LlmPermanentError => o := TerminalFail(d, LlmPermanent);
      case SandboxUnavailableError => o := RetryLater; if lastAttempt { o := TerminalFail(d, SandboxFatal); }
      case LlmTransientError => o := RetryLater; if lastAttempt { o := TerminalFail(d, Internal); }
      case OtherError => o := RetryLater; if lastAttempt { o := TerminalFail(d, Internal); }
    }

    // What an outcome says about its delivery: a finished turn was seen to end, a conflict means the
    // log has events this delivery has not seen.
    ghost predicate OutcomeOk(d: nat, o: TurnOutcome) reads this {
      && Valid() && d in s.deliveries
      && match o
         case TurnDone => EndsTerminal(s.deliveries[d].view)
         case TurnFailedRecorded => s.deliveries[d].view != [] && LastPayload(s.deliveries[d].view).TurnFailed?
         case Conflict => Stale(s, d)
         case Abandoned => true
         case RetryLater => !EndsTerminal(s.deliveries[d].view)
         case Escaped => true
    }

    // Which failure was recorded: a spent budget or a refusal of the model at any time, anything else only
    // on the last attempt, a lost sandbox as what it is.
    ghost predicate RecordedOk(d: nat, lastAttempt: bool) reads this {
      && d in s.deliveries && s.deliveries[d].view != []
      && var p := LastPayload(s.deliveries[d].view);
      || p == TurnFailed(Budget)
      || (p == TurnFailed(LlmPermanent) && LlmPermanentError in thrown)
      || (lastAttempt && p == TurnFailed(SandboxFatal) && SandboxUnavailableError in thrown)
      || (lastAttempt && p == TurnFailed(Internal) && (LlmTransientError in thrown || OtherError in thrown))
    }

    // Done: completed now, or the log that was read had ended.
    ghost predicate DoneOk(d: nat, read: Log) reads this {
      && d in s.deliveries && EndsTerminal(s.deliveries[d].view)
      && (LastPayload(s.deliveries[d].view) == TurnCompleted || s.deliveries[d].view == read)
    }

    // runTurn past its gate and log read.
    method RunStrategy(d: nat, hasHandle: bool, lastAttempt: bool) returns (o: TurnOutcome)
      requires Standing(d, Ready)
      modifies this
      ensures OutcomeOk(d, o) && !o.Abandoned? && !o.Escaped? && LogIn(old(s)) <= LogIn(s)
      ensures o.RetryLater? && lastAttempt ==> storeBroke
      ensures o.TurnFailedRecorded? ==> RecordedOk(d, lastAttempt)
      ensures o.TurnDone? ==> DoneOk(d, old(s.deliveries[d].view))
    {
      var r := Run(d, hasHandle);
      match r
      case Outcome(out) => o := out;
      case Threw(err) => o := MapError(d, err, lastAttempt);
    }

    // runTurn: gate on the session, load the pinned version, read the log once, run the strategy.
    method RunTurn(d: nat, session: Option<Status>, versionFound: bool, hasHandle: bool,
                   attempts: nat, maxAttempts: nat) returns (o: TurnOutcome)
      requires Valid() && d !in s.deliveries
      modifies this
      ensures Valid() && LogIn(old(s)) <= LogIn(s)
      ensures o.Escaped? ==> storeBroke && s == old(s)
      ensures !o.Escaped? ==> (o.Abandoned? <==>
        || session.None? || session.value.SessionFailed? || session.value.Archived?
        || (session.value.ReadyToRun? && !versionFound))
      ensures !o.Escaped? && session == Some(Provisioning) ==> o.RetryLater? && s == old(s)
      ensures !o.Escaped? && session == Some(ReadyToRun) && versionFound ==> OutcomeOk(d, o)
      ensures session == Some(ReadyToRun) && o.RetryLater? && attempts >= maxAttempts ==> storeBroke
      ensures o.Abandoned? ==> s == old(s)
      ensures o.TurnFailedRecorded? ==> RecordedOk(d, attempts >= maxAttempts)
      ensures o.TurnDone? ==> DoneOk(d, LogIn(old(s)))
    {
      var lastAttempt := attempts >= maxAttempts;
      var sessionRead: bool, versionRead: bool, logRead: bool := *, *, *;
      if !sessionRead {
        storeBroke := true;
        return Escaped;
      }
      if session.None? { return Abandoned; }
      if session.value.Provisioning? { return RetryLater; }
      if session.value.SessionFailed? || session.value.Archived? { return Abandoned; }
      if !versionRead {
        storeBroke := true;
        return Escaped;
      }
      if !versionFound { return Abandoned; }
      if !logRead {
        storeBroke := true;
        return Escaped;
      }
      Perform(Deliver(d));
      o := RunStrategy(d, hasHandle, lastAttempt);
    }
  }

  ghost predicate GrewByOne(c: Config, view: Log, view': Log) {
    && |view'| == |view| + 1 && view' == view + [view'[|view|]]
    && Prescribes(c, view, view'[|view|].payload, false)
    && (view'[|view|].payload.AssistantMessage? || view'[|view|].payload.ToolResult?)
  }

  function LastPayload(log: Log): Payload
    requires log != []
  {
    log[|log| - 1].payload
  }

  lemma ViewIsPrescribed(c: Config, s: State, d: nat)
    requires Reachable(c, s) && d in s.deliveries
    ensures IsNativeLog(c, s.deliveries[d].view)
  {
    ReachableKeepsInv(c, s);
    var n := |s.deliveries[d].view|;
    PrescribedPrefix(c, LogIn(s), s.external, n);
    assert LogIn(s)[..n] == s.deliveries[d].view;
  }

  lemma RoundDecreases(c: Config, view: Log, view': Log)
    requires c.maxIterations >= 1 && IsNativeLog(c, view) && GrewByOne(c, view, view')
    ensures 0 <= Remaining(c, view') < Remaining(c, view)
  {
    var external :| Prescribed(c, view, external);
    RemainingDecreases(c, view, external, view'[|view|]);
  }

  // An error escapes only from an unfinished turn.
  lemma ErredIsOpen(c: Config, s: State, d: nat)
    requires Reachable(c, s) && At(s, d, Erred)
    ensures !EndsTerminal(s.deliveries[d].view)
  {
    ReachableKeepsInv(c, s);
    assert PcOk(c, s.box, s.deliveries[d]);
  }

  lemma OthersLeaveAlone(c: Config, s: State, step: Step, d: nat)
    requires Enabled(c, s, step) && !IsBy(step, d) && d in s.deliveries
    ensures d in Apply(c, s, step).deliveries && Apply(c, s, step).deliveries[d] == s.deliveries[d]
  {
  }
}

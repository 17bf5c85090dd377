// Inv is inductive: every step of every interleaving keeps it.
module NativeSafety {
  import opened Events
  import opened Reducer
  import opened Store
  import opened OutputFiles
  import opened Sandbox
  import opened NativeProtocol

  lemma ActionCall(log: Log, maxIterations: nat)
    requires Numbered(log) && NextAction(log, maxIterations).ExecTool?
    ensures var a := NextAction(log, maxIterations); CallAt(log, a.key, a.call)
  {
  }

  lemma PrefixNumbered(view: Log, log: Log)
    requires view <= log && Numbered(log)
    ensures Numbered(view) && LastSeq(view) == |view|
  {
  }

  // The view-prefix invariant at work: the insert wins exactly when the view is the whole log.
  lemma AppendEffect(s: State, d: nat, p: Payload, acked: bool, after: Pc)
    requires ViewsArePrefixes(s) && d in s.deliveries
    ensures var view := s.deliveries[d].view; var e := Event(LastSeq(view) + 1, p);
      && (Taken(s.rows, e) <==> view != LogIn(s))
      && (!Taken(s.rows, e) ==>
            && LogIn(Append(s, d, p, acked, after)) == LogIn(s) + [e]
            && ViewsArePrefixes(Append(s, d, p, acked, after)))
      && (Taken(s.rows, e) ==> Append(s, d, p, acked, after) == Move(s, d, Gone))
  {
    DenseReadAll(s.rows);
    ConditionalAppend(s.rows, s.deliveries[d].view, Event(LastSeq(s.deliveries[d].view) + 1, p));
    if !Taken(s.rows, Event(LastSeq(s.deliveries[d].view) + 1, p)) { DenseReadAll(Append(s, d, p, acked, after).rows); }
  }

  lemma ExternalEffect(s: State, p: Payload)
    requires ViewsArePrefixes(s)
    ensures var s' := AppendExternal(s, p);
      LogIn(s') == LogIn(s) + [Event(|LogIn(s)| + 1, p)] && ViewsArePrefixes(s')
  {
    TransactionalAppend(s.rows, p);
  }

  lemma PrescribedPush(c: Config, log: Log, external: seq<bool>, e: Event, ext: bool)
    requires Prescribed(c, log, external) && Prescribes(c, log, e.payload, ext)
    ensures Prescribed(c, log + [e], external + [ext])
  {
    var log' := log + [e];
    forall i | 0 <= i < |log'| ensures PrescribedAt(c, log', external + [ext], i) {
      if i < |log| {
        assert PrescribedAt(c, log, external, i) && log'[..i] == log[..i];
      } else {
        assert log'[..i] == log;
      }
    }
  }

  // A new row keeps everything said about the log and the sandbox.
  lemma LogGrows(c: Config, s: State, s': State, e: Event, ext: bool)
    requires Inv(c, s)
    requires s'.box == s.box && LogIn(s') == LogIn(s) + [e] && s'.external == s.external + [ext]
    requires Prescribes(c, LogIn(s), e.payload, ext)
    requires e.payload.ToolResult? ==> BoxReports(s.box, e.payload.idemKey, e.payload.result)
    ensures BoxFollowsLog(s'.box, LogIn(s'))
    ensures ResultsReported(s'.box, LogIn(s'))
    ensures Prescribed(c, LogIn(s'), s'.external)
  {
    BoxFollowsLonger(s.box, LogIn(s), LogIn(s'));
    PrescribedPush(c, LogIn(s), s.external, e, ext);
  }

  lemma MoveKeepsInv(c: Config, s: State, d: nat, pc: Pc)
    requires Inv(c, s) && d in s.deliveries && !pc.Locked?
    requires PcOk(c, s.box, s.deliveries[d].(pc := pc))
    ensures Inv(c, Move(s, d, pc))
  {
  }

  // A won append moves only its own delivery, to a pc that is fine with any view.
  lemma WonAppendKeepsPcs(c: Config, s: State, d: nat, p: Payload, acked: bool, after: Pc)
    requires PcsOk(c, s) && d in s.deliveries && (after == Ready || after == Gone)
    requires NextAction(s.deliveries[d].view, c.maxIterations) != Noop
    requires !Taken(s.rows, Event(LastSeq(s.deliveries[d].view) + 1, p))
    ensures PcsOk(c, Append(s, d, p, acked, after))
  {
    var s' := Append(s, d, p, acked, after);
    forall x | x in s'.deliveries ensures PcOk(c, s'.box, s'.deliveries[x]) {
      if x != d { assert s'.deliveries[x] == s.deliveries[x]; }
    }
  }

  lemma AppendKeepsInv(c: Config, s: State, d: nat, p: Payload, acked: bool, after: Pc)
    requires Inv(c, s) && d in s.deliveries && (after == Ready || after == Gone)
    requires NextAction(s.deliveries[d].view, c.maxIterations) != Noop
    requires Prescribes(c, s.deliveries[d].view, p, false)
    requires p.ToolResult? ==> BoxReports(s.box, p.idemKey, p.result)
    ensures Inv(c, Append(s, d, p, acked, after))
  {
    var e := Event(LastSeq(s.deliveries[d].view) + 1, p);
    AppendEffect(s, d, p, acked, after);
    if Taken(s.rows, e) {
      MoveKeepsInv(c, s, d, Gone);
    } else {
      WonAppendKeepsPcs(c, s, d, p, acked, after);
      LogGrows(c, s, Append(s, d, p, acked, after), e, false);
    }
  }

  lemma ExternalKeepsInv(c: Config, s: State, p: Payload)
    requires Inv(c, s) && Prescribes(c, LogIn(s), p, true)
    ensures Inv(c, AppendExternal(s, p))
  {
    ExternalEffect(s, p);
    LogGrows(c, s, AppendExternal(s, p), Event(|LogIn(s)| + 1, p), true);
  }

  lemma BoxLaterPc(c: Config, box: Box, box': Box, dv: Delivery)
    requires PcOk(c, box, dv) && BoxLater(box, box')
    requires dv.pc.Locked? ==> dv.pc.key in box'.dirs && box'.dirs[dv.pc.key] == Made
    ensures PcOk(c, box', dv)
  {
    if dv.pc.Observed? { ReportsPersist(box, box', dv.pc.key, dv.pc.res); }
  }

  lemma MadeKeepsOutcomes(c: Config, box: Box, key: IdemKey)
    requires OutcomesOk(c, box) && key !in box.dirs
    ensures OutcomesOk(c, MakeDir(box, key))
  {
    forall k, res | BoxReports(MakeDir(box, key), k, res) ensures c.resultOk(k, res) {
      assert BoxReports(box, k, res);
    }
  }

  lemma SpawnKeepsOutcomes(c: Config, box: Box, key: IdemKey, call: ToolCall)
    requires OutcomesOk(c, box)
    ensures OutcomesOk(c, SpawnIn(box, key, call))
  {
    forall k, res | BoxReports(SpawnIn(box, key, call), k, res) ensures c.resultOk(k, res) {
      assert BoxReports(box, k, res);
    }
  }

  lemma EvolveKeepsOutcomes(c: Config, box: Box, key: IdemKey, files: Files)
    requires OutcomesOk(c, box) && CanEvolve(box, key, files)
    requires files.exit.Stamped? ==> c.resultOk(key, Report(files))
    ensures OutcomesOk(c, Evolve(box, key, files))
  {
    forall k, res | BoxReports(Evolve(box, key, files), k, res) ensures c.resultOk(k, res) {
      if k != key { assert BoxReports(box, k, res); }
    }
  }

  // A delivery about to run a command runs the command the shared log holds under its key.
  lemma ViewCall(c: Config, s: State, d: nat)
    requires ViewsArePrefixes(s) && d in s.deliveries && Next(c, s, d).ExecTool?
    ensures CallAt(LogIn(s), Next(c, s, d).key, Next(c, s, d).call)
  {
    var a := Next(c, s, d);
    DenseReadAll(s.rows);
    PrefixNumbered(s.deliveries[d].view, LogIn(s));
    ActionCall(s.deliveries[d].view, c.maxIterations);
    CallPersists(s.deliveries[d].view, LogIn(s), a.key, a.call);
  }

  // Other deliveries stay fine in a later sandbox; `key` may leave Made only if none of them holds it.
  lemma PcsInLaterBox(c: Config, s: State, box': Box, d: nat, pc: Pc)
    requires PcsOk(c, s) && BoxLater(s.box, box') && d in s.deliveries
    requires PcOk(c, box', s.deliveries[d].(pc := pc))
    requires forall x :: x in s.deliveries && x != d && s.deliveries[x].pc.Locked? ==>
               && s.deliveries[x].pc.key in box'.dirs && box'.dirs[s.deliveries[x].pc.key] == Made
               && s.deliveries[x].pc != pc
    ensures PcsOk(c, Move(s.(box := box'), d, pc))
  {
    forall x | x in s.deliveries && x != d ensures PcOk(c, box', s.deliveries[x]) {
      BoxLaterPc(c, s.box, box', s.deliveries[x]);
    }
  }

  // A new sandbox state, together with what the log says about it.
  ghost predicate BoxOk(c: Config, box: Box, log: Log) {
    BoxFollowsLog(box, log) && OutcomesOk(c, box) && ResultsReported(box, log)
  }

  lemma MadeBoxOk(c: Config, box: Box, log: Log, key: IdemKey, call: ToolCall)
    requires BoxOk(c, box, log) && key !in box.dirs && CallAt(log, key, call)
    ensures BoxOk(c, MakeDir(box, key), log) && BoxLater(box, MakeDir(box, key))
  {
    MadeFollowsLog(box, log, key, call);
    MadeKeepsOutcomes(c, box, key);
    ResultsPersist(box, MakeDir(box, key), log);
  }

  lemma SpawnedBoxOk(c: Config, box: Box, log: Log, key: IdemKey, call: ToolCall)
    requires BoxOk(c, box, log) && key in box.dirs && box.dirs[key] == Made && CallAt(log, key, call)
    ensures BoxOk(c, SpawnIn(box, key, call), log) && BoxLater(box, SpawnIn(box, key, call))
  {
    SpawnFollowsLog(box, log, key, call);
    SpawnKeepsOutcomes(c, box, key, call);
    ResultsPersist(box, SpawnIn(box, key, call), log);
  }

  lemma MkdirKeepsPcs(c: Config, s: State, d: nat, key: IdemKey, call: ToolCall)
    requires PcsOk(c, s) && At(s, d, Ready) && Next(c, s, d) == ExecTool(call, key) && key !in s.box.dirs
    requires BoxLater(s.box, MakeDir(s.box, key))
    ensures PcsOk(c, Move(s.(box := MakeDir(s.box, key)), d, Locked(key, call)))
  {
    LockedKeysMade(c, s);
    PcsInLaterBox(c, s, MakeDir(s.box, key), d, Locked(key, call));
  }

  lemma MkdirKeepsInv(c: Config, s: State, d: nat)
    requires Inv(c, s) && Enabled(c, s, MkdirKey(d))
    ensures Inv(c, Apply(c, s, MkdirKey(d)))
  {
    var ExecTool(call, key) := Next(c, s, d);
    if key in s.box.dirs {
      MoveKeepsInv(c, s, d, Tailing(key));
    } else {
      ViewCall(c, s, d);
      MadeBoxOk(c, s.box, LogIn(s), key, call);
      MkdirKeepsPcs(c, s, d, key, call);
    }
  }

  lemma LockedKeysMade(c: Config, s: State)
    requires PcsOk(c, s)
    ensures forall x :: x in s.deliveries && s.deliveries[x].pc.Locked? ==>
              s.deliveries[x].pc.key in s.box.dirs && s.box.dirs[s.deliveries[x].pc.key] == Made
  {
    forall x | x in s.deliveries && s.deliveries[x].pc.Locked?
      ensures s.deliveries[x].pc.key in s.box.dirs && s.box.dirs[s.deliveries[x].pc.key] == Made
    {
      assert PcOk(c, s.box, s.deliveries[x]);
    }
  }

  // Two holders of one lock would have read the same call, so they would be the same delivery.
  lemma LockHeldOnce(c: Config, s: State, d: nat, x: nat)
    requires ViewsArePrefixes(s) && PcsOk(c, s) && d in s.deliveries && x in s.deliveries && d != x
    requires s.deliveries[d].pc.Locked? && s.deliveries[x].pc.Locked?
    ensures s.deliveries[x].pc.key != s.deliveries[d].pc.key
  {
    assert PcOk(c, s.box, s.deliveries[d]) && PcOk(c, s.box, s.deliveries[x]);
    ViewCall(c, s, d);
    ViewCall(c, s, x);
  }

  lemma SpawnKeepsPcs(c: Config, s: State, d: nat, key: IdemKey, call: ToolCall)
    requires ViewsArePrefixes(s) && PcsOk(c, s) && At(s, d, Locked(key, call))
    requires BoxLater(s.box, SpawnIn(s.box, key, call))
    ensures PcsOk(c, Move(s.(box := SpawnIn(s.box, key, call)), d, Tailing(key)))
  {
    assert PcOk(c, s.box, s.deliveries[d]);
    LockedKeysMade(c, s);
    forall x | x in s.deliveries && x != d && s.deliveries[x].pc.Locked?
      ensures s.deliveries[x].pc.key != key
    {
      LockHeldOnce(c, s, d, x);
    }
    PcsInLaterBox(c, s, SpawnIn(s.box, key, call), d, Tailing(key));
  }

  lemma SpawnKeepsInv(c: Config, s: State, d: nat)
    requires Inv(c, s) && Enabled(c, s, SpawnCommand(d))
    ensures Inv(c, Apply(c, s, SpawnCommand(d)))
  {
    var Locked(key, call) := s.deliveries[d].pc;
    assert PcOk(c, s.box, s.deliveries[d]);
    ViewCall(c, s, d);
    SpawnedBoxOk(c, s.box, LogIn(s), key, call);
    SpawnKeepsPcs(c, s, d, key, call);
  }

  lemma PcsWhileCommandRuns(c: Config, s: State, key: IdemKey, files: Files)
    requires PcsOk(c, s) && CanEvolve(s.box, key, files) && BoxLater(s.box, Evolve(s.box, key, files))
    ensures PcsOk(c, s.(box := Evolve(s.box, key, files)))
  {
    LockedKeysMade(c, s);
    forall x | x in s.deliveries ensures PcOk(c, Evolve(s.box, key, files), s.deliveries[x]) {
      BoxLaterPc(c, s.box, Evolve(s.box, key, files), s.deliveries[x]);
    }
  }

  lemma CommandKeepsInv(c: Config, s: State, key: IdemKey, files: Files)
    requires Inv(c, s) && Enabled(c, s, CommandActs(key, files))
    ensures Inv(c, Apply(c, s, CommandActs(key, files)))
  {
    EvolveFollowsLog(s.box, LogIn(s), key, files);
    EvolveKeepsOutcomes(c, s.box, key, files);
    ResultsPersist(s.box, Evolve(s.box, key, files), LogIn(s));
    PcsWhileCommandRuns(c, s, key, files);
  }

  lemma InvInit(c: Config)
    ensures Inv(c, Init)
  {
    DenseReadAll(Init.rows);
  }

  // What is due is what the reducer prescribes for the view.
  lemma DueIsPrescribed(c: Config, s: State, d: nat)
    requires Inv(c, s) && d in s.deliveries && DueAppend(c, s.deliveries[d]).Some?
    ensures var Due(p, after) := DueAppend(c, s.deliveries[d]).value;
      && Next(c, s, d) != Noop && Prescribes(c, s.deliveries[d].view, p, false)
      && (p.ToolResult? ==> BoxReports(s.box, p.idemKey, p.result))
  {
    assert PcOk(c, s.box, s.deliveries[d]);
    if s.deliveries[d].pc.Observed? {
      assert c.resultOk(s.deliveries[d].pc.key, s.deliveries[d].pc.res);
    }
  }

  lemma AppendNextKeepsInv(c: Config, s: State, d: nat, acked: bool)
    requires Inv(c, s) && Enabled(c, s, AppendNext(d, acked))
    ensures Inv(c, Apply(c, s, AppendNext(d, acked)))
  {
    var Due(p, after) := DueAppend(c, s.deliveries[d]).value;
    DueIsPrescribed(c, s, d);
    AppendKeepsInv(c, s, d, p, acked, after);
  }

  lemma AppendFailureKeepsInv(c: Config, s: State, d: nat, cls: ErrorClass, acked: bool)
    requires Inv(c, s) && Enabled(c, s, AppendFailure(d, cls, acked))
    ensures Inv(c, Apply(c, s, AppendFailure(d, cls, acked)))
  {
    assert PcOk(c, s.box, s.deliveries[d]);
    AppendKeepsInv(c, s, d, TurnFailed(cls), acked, Gone);
  }

  lemma DeliverKeepsInv(c: Config, s: State, d: nat)
    requires Inv(c, s) && Enabled(c, s, Deliver(d))
    ensures Inv(c, Apply(c, s, Deliver(d)))
  {
  }

  lemma SeeExitKeepsInv(c: Config, s: State, d: nat)
    requires Inv(c, s) && Enabled(c, s, SeeExit(d))
    ensures Inv(c, Apply(c, s, SeeExit(d)))
  {
    var key := s.deliveries[d].pc.key;
    assert PcOk(c, s.box, s.deliveries[d]);
    MoveKeepsInv(c, s, d, Observed(key, Report(s.box.dirs[key].files)));
  }

  lemma InvNext(c: Config, s: State, step: Step)
    requires Inv(c, s) && Enabled(c, s, step)
    ensures Inv(c, Apply(c, s, step))
  {
    match step
    case SendMessage(content) => ExternalKeepsInv(c, s, UserMessage(content));
    case ProvisionCommit => ExternalKeepsInv(c, s, SessionProvisioned);
    case ProvisionFail => ExternalKeepsInv(c, s, TurnFailed(SandboxFatal));
    case Deliver(d) => DeliverKeepsInv(c, s, d);
    case ModelReplies(d, reply) => MoveKeepsInv(c, s, d, Replied(reply));
    case AppendNext(d, acked) => AppendNextKeepsInv(c, s, d, acked);
    case AppendFailure(d, cls, acked) => AppendFailureKeepsInv(c, s, d, cls, acked);
    case MkdirKey(d) => MkdirKeepsInv(c, s, d);
    case SpawnCommand(d) => SpawnKeepsInv(c, s, d);
    case SeeExit(d) => SeeExitKeepsInv(c, s, d);
    case Reboot(d) => MoveKeepsInv(c, s, d, Ready);
    case Raise(d) => MoveKeepsInv(c, s, d, Erred);
    case Leave(d) => MoveKeepsInv(c, s, d, Gone);
    case CommandActs(key, files) => CommandKeepsInv(c, s, key, files);
  }
}

// One session's life: messages, provisioning, archiving and the gate of its turns, over the job
// queue (packages/sessions/src/service.ts, packages/sessions/src/provision.ts and the gate in
// packages/sessions/src/turn.ts).  The queue and the log are shared by any number of workers.
module Sessions {
  import opened Events
  import opened Reducer
  import opened Queue

  datatype Status = Provisioning | ReadyToRun | SessionFailed | Archived

  // The session this machine follows; the queue also holds other sessions' jobs.
  const SESSION: nat := 0

  // Where a provision delivery stands: claimed, past its status check, or inside its transaction with
  // the last seq it read.
  datatype ProvisionPc = Taken | Working | InTx(lastSeq: nat, succeeds: bool) | ProvisionOver

  // Where a turn delivery stands: claimed, past the gate, or holding the log it read.
  datatype TurnPc = Picked | PastGate | Looking(view: Log) | TurnOver

  // archived: archived_at is set.  external records, row by row, which appends came from the API or the
  // provisioner.
  datatype State = State(
    status: Status, archived: bool, hasHandle: bool, log: Log, external: seq<bool>, jobs: Jobs,
    provisions: map<nat, ProvisionPc>, turns: map<nat, TurnPc>)

  predicate IsProvisionJob(j: Job) { j.session == SESSION && j.kind == ProvisionJob }

  // create: the session row and its provision job, one transaction.
  predicate IsInit(s: State) {
    && s.status == Provisioning && !s.archived && !s.hasHandle && s.log == [] && s.external == []
    && s.provisions == map[] && s.turns == map[]
    && (forall id :: id in s.jobs ==>
          && s.jobs[id].state == Queued && s.jobs[id].attempts == 0
          && !(s.jobs[id].session == SESSION && s.jobs[id].kind == TurnJob))
    && (exists id :: id in s.jobs && IsProvisionJob(s.jobs[id]))
    && (forall id, id' ::
          id in s.jobs && id' in s.jobs && IsProvisionJob(s.jobs[id]) && IsProvisionJob(s.jobs[id']) ==> id == id')
  }

  datatype Step =
    | Send(content: seq<string>, id: nat, maxAttempts: nat, runAt: int)
    | TakeTurn(w: nat, id: nat, now: int)
    | TakeProvision(w: nat, id: nat, now: int)
    | QueueStep(op: Op)
    | Archive
    | ProvisionGate(w: nat)
    | ReadLastSeq(w: nat, succeeds: bool)
    | CloseProvision(w: nat)
    | ProvisionGivesUp(w: nat)
    | TurnGate(w: nat)
    | TurnReads(w: nat)
    | TurnAppends(w: nat, p: Payload)
    | TurnGone(w: nat)

  predicate MayTake(s: State, w: nat, id: nat, now: int, kind: JobKind) {
    && w !in s.provisions && w !in s.turns
    && Can(s.jobs, PullOp(id, now)) && s.jobs[id].session == SESSION && s.jobs[id].kind == kind
  }

  predicate TurnAt(s: State, w: nat, pc: TurnPc) { w in s.turns && s.turns[w] == pc }

  predicate ProvisionAt(s: State, w: nat, pc: ProvisionPc) { w in s.provisions && s.provisions[w] == pc }

  predicate Enabled(s: State, step: Step) {
    match step
    case Send(_, id, _, _) =>
      (s.status == Provisioning || s.status == ReadyToRun) && !HasActiveTurnIn(s.jobs, SESSION) && id !in s.jobs
    case TakeTurn(w, id, now) => MayTake(s, w, id, now, TurnJob)
    case TakeProvision(w, id, now) => MayTake(s, w, id, now, ProvisionJob)
    case QueueStep(op) => Can(s.jobs, op) && (op.EnqueueOp? ==> op.job.session != SESSION)
    case Archive => true
    case ProvisionGate(w) => ProvisionAt(s, w, Taken)
    case ReadLastSeq(w, _) => ProvisionAt(s, w, Working)
    case CloseProvision(w) => w in s.provisions && s.provisions[w].InTx?
    case ProvisionGivesUp(w) => w in s.provisions
    case TurnGate(w) => TurnAt(s, w, Picked)
    case TurnReads(w) => TurnAt(s, w, PastGate)
    case TurnAppends(w, p) => w in s.turns && s.turns[w].Looking? && !p.UserMessage? && !p.SessionProvisioned?
    case TurnGone(w) => w in s.turns
  }

  function Logged(log: Log, p: Payload): Log { log + [Event(|log| + 1, p)] }

  // The closing transaction: status, handle and event together, or nothing once another event has
  // taken the seq it read.
  predicate Closes(s: State, w: nat) {
    w in s.provisions && s.provisions[w].InTx? && s.provisions[w].lastSeq == |s.log|
  }

  function Wrote(s: State, p: Payload, ext: bool): State { s.(log := Logged(s.log, p), external := s.external + [ext]) }

  function Apply(s: State, step: Step): State
    requires Enabled(s, step)
  {
    match step
    case Send(content, id, maxAttempts, runAt) =>
      Wrote(s, UserMessage(content), true).(
         jobs := Do(s.jobs, EnqueueOp(id, NewJob(SESSION, TurnJob, maxAttempts, runAt))))
    case TakeTurn(w, id, now) => s.(jobs := Do(s.jobs, PullOp(id, now)), turns := s.turns[w := Picked])
    case TakeProvision(w, id, now) => s.(jobs := Do(s.jobs, PullOp(id, now)), provisions := s.provisions[w := Taken])
    case QueueStep(op) => s.(jobs := Do(s.jobs, op))
    case Archive => if s.archived then s else s.(status := Archived, archived := true)
    case ProvisionGate(w) =>
      s.(provisions := s.provisions[w := if s.status == Provisioning then Working else ProvisionOver])
    case ReadLastSeq(w, succeeds) => s.(provisions := s.provisions[w := InTx(|s.log|, succeeds)])
    case CloseProvision(w) =>
      var over := s.(provisions := s.provisions[w := ProvisionOver]);
      if !Closes(s, w) then over
      else if s.provisions[w].succeeds then
        Wrote(over, SessionProvisioned, true).(status := ReadyToRun, hasHandle := true)
      else Wrote(over, TurnFailed(SandboxFatal), true).(status := SessionFailed)
    case ProvisionGivesUp(w) => s.(provisions := s.provisions[w := ProvisionOver])
    case TurnGate(w) => s.(turns := s.turns[w := if s.status == ReadyToRun then PastGate else TurnOver])
    case TurnReads(w) => s.(turns := s.turns[w := Looking(s.log)])
    case TurnAppends(_, p) => Wrote(s, p, false)
    case TurnGone(w) => s.(turns := s.turns[w := TurnOver])
  }

  // ---------------------------------------------------------------------- invariant

  predicate Has(log: Log, k: Kind) { LastIndex(log, k) >= 0 }

  // At most one turn job of the session is queued or running.
  ghost predicate OneActiveTurn(jobs: Jobs) { OneActive(jobs, SESSION) }

  ghost predicate TurnJobsFollowMessages(s: State) {
    && (forall id :: id in s.jobs && s.jobs[id].session == SESSION && s.jobs[id].kind == TurnJob ==> Has(s.log, User))
    && (forall w :: w in s.turns ==> Has(s.log, User))
  }

  ghost predicate GatedTurnsAreSafe(s: State) {
    && (s.status == ReadyToRun ==> s.hasHandle && Has(s.log, Provisioned))
    && (forall w :: w in s.turns && (s.turns[w].PastGate? || s.turns[w].Looking?) ==>
          s.hasHandle && Has(s.log, Provisioned))
    && (forall w :: w in s.turns && s.turns[w].Looking? ==>
          Has(s.turns[w].view, User) && Has(s.turns[w].view, Provisioned))
  }

  ghost predicate ReadsArePast(s: State) {
    forall w :: w in s.provisions && s.provisions[w].InTx? ==> s.provisions[w].lastSeq <= |s.log|
  }

  predicate OnlyMessages(log: Log) { forall i :: 0 <= i < |log| ==> log[i].payload.UserMessage? }

  // As long as the log holds nothing but messages nobody has closed the provisioning.
  ghost predicate StatusFits(s: State) {
    && (s.status == Provisioning ==> OnlyMessages(s.log))
    && (s.status == ReadyToRun || s.status == SessionFailed ==> !OnlyMessages(s.log))
    && (s.status == Archived ==> s.archived)
  }

  // Outside rows are messages and provisioning; a turn writes only behind a session_provisioned.
  ghost predicate ProvisionedFirst(log: Log, external: seq<bool>) {
    && |external| == |log|
    && (forall k :: 0 <= k < |log| && !external[k] ==> exists p :: 0 <= p < k && IsProvisioning(log, external, p))
    && (forall k :: 0 <= k < |log| && log[k].payload.SessionProvisioned? ==> external[k])
  }

  ghost predicate RunningLeased(jobs: Jobs) {
    forall id :: id in jobs && jobs[id].state == Running ==> jobs[id].lease.Some?
  }

  ghost predicate Inv(s: State) {
    && ReadsArePast(s)
    && DeadAreSpent(s.jobs) && RunningLeased(s.jobs)
    && OneActiveTurn(s.jobs)
    && TurnJobsFollowMessages(s)
    && GatedTurnsAreSafe(s)
    && StatusFits(s)
    && ProvisionedFirst(s.log, s.external)
  }

  lemma HasMore(log: Log, p: Payload, k: Kind)
    ensures Has(Logged(log, p), k) <==> Has(log, k) || KindOf(p) == k
  {
    assert Logged(log, p)[..|log|] == log;
  }

  lemma LoggedKeepsHas(log: Log, p: Payload)
    ensures forall k :: Has(Logged(log, p), k) <==> Has(log, k) || KindOf(p) == k
  {
    forall k ensures Has(Logged(log, p), k) <==> Has(log, k) || KindOf(p) == k { HasMore(log, p, k); }
  }

  // What the queue alone may do to the session's turn jobs.
  lemma OpKeepsOneActive(jobs: Jobs, op: Op)
    requires DeadAreSpent(jobs) && OneActiveTurn(jobs) && Can(jobs, op)
    requires op.EnqueueOp? && op.job.session == SESSION && op.job.kind == TurnJob ==> !HasActiveTurnIn(jobs, SESSION)
    ensures DeadAreSpent(Do(jobs, op)) && OneActiveTurn(Do(jobs, op))
    ensures RunningLeased(jobs) ==> RunningLeased(Do(jobs, op))
  {
    assert forall id ::
      id in jobs && id in Do(jobs, op) && IsActiveTurn(Do(jobs, op)[id], SESSION) ==> IsActiveTurn(jobs[id], SESSION);
  }

  lemma InvInit(s: State)
    requires IsInit(s)
    ensures Inv(s)
  {
  }

  lemma QueueStepKeepsInv(s: State, op: Op, s': State)
    requires Inv(s) && Can(s.jobs, op) && s'.jobs == Do(s.jobs, op) && s'.log == s.log
    requires op.EnqueueOp? ==> op.job.session != SESSION
    ensures DeadAreSpent(s'.jobs) && OneActiveTurn(s'.jobs) && RunningLeased(s'.jobs)
    ensures forall id ::
      id in s'.jobs && s'.jobs[id].session == SESSION && s'.jobs[id].kind == TurnJob ==> Has(s'.log, User)
  {
    OpKeepsOneActive(s.jobs, op);
  }

  // One more row from outside, or from a turn that follows a session_provisioned.
  lemma RowKeepsFirst(log: Log, external: seq<bool>, p: Payload, ext: bool)
    requires ProvisionedFirst(log, external) && (p.SessionProvisioned? ==> ext)
    requires ext || Has(log, Provisioned)
    ensures ProvisionedFirst(Logged(log, p), external + [ext])
  {
    var log', external' := Logged(log, p), external + [ext];
    forall k | 0 <= k < |log'| && !external'[k] ensures exists q :: 0 <= q < k && IsProvisioning(log', external', q) {
      if k < |log| {
        var q :| 0 <= q < k && IsProvisioning(log, external, q);
        assert IsProvisioning(log', external', q);
      } else {
        assert IsProvisioning(log', external', LastIndex(log, Provisioned));
      }
    }
  }

  lemma MessagesMore(log: Log, p: Payload)
    ensures OnlyMessages(Logged(log, p)) <==> OnlyMessages(log) && p.UserMessage?
  {
    var log' := Logged(log, p);
    assert log'[|log|].payload == p;
    assert forall i :: 0 <= i < |log| ==> log'[i] == log[i];
  }

  lemma SendKeepsInv(s: State, content: seq<string>, id: nat, maxAttempts: nat, runAt: int)
    requires Inv(s) && Enabled(s, Send(content, id, maxAttempts, runAt))
    ensures Inv(Apply(s, Send(content, id, maxAttempts, runAt)))
  {
    LoggedKeepsHas(s.log, UserMessage(content));
    MessagesMore(s.log, UserMessage(content));
    RowKeepsFirst(s.log, s.external, UserMessage(content), true);
    OpKeepsOneActive(s.jobs, EnqueueOp(id, NewJob(SESSION, TurnJob, maxAttempts, runAt)));
  }

  lemma TakeKeepsInv(s: State, step: Step)
    requires Inv(s) && Enabled(s, step) && (step.TakeTurn? || step.TakeProvision?)
    ensures Inv(Apply(s, step))
  {
    QueueStepKeepsInv(s, PullOp(step.id, step.now), Apply(s, step));
  }

  lemma AppendKeepsInv(s: State, p: Payload, ext: bool, s': State)
    requires Inv(s)
    requires s' == Wrote(s, p, ext).(status := s'.status, hasHandle := s'.hasHandle, provisions := s'.provisions)
    requires s.hasHandle ==> s'.hasHandle
    requires s'.status == ReadyToRun ==> s.status == ReadyToRun || (s'.hasHandle && p.SessionProvisioned?)
    requires s'.status != Provisioning
    requires s'.status == Archived ==> s.archived
    requires ReadsArePast(s') && !p.UserMessage?
    requires (p.SessionProvisioned? ==> ext) && (ext || Has(s.log, Provisioned))
    ensures Inv(s')
  {
    LoggedKeepsHas(s.log, p);
    MessagesMore(s.log, p);
    RowKeepsFirst(s.log, s.external, p, ext);
  }

  lemma CloseKeepsInv(s: State, w: nat)
    requires Inv(s) && Enabled(s, CloseProvision(w))
    ensures Inv(Apply(s, CloseProvision(w)))
  {
    var s' := Apply(s, CloseProvision(w));
    if Closes(s, w) {
      AppendKeepsInv(s, if s.provisions[w].succeeds then SessionProvisioned else TurnFailed(SandboxFatal), true, s');
    }
  }

  // A turn that appends has seen the session provisioned.
  lemma TurnAppendKeepsInv(s: State, w: nat, p: Payload)
    requires Inv(s) && Enabled(s, TurnAppends(w, p))
    ensures Inv(Apply(s, TurnAppends(w, p)))
  {
    HasIsNoMessage(s.log, Provisioned);
    AppendKeepsInv(s, p, false, Apply(s, TurnAppends(w, p)));
  }

  lemma HasIsNoMessage(log: Log, k: Kind)
    requires Has(log, k) && k != User
    ensures !OnlyMessages(log)
  {
    assert !log[LastIndex(log, k)].payload.UserMessage?;
  }

  lemma TurnStepKeepsInv(s: State, step: Step)
    requires Inv(s) && Enabled(s, step) && (step.TurnGate? || step.TurnReads? || step.TurnGone?)
    ensures Inv(Apply(s, step))
  {
  }

  lemma ProvisionStepKeepsInv(s: State, step: Step)
    requires Inv(s) && Enabled(s, step)
    requires step.Archive? || step.ProvisionGate? || step.ReadLastSeq? || step.ProvisionGivesUp?
    ensures Inv(Apply(s, step))
  {
  }

  lemma InvNext(s: State, step: Step)
    requires Inv(s) && Enabled(s, step)
    ensures Inv(Apply(s, step))
  {
    match step
    case Send(content, id, maxAttempts, runAt) => SendKeepsInv(s, content, id, maxAttempts, runAt);
    case TakeTurn(_, _, _) => TakeKeepsInv(s, step);
    case TakeProvision(_, _, _) => TakeKeepsInv(s, step);
    case QueueStep(op) => QueueStepKeepsInv(s, op, Apply(s, step));
    case CloseProvision(w) => CloseKeepsInv(s, w);
    case TurnAppends(w, p) => TurnAppendKeepsInv(s, w, p);
    case TurnGate(_) => TurnStepKeepsInv(s, step);
    case TurnReads(_) => TurnStepKeepsInv(s, step);
    case TurnGone(_) => TurnStepKeepsInv(s, step);
    case _ => ProvisionStepKeepsInv(s, step);
  }

  // --------------------------------------------------------------------------- runs

  ghost predicate StepAt(run: seq<State>, steps: seq<Step>, i: nat)
    requires |run| == |steps| + 1 && i < |steps|
  {
    Enabled(run[i], steps[i]) && run[i + 1] == Apply(run[i], steps[i])
  }

  // A run from any state on.
  ghost predicate Continues(run: seq<State>, steps: seq<Step>) {
    && |run| == |steps| + 1
    && forall i :: 0 <= i < |steps| ==> StepAt(run, steps, i)
  }

  ghost predicate IsRun(run: seq<State>, steps: seq<Step>) { Continues(run, steps) && IsInit(run[0]) }

  lemma {:induction false} RunsKeepInv(run: seq<State>, steps: seq<Step>, n: nat)
    requires IsRun(run, steps) && n < |run|
    ensures Inv(run[n])
  {
    if n == 0 {
      InvInit(run[0]);
    } else {
      RunsKeepInv(run, steps, n - 1);
      assert StepAt(run, steps, n - 1);
      InvNext(run[n - 1], steps[n - 1]);
    }
  }

  // One active turn: over all sends, claims, heartbeats, acks, nacks and lease expiries.
  lemma NeverTwoActiveTurns(run: seq<State>, steps: seq<Step>, n: nat)
    requires IsRun(run, steps) && n < |run|
    ensures OneActiveTurn(run[n].jobs) && DeadAreSpent(run[n].jobs)
  {
    RunsKeepInv(run, steps, n);
  }

  lemma ReducerIsTotalOn(view: Log, maxIterations: nat)
    requires Has(view, User)
    ensures NextAction(view, maxIterations) != Throws
  {
  }

  // Past the gate a turn has a user message, a provisioned sandbox and its handle, and neither on what it
  // reads nor on anything that view grows into does the reducer throw.
  lemma GatedTurnsAreComplete(run: seq<State>, steps: seq<Step>, n: nat, w: nat, maxIterations: nat)
    requires IsRun(run, steps) && n < |run| && w in run[n].turns && run[n].turns[w].Looking?
    ensures run[n].hasHandle
    ensures var view := run[n].turns[w].view;
      && Has(view, User) && Has(view, Provisioned)
      && forall later :: view <= later ==> NextAction(later, maxIterations) != Throws
  {
    RunsKeepInv(run, steps, n);
    var view := run[n].turns[w].view;
    forall later | view <= later ensures NextAction(later, maxIterations) != Throws {
      HasStays(view, later, User);
      ReducerIsTotalOn(later, maxIterations);
    }
  }

  lemma HasStays(view: Log, later: Log, k: Kind)
    requires Has(view, k) && view <= later
    ensures Has(later, k)
  {
    assert KindOf(later[LastIndex(view, k)].payload) == k;
  }
}

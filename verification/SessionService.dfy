// The imperative entry points over one session: sendMessage with its row lock and single retry
// (packages/sessions/src/service.ts), runProvision (packages/sessions/src/provision.ts) and the
// worker's outcome table (apps/worker/src/worker.ts).
module SessionService {
  import opened Prelude
  import opened Events
  import opened Queue
  import opened Sessions
  import opened Worker

  ghost predicate Reachable(s: State) {
    exists run, steps :: IsRun(run, steps) && run[|steps|] == s
  }

  lemma ReachableKeepsInv(s: State)
    requires Reachable(s)
    ensures Inv(s)
  {
    var run, steps :| IsRun(run, steps) && run[|steps|] == s;
    RunsKeepInv(run, steps, |steps|);
  }

  lemma ReachableNext(s: State, step: Step)
    requires Reachable(s) && Enabled(s, step)
    ensures Reachable(Apply(s, step))
  {
    var run, steps :| IsRun(run, steps) && run[|steps|] == s;
    var run', steps' := run + [Apply(s, step)], steps + [step];
    forall i | 0 <= i < |steps'| ensures StepAt(run', steps', i) {
      if i < |steps| { assert StepAt(run, steps, i); }
    }
    assert IsRun(run', steps') && run'[|steps'|] == Apply(s, step);
  }

  lemma ReachableInit(s: State)
    requires IsInit(s)
    ensures Reachable(s)
  {
    assert IsRun([s], []);
  }

  // What sendMessage answers: the seq, or why not.
  datatype Sent = TurnQueued(seqNo: nat) | NotAccepting | TurnInProgress | LostTheSeq

  // What provisioning meets: is there an environment, does the sandbox come up, does its transaction commit.
  datatype World = World(envFound: bool, sandboxUp: bool, committed: bool)

  // Steps that write the session row wait for whoever holds its lock.
  predicate TakesRowLock(step: Step) { step.Send? || step.Archive? || step.CloseProvision? }

  predicate IsProvisionBy(step: Step, w: nat) {
    (step.TakeProvision? || step.ProvisionGate? || step.ReadLastSeq? || step.CloseProvision? || step.ProvisionGivesUp?)
    && step.w == w
  }

  // The log only grows, statuses never return to provisioning, and a job id is used once.
  ghost predicate Later(s: State, s': State) {
    && s.log <= s'.log
    && (s.status != Provisioning ==> s'.status != Provisioning)
    && (s.hasHandle ==> s'.hasHandle)
  }

  lemma StepIsLater(s: State, step: Step)
    requires Enabled(s, step)
    ensures Later(s, Apply(s, step))
  {
  }

  predicate SendsAs(step: Step, id: nat) {
    || (step.Send? && step.id == id)
    || (step.QueueStep? && step.op.EnqueueOp? && step.op.id == id)
  }

  lemma OthersLeaveId(s: State, step: Step, id: nat)
    requires Enabled(s, step) && !SendsAs(step, id) && id !in s.jobs
    ensures id !in Apply(s, step).jobs
  {
  }

  lemma NoActiveStays(s: State, step: Step)
    requires Inv(s) && Enabled(s, step) && !step.Send? && !HasActiveTurnIn(s.jobs, SESSION)
    ensures !HasActiveTurnIn(Apply(s, step).jobs, SESSION)
  {
    var s' := Apply(s, step);
    forall id | id in s'.jobs ensures !IsActiveTurn(s'.jobs[id], SESSION) {
      if id in s.jobs { assert !IsActiveTurn(s.jobs[id], SESSION); }
    }
  }

  lemma OthersLeaveProvision(s: State, step: Step, w: nat)
    requires Enabled(s, step) && !IsProvisionBy(step, w) && w in s.provisions
    ensures w in Apply(s, step).provisions && Apply(s, step).provisions[w] == s.provisions[w]
  {
  }

  // The session is still provisioning exactly when it is not archived and its log holds only messages.
  predicate LogTells(s: State) { s.status == Provisioning <==> OnlyMessages(s.log) && s.status != Archived }

  lemma StillProvisioningIff(s: State)
    requires Reachable(s)
    ensures LogTells(s)
  {
    ReachableKeepsInv(s);
  }

  lemma ReadIsPast(s: State, w: nat)
    requires Reachable(s) && w in s.provisions && s.provisions[w].InTx?
    ensures s.provisions[w].lastSeq <= |s.log|
  {
    ReachableKeepsInv(s);
  }

  class Api {
    var s: State
    // Some database or sandbox call failed other than by conflict.
    var broke: bool

    constructor (s: State)
      requires IsInit(s)
      ensures Reachable(this.s) && this.s == s && !broke
    {
      this.s, broke := s, false;
      new;
      ReachableInit(s);
    }

    method Perform(step: Step)
      requires Reachable(s) && Enabled(s, step)
      modifies `s
      ensures s == Apply(old(s), step) && Reachable(s) && Later(old(s), s)
    {
      ReachableNext(s, step);
      StepIsLater(s, step);
      s := Apply(s, step);
    }

    // ------------------------------------------------------------------ sendMessage

    // Anyone does anything; job ids are unique.
    method Interfere(id: nat)
      requires Reachable(s) && id !in s.jobs
      modifies `s
      ensures Reachable(s) && id !in s.jobs && Later(old(s), s)
    {
      var schedule: seq<Step> := *;
      for i := 0 to |schedule|
        invariant Reachable(s) && id !in s.jobs && Later(old(s), s)
      {
        if Enabled(s, schedule[i]) && !SendsAs(schedule[i], id) {
          OthersLeaveId(s, schedule[i], id);
          Perform(schedule[i]);
        }
      }
    }

    // The same while this transaction holds the row lock.
    method InterfereLocked(id: nat)
      requires Reachable(s) && id !in s.jobs && !HasActiveTurnIn(s.jobs, SESSION)
      modifies `s
      ensures Reachable(s) && id !in s.jobs && Later(old(s), s)
      ensures !HasActiveTurnIn(s.jobs, SESSION) && s.status == old(s.status)
    {
      var schedule: seq<Step> := *;
      for i := 0 to |schedule|
        invariant Reachable(s) && id !in s.jobs && Later(old(s), s)
        invariant !HasActiveTurnIn(s.jobs, SESSION) && s.status == old(s.status)
      {
        if Enabled(s, schedule[i]) && !SendsAs(schedule[i], id) && !TakesRowLock(schedule[i]) {
          OthersLeaveId(s, schedule[i], id);
          ReachableKeepsInv(s);
          NoActiveStays(s, schedule[i]);
          Perform(schedule[i]);
        }
      }
    }

    // One transaction: lock the row, check, read the last seq, insert, enqueue.  A seq taken in
    // between rolls everything back.
    method TrySend(content: seq<string>, id: nat, maxAttempts: nat, runAt: int) returns (r: Sent)
      requires Reachable(s) && id !in s.jobs
      modifies `s
      ensures Reachable(s) && Later(old(s), s)
      ensures r.TurnQueued? ==> SentAt(r.seqNo, content, id, maxAttempts, runAt)
      ensures !r.TurnQueued? ==> id !in s.jobs
      ensures r.LostTheSeq? ==> |s.log| > |old(s).log|
      ensures r.TurnInProgress? ==> exists x ::
        x in s.jobs && s.jobs[x].session == SESSION && s.jobs[x].kind == TurnJob && s.jobs[x].state != Dead
      ensures r.NotAccepting? ==> s.status == Archived || s.status == SessionFailed
    {
      Interfere(id);
      if s.status == Archived || s.status == SessionFailed { return NotAccepting; }
      if HasActiveTurnIn(s.jobs, SESSION) { return TurnInProgress; }
      var lastSeq := |s.log|;
      InterfereLocked(id);
      if |s.log| != lastSeq { return LostTheSeq; }
      Perform(Send(content, id, maxAttempts, runAt));
      assert s.jobs[id] == NewJob(SESSION, TurnJob, maxAttempts, runAt);
      r := TurnQueued(lastSeq + 1);
    }

    // The message and its job landed together, on a session that takes messages, and it is the only turn
    // queued or running.
    ghost predicate SentAt(seqNo: nat, content: seq<string>, id: nat, maxAttempts: nat, runAt: int) reads this {
      && |s.log| == seqNo >= 1 && s.log[seqNo - 1] == Event(seqNo, UserMessage(content))
      && (s.status == Provisioning || s.status == ReadyToRun)
      && id in s.jobs && s.jobs[id] == Queue.Job(SESSION, TurnJob, Queued, 0, maxAttempts, runAt, None)
      && (forall x :: x in s.jobs && x != id && s.jobs[x].session == SESSION && s.jobs[x].kind == TurnJob ==>
            s.jobs[x].state == Dead)
    }

    // sendMessage: a lost seq is retried once.
    method SendMessage(content: seq<string>, id: nat, maxAttempts: nat, runAt: int) returns (r: Sent)
      requires Reachable(s) && id !in s.jobs
      modifies `s
      ensures Reachable(s) && Later(old(s), s)
      ensures r.TurnQueued? ==> SentAt(r.seqNo, content, id, maxAttempts, runAt)
      ensures !r.TurnQueued? ==> id !in s.jobs
      ensures r.LostTheSeq? ==> |s.log| >= |old(s).log| + 2
      ensures r.TurnInProgress? ==> exists x ::
        x in s.jobs && s.jobs[x].session == SESSION && s.jobs[x].kind == TurnJob && s.jobs[x].state != Dead
      ensures r.NotAccepting? ==> s.status == Archived || s.status == SessionFailed
    {
      r := TrySend(content, id, maxAttempts, runAt);
      if r.LostTheSeq? { r := TrySend(content, id, maxAttempts, runAt); }
    }

    // ------------------------------------------------------------------- provisioning

    method Await(w: nat)
      requires Reachable(s) && w in s.provisions
      modifies `s
      ensures Reachable(s) && Later(old(s), s) && w in s.provisions && s.provisions[w] == old(s.provisions[w])
    {
      var schedule: seq<Step> := *;
      for i := 0 to |schedule|
        invariant Reachable(s) && Later(old(s), s) && w in s.provisions && s.provisions[w] == old(s.provisions[w])
      {
        if Enabled(s, schedule[i]) && !IsProvisionBy(schedule[i], w) {
          OthersLeaveProvision(s, schedule[i], w);
          Perform(schedule[i]);
        }
      }
    }

    // The closing transaction up to its insert: lock, check, read the last seq.
    method ReadSeq(w: nat, succeeds: bool)
      requires Reachable(s) && ProvisionAt(s, w, Working)
      modifies `s
      ensures Reachable(s) && Later(old(s), s) && w in s.provisions
      ensures s.provisions[w].InTx? && s.provisions[w].succeeds == succeeds
      ensures |old(s).log| <= s.provisions[w].lastSeq <= |s.log|
    {
      Await(w);
      Perform(ReadLastSeq(w, succeeds));
      Await(w);
      ReadIsPast(s, w);
    }

    // The closing transaction of a provision delivery; another event at the seq it read rolls it back.
    method Close(w: nat, succeeds: bool) returns (won: bool)
      requires Reachable(s) && ProvisionAt(s, w, Working)
      modifies `s
      ensures Reachable(s) && Later(old(s), s)
      ensures won && succeeds ==> s.status == ReadyToRun && s.hasHandle && LastIs(SessionProvisioned)
      ensures won && !succeeds ==> s.status == SessionFailed && LastIs(TurnFailed(SandboxFatal))
      ensures !won ==> |s.log| > |old(s).log|
      ensures !won ==> LogTells(s)
    {
      ReadSeq(w, succeeds);
      won := Closes(s, w);
      Perform(CloseProvision(w));
      StillProvisioningIff(s);
    }

    ghost predicate LastIs(p: Payload) reads this { s.log != [] && s.log[|s.log| - 1].payload == p }

    // failProvision: retry until the last attempt, then end the session.
    method FailProvision(w: nat, attempts: nat, maxAttempts: nat) returns (o: Outcome)
      requires Reachable(s) && ProvisionAt(s, w, Working)
      modifies this
      ensures Reachable(s) && Later(old(s), s) && (old(broke) ==> broke)
      ensures o.RetryLater? || o.FailureRecorded? || o.Conflict?
      ensures o.FailureRecorded? ==>
        attempts >= maxAttempts && s.status == SessionFailed && LastIs(TurnFailed(SandboxFatal))
      ensures o.Conflict? ==> attempts >= maxAttempts && |s.log| > |old(s).log|
      ensures o.Conflict? ==> LogTells(s)
      ensures o.RetryLater? ==> attempts < maxAttempts || broke
    {
      if attempts < maxAttempts {
        Perform(ProvisionGivesUp(w));
        return RetryLater;
      }
      var answered: bool := *;
      if !answered {
        broke := true;
        Perform(ProvisionGivesUp(w));
        return RetryLater;
      }
      var won := Close(w, false);
      o := if won then FailureRecorded else Conflict;
    }

    // runProvision, on a claimed provision job; `world` is what its calls come to.
    method RunProvision(w: nat, attempts: nat, maxAttempts: nat, world: World) returns (o: Outcome)
      requires Reachable(s) && ProvisionAt(s, w, Taken)
      modifies this
      ensures Reachable(s) && Later(old(s), s)
      ensures o.Completed? ==> s.status != Provisioning
      ensures o.FailureRecorded? || o.RetryLater? ==> !(world.envFound && world.sandboxUp && world.committed)
      ensures o.FailureRecorded? ==>
        s.status == SessionFailed && LastIs(TurnFailed(SandboxFatal)) && attempts >= maxAttempts
      ensures o.Conflict? ==> |s.log| > |old(s).log|
      ensures o.Conflict? ==> LogTells(s)
      ensures o.RetryLater? ==> attempts < maxAttempts || broke
      ensures !o.Abandoned? && !o.Threw?
    {
      Await(w);
      var provisioning := s.status == Provisioning;
      Perform(ProvisionGate(w));
      if !provisioning { return Outcome.Completed; }
      o := Provision(w, attempts, maxAttempts, world);
    }

    // Past the status check: build the sandbox and close, or fail.
    method Provision(w: nat, attempts: nat, maxAttempts: nat, world: World) returns (o: Outcome)
      requires Reachable(s) && ProvisionAt(s, w, Working)
      modifies this
      ensures Reachable(s) && Later(old(s), s)
      ensures o.Completed? ==> s.status == ReadyToRun && s.hasHandle && LastIs(SessionProvisioned)
      ensures if world.envFound && world.sandboxUp && world.committed then o.Completed? || o.Conflict?
              else o.FailureRecorded? || o.RetryLater? || (o.Conflict? && attempts >= maxAttempts)
      ensures o.FailureRecorded? ==>
        s.status == SessionFailed && LastIs(TurnFailed(SandboxFatal)) && attempts >= maxAttempts
      ensures o.Conflict? ==> |s.log| > |old(s).log| && LogTells(s)
      ensures o.RetryLater? ==> attempts < maxAttempts || broke
      ensures !o.Abandoned? && !o.Threw?
    {
      Await(w);
      if !world.envFound || !world.sandboxUp || !world.committed {
        o := FailProvision(w, attempts, maxAttempts);
        return;
      }
      var won := Close(w, true);
      o := if won then Outcome.Completed else Conflict;
    }

    // ------------------------------------------------------------------ the outcome table

    // What the worker does with the claimed row: finished or lost work is acked, the rest is nacked;
    // a killed worker leaves the lease to expire.
    method Settle(job: nat, o: Outcome, killed: bool, now: int)
      requires Reachable(s)
      modifies `s
      ensures Reachable(s) && s.log == old(s.log) && s.status == old(s.status)
      ensures killed ==> s == old(s)
      ensures !killed && o != RetryLater && o != Threw ==> s.jobs == Do(old(s.jobs), AckOp(job))
      ensures !killed && (o == RetryLater || o == Threw) ==> s.jobs == Do(old(s.jobs), NackOp(job, now))
      ensures OneActiveTurn(s.jobs)
    {
      if !killed {
        Perform(QueueStep(if Settles(o).Acked? then AckOp(job) else NackOp(job, now)));
      }
      ReachableKeepsInv(s);
    }
  }
}

// What a session can still become: whether it can be provisioned, stays archived, or is provisioned
// twice, each with the exact condition and a run from its creation that shows the failing case.
module SessionFates {
  import opened Events
  import opened Reducer
  import opened Store
  import opened Queue
  import opened Sessions

  // ------------------------------------------------------------------ reachability

  ghost predicate LeadsTo(s: State, s': State) {
    exists run: seq<State>, steps: seq<Step> :: Continues(run, steps) && run[0] == s && run[|steps|] == s'
  }

  lemma LeadsToSelf(s: State)
    ensures LeadsTo(s, s)
  {
    assert Continues([s], []) && [s][0] == s;
  }

  lemma Next(s: State, s': State, step: Step)
    requires LeadsTo(s, s') && Enabled(s', step)
    ensures LeadsTo(s, Apply(s', step))
  {
    var run: seq<State>, steps: seq<Step> :| Continues(run, steps) && run[0] == s && run[|steps|] == s';
    var run', steps' := run + [Apply(s', step)], steps + [step];
    forall i | 0 <= i < |steps'| ensures StepAt(run', steps', i) {
      if i < |steps| { assert StepAt(run, steps, i); }
    }
    assert Continues(run', steps') && run'[0] == s && run'[|steps'|] == Apply(s', step);
  }

  lemma {:induction false} FromThere(run: seq<State>, steps: seq<Step>, s: State, n: nat)
    requires Continues(run, steps) && n < |run| && LeadsTo(s, run[0])
    ensures LeadsTo(s, run[n])
  {
    if n > 0 {
      FromThere(run, steps, s, n - 1);
      assert StepAt(run, steps, n - 1);
      Next(s, run[n - 1], steps[n - 1]);
    }
  }

  lemma LeadsOn(s: State, s': State, s'': State)
    requires LeadsTo(s, s') && LeadsTo(s', s'')
    ensures LeadsTo(s, s'')
  {
    var run: seq<State>, steps: seq<Step> :| Continues(run, steps) && run[0] == s' && run[|steps|] == s'';
    FromThere(run, steps, s, |steps|);
  }

  // A fact every step keeps holds ever after.
  lemma {:induction false} KeptForever(keeps: State -> bool, run: seq<State>, steps: seq<Step>, n: nat)
    requires Continues(run, steps) && n < |run| && keeps(run[0])
    requires forall s, step :: keeps(s) && Enabled(s, step) ==> keeps(Apply(s, step))
    ensures keeps(run[n])
  {
    if n > 0 {
      KeptForever(keeps, run, steps, n - 1);
      assert StepAt(run, steps, n - 1);
    }
  }

  lemma Kept(keeps: State -> bool, s: State, s': State)
    requires LeadsTo(s, s') && keeps(s)
    requires forall s, step :: keeps(s) && Enabled(s, step) ==> keeps(Apply(s, step))
    ensures keeps(s')
  {
    var run: seq<State>, steps: seq<Step> :| Continues(run, steps) && run[0] == s && run[|steps|] == s';
    KeptForever(keeps, run, steps, |steps|);
  }

  lemma Fresh(keys: set<nat>)
    ensures exists n: nat :: n !in keys
  {
    if keys == {} {
      assert 0 !in keys;
    } else {
      GreatestExists(keys);
      var m :| m in keys && forall k :: k in keys ==> k <= m;
      assert m + 1 !in keys;
    }
  }

  lemma FreshWorker(s: State) returns (w: nat)
    ensures w !in s.provisions && w !in s.turns
  {
    Fresh(s.provisions.Keys + s.turns.Keys);
    w :| w !in s.provisions.Keys + s.turns.Keys;
  }

  // --------------------------------------------------------- can it still come up?

  predicate LiveProvisionJob(s: State) { LiveIn(s.jobs) }

  // A provision delivery that may yet write.
  predicate Pending(s: State, w: nat) {
    w in s.provisions && (s.provisions[w].Taken? || s.provisions[w].Working? || Closes(s, w))
  }

  // ... and make the session ready.
  predicate Hopeful(s: State, w: nat) { Pending(s, w) && (s.provisions[w].InTx? ==> s.provisions[w].succeeds) }

  predicate CanComeUp(s: State) { LiveProvisionJob(s) || exists w :: w in s.provisions && Hopeful(s, w) }

  ghost predicate Doomed(s: State) { Inv(s) && s.status != ReadyToRun && !CanComeUp(s) }

  predicate LiveIn(jobs: Jobs) { exists id :: id in jobs && IsProvisionJob(jobs[id]) && jobs[id].state != Dead }

  lemma OpKeepsDead(jobs: Jobs, op: Op)
    requires DeadAreSpent(jobs) && Can(jobs, op) && !LiveIn(jobs) && (op.EnqueueOp? ==> !IsProvisionJob(op.job))
    ensures !LiveIn(Do(jobs, op))
  {
    var jobs' := Do(jobs, op);
    forall id | id in jobs' ensures !(IsProvisionJob(jobs'[id]) && jobs'[id].state != Dead) {
      if id in jobs { assert !(IsProvisionJob(jobs[id]) && jobs[id].state != Dead); }
    }
  }

  // No step brings a provision job of this session to life.
  lemma DeadJobsStayDead(s: State, step: Step)
    requires Inv(s) && Enabled(s, step) && !LiveProvisionJob(s)
    ensures !LiveProvisionJob(Apply(s, step))
  {
    match step
    case Send(_, id, maxAttempts, runAt) =>
      OpKeepsDead(s.jobs, EnqueueOp(id, NewJob(SESSION, TurnJob, maxAttempts, runAt)));
    case TakeTurn(_, id, now) => OpKeepsDead(s.jobs, PullOp(id, now));
    case TakeProvision(_, id, now) => OpKeepsDead(s.jobs, PullOp(id, now));
    case QueueStep(op) => OpKeepsDead(s.jobs, op);
    case _ =>
  }

  predicate IsProvisionStep(step: Step) {
    step.TakeProvision? || step.ProvisionGate? || step.ReadLastSeq? || step.CloseProvision? || step.ProvisionGivesUp?
  }

  lemma QuietSteps(s: State, step: Step)
    requires Enabled(s, step) && !IsProvisionStep(step)
    ensures var s' := Apply(s, step);
      && s'.provisions == s.provisions && |s.log| <= |s'.log|
      && (s'.status == s.status || (step.Archive? && s'.status == Archived))
  {
  }

  // A delivery that could write nothing (more) stays so.
  lemma HopelessStay(s: State, step: Step, w: nat)
    requires ReadsArePast(s) && Enabled(s, step) && !LiveProvisionJob(s)
    ensures !Hopeful(s, w) ==> !Hopeful(Apply(s, step), w)
    ensures !Pending(s, w) ==> !Pending(Apply(s, step), w)
  {
    if IsProvisionStep(step) { HopelessProvisionStep(s, step, w); } else { QuietSteps(s, step); }
  }

  lemma HopelessProvisionStep(s: State, step: Step, w: nat)
    requires ReadsArePast(s) && Enabled(s, step) && !LiveProvisionJob(s) && IsProvisionStep(step)
    ensures !Hopeful(s, w) ==> !Hopeful(Apply(s, step), w)
    ensures !Pending(s, w) ==> !Pending(Apply(s, step), w)
  {
  }

  lemma DoomedStep(s: State, step: Step)
    requires Doomed(s) && Enabled(s, step)
    ensures Doomed(Apply(s, step))
  {
    InvNext(s, step);
    DeadJobsStayDead(s, step);
    var s' := Apply(s, step);
    forall w | w in s'.provisions ensures !Hopeful(s', w) {
      assert !Hopeful(s, w);
      HopelessStay(s, step, w);
    }
    NeverReady(s, step);
  }

  lemma NeverReady(s: State, step: Step)
    requires Enabled(s, step) && s.status != ReadyToRun && forall w :: w in s.provisions ==> !Hopeful(s, w)
    ensures Apply(s, step).status != ReadyToRun
  {
    if step.CloseProvision? { assert !Hopeful(s, step.w); } else if !IsProvisionStep(step) { QuietSteps(s, step); }
  }

  // A delivery past its check closes.
  lemma WorkingComesUp(s: State, w: nat)
    requires ProvisionAt(s, w, Working)
    ensures exists s' :: LeadsTo(s, s') && s'.status == ReadyToRun
  {
    LeadsToSelf(s);
    Next(s, s, ReadLastSeq(w, true));
    var s1 := Apply(s, ReadLastSeq(w, true));
    Next(s, s1, CloseProvision(w));
  }

  lemma HopefulComesUp(s: State, w: nat)
    requires Inv(s) && s.status == Provisioning && Hopeful(s, w)
    ensures exists s' :: LeadsTo(s, s') && s'.status == ReadyToRun
  {
    LeadsToSelf(s);
    if s.provisions[w].Taken? {
      var s1 := Apply(s, ProvisionGate(w));
      Next(s, s, ProvisionGate(w));
      WorkingComesUp(s1, w);
      var s2 :| LeadsTo(s1, s2) && s2.status == ReadyToRun;
      LeadsOn(s, s1, s2);
    } else if s.provisions[w].Working? {
      WorkingComesUp(s, w);
    } else {
      Next(s, s, CloseProvision(w));
    }
  }

  // A live job is claimed, now or when it is due.
  lemma JobIsTaken(s: State, id: nat) returns (w: nat, now: int)
    requires Inv(s) && id in s.jobs && IsProvisionJob(s.jobs[id]) && s.jobs[id].state != Dead
    ensures Enabled(s, TakeProvision(w, id, now))
  {
    w := FreshWorker(s);
    now := if s.jobs[id].state == Queued then s.jobs[id].runAt else s.jobs[id].lease.value + 1;
  }

  lemma JobComesUp(s: State, id: nat)
    requires Inv(s) && s.status == Provisioning
    requires id in s.jobs && IsProvisionJob(s.jobs[id]) && s.jobs[id].state != Dead
    ensures exists s' :: LeadsTo(s, s') && s'.status == ReadyToRun
  {
    var w, now := JobIsTaken(s, id);
    var s1 := Apply(s, TakeProvision(w, id, now));
    LeadsToSelf(s);
    Next(s, s, TakeProvision(w, id, now));
    InvNext(s, TakeProvision(w, id, now));
    HopefulComesUp(s1, w);
    var s2 :| LeadsTo(s1, s2) && s2.status == ReadyToRun;
    LeadsOn(s, s1, s2);
  }

  // A provisioning session can become ready exactly when some provision job of it is not dead, or some
  // provision delivery can still win its close.
  lemma ReadyIsReachableIff(s: State)
    requires Inv(s) && s.status == Provisioning
    ensures (exists s' :: LeadsTo(s, s') && s'.status == ReadyToRun) <==> CanComeUp(s)
  {
    if CanComeUp(s) {
      if LiveProvisionJob(s) {
        var id :| id in s.jobs && IsProvisionJob(s.jobs[id]) && s.jobs[id].state != Dead;
        JobComesUp(s, id);
      } else {
        var w :| w in s.provisions && Hopeful(s, w);
        HopefulComesUp(s, w);
      }
    } else {
      forall s' | LeadsTo(s, s') ensures s'.status != ReadyToRun { DoomedForever(s, s'); }
    }
  }

  lemma DoomedForever(s: State, s': State)
    requires Doomed(s) && LeadsTo(s, s')
    ensures Doomed(s')
  {
    forall x, step | Doomed(x) && Enabled(x, step) ensures Doomed(Apply(x, step)) { DoomedStep(x, step); }
    Kept(x => Doomed(x), s, s');
  }

  // -------------------------------------------------------------------- stranded

  // Nobody is left to write provisioning's outcome, good or bad.
  predicate NobodyLeft(s: State) { !LiveProvisionJob(s) && forall w :: w in s.provisions ==> !Pending(s, w) }

  predicate Stranded(s: State) { s.status == Provisioning && NobodyLeft(s) }

  ghost predicate StrandedOrArchived(s: State) {
    Inv(s) && NobodyLeft(s) && (s.status == Provisioning || s.status == Archived)
  }

  lemma StrandedStep(s: State, step: Step)
    requires StrandedOrArchived(s) && Enabled(s, step)
    ensures StrandedOrArchived(Apply(s, step))
  {
    InvNext(s, step);
    DeadJobsStayDead(s, step);
    var s' := Apply(s, step);
    forall w | w in s'.provisions ensures !Pending(s', w) {
      assert !Pending(s, w);
      HopelessStay(s, step, w);
    }
    StatusStays(s, step);
  }

  lemma StatusStays(s: State, step: Step)
    requires Enabled(s, step) && forall w :: w in s.provisions ==> !Pending(s, w)
    ensures Apply(s, step).status == s.status || Apply(s, step).status == Archived
  {
    if step.CloseProvision? { assert !Pending(s, step.w); } else if !IsProvisionStep(step) { QuietSteps(s, step); }
  }

  lemma StrandedForever(s: State, s': State)
    requires StrandedOrArchived(s) && LeadsTo(s, s')
    ensures StrandedOrArchived(s')
  {
    forall x, step | StrandedOrArchived(x) && Enabled(x, step) ensures StrandedOrArchived(Apply(x, step)) {
      StrandedStep(x, step);
    }
    Kept(x => StrandedOrArchived(x), s, s');
  }

  // A provisioning session stays provisioning until it is archived, so that no turn of it ever passes
  // the gate, exactly when it is stranded.
  lemma StrandedIff(s: State)
    requires Inv(s) && s.status == Provisioning
    ensures (forall s' :: LeadsTo(s, s') ==> s'.status == Provisioning || s'.status == Archived) <==> Stranded(s)
  {
    if Stranded(s) {
      forall s' | LeadsTo(s, s') ensures s'.status == Provisioning || s'.status == Archived { StrandedForever(s, s'); }
    } else if CanComeUp(s) {
      ReadyIsReachableIff(s);
    } else {
      var w :| w in s.provisions && Pending(s, w);
      assert !Hopeful(s, w);
      LeadsToSelf(s);
      Next(s, s, CloseProvision(w));
    }
  }

  // ---------------------------------------------------------- losing the closing race

  // After a lost close the session is still provisioning exactly when it is not archived and nothing but
  // messages was ever logged: then a message, not another provisioner, took the seq.
  lemma LostCloseIff(s: State, w: nat)
    requires Inv(s) && Enabled(s, CloseProvision(w)) && !Closes(s, w)
    ensures var s' := Apply(s, CloseProvision(w));
      && s'.log == s.log
      && (s'.status == Provisioning <==> OnlyMessages(s.log) && s.status != Archived)
    ensures s.provisions[w].lastSeq < |s.log|
    ensures OnlyMessages(s.log) ==> s.log[s.provisions[w].lastSeq].payload.UserMessage?
  {
  }

  lemma OnlyJob(s: State) returns (job: nat)
    requires IsInit(s)
    ensures job in s.jobs && IsProvisionJob(s.jobs[job]) && s.jobs[job].state == Queued
    ensures forall id :: id in s.jobs && IsProvisionJob(s.jobs[id]) ==> id == job
  {
    job :| job in s.jobs && IsProvisionJob(s.jobs[job]);
  }

  // The first delivery of the provision job, past its check.
  lemma FirstDelivery(s: State, job: nat) returns (s': State)
    requires IsInit(s) && job in s.jobs && IsProvisionJob(s.jobs[job])
    ensures LeadsTo(s, s') && s'.provisions == map[0 := Working]
    ensures s' == s.(jobs := s.jobs[job := Claimed(s.jobs[job], s.jobs[job].runAt)], provisions := s'.provisions)
  {
    var take := TakeProvision(0, job, s.jobs[job].runAt);
    LeadsToSelf(s);
    Next(s, s, take);
    var s1 := Apply(s, take);
    Next(s, s1, ProvisionGate(0));
    s' := Apply(s1, ProvisionGate(0));
  }

  // From its creation on any session can be stranded: a message lands between the provisioner's read and
  // its insert and wins the seq; the worker takes the conflict for another provisioner's success and acks.
  lemma MessageStrandsSession(s: State)
    requires IsInit(s)
    ensures exists s' :: LeadsTo(s, s') && Stranded(s')
  {
    var job := OnlyJob(s);
    var s1 := FirstDelivery(s, job);
    Fresh(s1.jobs.Keys);
    var id: nat :| id !in s1.jobs.Keys;
    var send := Send([], id, 5, 0);
    Next(s, s1, ReadLastSeq(0, true));
    var s2 := Apply(s1, ReadLastSeq(0, true));
    NoTurnYet(s, s2, job);
    Next(s, s2, send);
    var s3 := Apply(s2, send);
    Next(s, s3, CloseProvision(0));
    var s4 := Apply(s3, CloseProvision(0));
    Next(s, s4, QueueStep(AckOp(job)));
    var s5 := Apply(s4, QueueStep(AckOp(job)));
    assert Stranded(s5);
  }

  lemma NoTurnYet(s: State, s': State, job: nat)
    requires IsInit(s) && job in s.jobs && IsProvisionJob(s.jobs[job])
    requires s'.jobs == s.jobs[job := Claimed(s.jobs[job], s.jobs[job].runAt)]
    ensures !HasActiveTurnIn(s'.jobs, SESSION)
  {
    forall id | id in s'.jobs ensures !IsActiveTurn(s'.jobs[id], SESSION) {
      assert id in s.jobs && s'.jobs[id].session == s.jobs[id].session && s'.jobs[id].kind == s.jobs[id].kind;
    }
  }

  // The job alone in the queue, nobody at work on it.
  ghost predicate Waiting(s: State, job: nat) {
    && Inv(s) && s.status == Provisioning
    && job in s.jobs && IsProvisionJob(s.jobs[job]) && s.jobs[job].state == Queued
    && (forall id :: id in s.jobs && IsProvisionJob(s.jobs[id]) ==> id == job)
    && (forall w :: w in s.provisions ==> s.provisions[w].ProvisionOver?)
  }

  lemma NewSessionWaits(s: State) returns (job: nat)
    requires IsInit(s)
    ensures Waiting(s, job)
  {
    job := OnlyJob(s);
    InvInit(s);
  }

  predicate DeadLettered(s: State) {
    Stranded(s) && exists id :: id in s.jobs && IsProvisionJob(s.jobs[id]) && s.jobs[id].state == Dead
  }

  // From its creation on: a provision job whose every delivery gives up strands the session too.  The last
  // nack buries the job, and the failure was never written.
  lemma DeadLetterStrands(s: State)
    requires IsInit(s)
    ensures exists s' :: LeadsTo(s, s') && DeadLettered(s')
  {
    var job := NewSessionWaits(s);
    GivesUpForGood(s, job);
  }

  lemma {:induction false} GivesUpForGood(s: State, job: nat)
    requires Waiting(s, job)
    ensures exists s' :: LeadsTo(s, s') && DeadLettered(s')
    decreases s.jobs[job].maxAttempts - s.jobs[job].attempts
  {
    var s1 := GivesUpOnce(s, job);
    if Waiting(s1, job) {
      GivesUpForGood(s1, job);
      var s2 :| LeadsTo(s1, s2) && DeadLettered(s2);
      LeadsOn(s, s1, s2);
    }
  }

  lemma NextInv(s: State, s': State, step: Step)
    requires LeadsTo(s, s') && Inv(s') && Enabled(s', step)
    ensures LeadsTo(s, Apply(s', step)) && Inv(Apply(s', step))
  {
    Next(s, s', step);
    InvNext(s', step);
  }

  function Rested(s: State, job: nat, w: nat, now: int): State
    requires job in s.jobs
  {
    s.(jobs := s.jobs[job := Nacked(Claimed(s.jobs[job], now), now)], provisions := s.provisions[w := ProvisionOver])
  }

  lemma ThreeSteps(s: State, job: nat, w: nat, now: int)
    requires Enabled(s, TakeProvision(w, job, now))
    ensures var s1 := Apply(s, TakeProvision(w, job, now));
      && Enabled(s1, ProvisionGivesUp(w))
      && var s2 := Apply(s1, ProvisionGivesUp(w));
         Enabled(s2, QueueStep(NackOp(job, now))) && Apply(s2, QueueStep(NackOp(job, now))) == Rested(s, job, w, now)
  {
    var s1 := Apply(s, TakeProvision(w, job, now));
    var s2 := Apply(s1, ProvisionGivesUp(w));
    assert s2.provisions == s.provisions[w := ProvisionOver];
    assert Apply(s2, QueueStep(NackOp(job, now))).jobs == Rested(s, job, w, now).jobs;
  }

  // A delivery claims the job, gives up, and its worker nacks.
  lemma ClaimedAndNacked(s: State, job: nat, w: nat, now: int)
    requires Inv(s) && Enabled(s, TakeProvision(w, job, now))
    ensures LeadsTo(s, Rested(s, job, w, now)) && Inv(Rested(s, job, w, now))
  {
    ThreeSteps(s, job, w, now);
    LeadsToSelf(s);
    var take, up, nack := TakeProvision(w, job, now), ProvisionGivesUp(w), QueueStep(NackOp(job, now));
    NextInv(s, s, take);
    NextInv(s, Apply(s, take), up);
    NextInv(s, Apply(Apply(s, take), up), nack);
  }

  lemma GivesUpOnce(s: State, job: nat) returns (s': State)
    requires Waiting(s, job)
    ensures LeadsTo(s, s') && job in s'.jobs
    ensures s.jobs[job].attempts + 1 >= s.jobs[job].maxAttempts ==> DeadLettered(s')
    ensures s.jobs[job].attempts + 1 < s.jobs[job].maxAttempts ==> Waiting(s', job)
    ensures s'.jobs[job].maxAttempts == s.jobs[job].maxAttempts && s'.jobs[job].attempts == s.jobs[job].attempts + 1
  {
    var w, now := JobIsTaken(s, job);
    ClaimedAndNacked(s, job, w, now);
    s' := Rested(s, job, w, now);
  }

  // -------------------------------------------------------------------- archiving

  // A provision delivery past its status check, which will not look at the status again, and can
  // still win its seq.
  predicate ProvisionInFlight(s: State) {
    exists w :: w in s.provisions && (s.provisions[w].Working? || Closes(s, w))
  }

  ghost predicate SafelyArchived(s: State) { Inv(s) && s.status == Archived && !ProvisionInFlight(s) }

  lemma ArchivedStep(s: State, step: Step)
    requires SafelyArchived(s) && Enabled(s, step)
    ensures SafelyArchived(Apply(s, step))
  {
    var s' := Apply(s, step);
    InvNext(s, step);
    forall w | w in s'.provisions ensures !s'.provisions[w].Working? && !Closes(s', w) {
      if w in s.provisions { assert !s.provisions[w].Working? && !Closes(s, w); }
    }
  }

  lemma ArchivedStays(s: State, s': State)
    requires SafelyArchived(s) && LeadsTo(s, s')
    ensures SafelyArchived(s')
  {
    forall x, step | SafelyArchived(x) && Enabled(x, step) ensures SafelyArchived(Apply(x, step)) {
      ArchivedStep(x, step);
    }
    Kept(x => SafelyArchived(x), s, s');
  }

  // Archiving is permanent exactly when no provision delivery that can still win is past its check.
  lemma ArchiveIsPermanentIff(s: State)
    requires Inv(s) && s.status == Archived
    ensures (forall s' :: LeadsTo(s, s') ==> s'.status == Archived) <==> !ProvisionInFlight(s)
  {
    if ProvisionInFlight(s) {
      var w :| w in s.provisions && (s.provisions[w].Working? || Closes(s, w));
      LeadsToSelf(s);
      if s.provisions[w].Working? { WorkingComesUp(s, w); } else { Next(s, s, CloseProvision(w)); }
    } else {
      forall s' | LeadsTo(s, s') ensures s'.status == Archived { ArchivedStays(s, s'); }
    }
  }

  predicate Undone(s: State, s': State) {
    s.status == Archived && ProvisionInFlight(s) && s'.status == ReadyToRun && s'.archived
  }

  // From its creation on: archived while the provisioner is at work, then ready all the same.
  lemma ArchiveIsUndone(s: State)
    requires IsInit(s)
    ensures exists s1, s2 :: LeadsTo(s, s1) && LeadsTo(s1, s2) && Undone(s1, s2)
  {
    var job := OnlyJob(s);
    var s0 := FirstDelivery(s, job);
    Next(s, s0, Archive);
    var s1 := Apply(s0, Archive);
    assert ProvisionAt(s1, 0, Working) && ProvisionInFlight(s1);
    LeadsToSelf(s1);
    Next(s1, s1, ReadLastSeq(0, true));
    var s2 := Apply(s1, ReadLastSeq(0, true));
    Next(s1, s2, CloseProvision(0));
    assert Undone(s1, Apply(s2, CloseProvision(0)));
  }

  predicate Revived(s: State) { s.archived && s.status != Archived }

  lemma RevivedStep(s: State, step: Step)
    requires Revived(s) && Enabled(s, step)
    ensures Revived(Apply(s, step))
  {
  }

  // A session that came back from the archive cannot be archived again: archived_at is already set.
  lemma RevivedStaysOpen(s: State, s': State)
    requires Revived(s) && LeadsTo(s, s')
    ensures Revived(s')
  {
    forall x, step | Revived(x) && Enabled(x, step) ensures Revived(Apply(x, step)) { RevivedStep(x, step); }
    Kept((x: State) => Revived(x), s, s');
  }

  // ------------------------------------------------------------- provisioned twice

  datatype Row = NoRow | OneRow(p: Payload, ext: bool)

  // The row a step writes.
  function Writes(s: State, step: Step): Row {
    match step
    case Send(content, _, _, _) => OneRow(UserMessage(content), true)
    case TurnAppends(_, p) => OneRow(p, false)
    case CloseProvision(w) =>
      if !Closes(s, w) then NoRow
      else OneRow(if s.provisions[w].succeeds then SessionProvisioned else TurnFailed(SandboxFatal), true)
    case _ => NoRow
  }

  lemma WritesThat(s: State, step: Step)
    requires Enabled(s, step)
    ensures var s' := Apply(s, step); var row := Writes(s, step);
      if row.NoRow? then s'.log == s.log && s'.external == s.external
      else s'.log == Logged(s.log, row.p) && s'.external == s.external + [row.ext]
  {
  }

  // A second session_provisioned is exactly a successful close that still finds its seq free in a log
  // that has one already.
  lemma SecondProvisionedIff(s: State, step: Step)
    requires Enabled(s, step) && Has(s.log, Provisioned)
    ensures Count(Apply(s, step).log, 0, Provisioned) > Count(s.log, 0, Provisioned) <==>
      step.CloseProvision? && Closes(s, step.w) && s.provisions[step.w].succeeds
  {
    WritesThat(s, step);
    var row := Writes(s, step);
    if row.OneRow? { CountMore(s.log, row.p); }
  }

  lemma CountMore(log: Log, p: Payload)
    ensures Count(Logged(log, p), 0, Provisioned) == Count(log, 0, Provisioned) + if p.SessionProvisioned? then 1 else 0
  {
    assert Logged(log, p)[..|log|] == log;
  }

  // Two deliveries of one provision job, the second after the first one's lease ran out, both past the check.
  lemma BothWorking(s: State, job: nat) returns (x: State)
    requires IsInit(s) && job in s.jobs && IsProvisionJob(s.jobs[job])
    ensures LeadsTo(s, x) && x == s.(jobs := x.jobs, provisions := map[0 := Working, 1 := Working])
    ensures x.jobs.Keys == s.jobs.Keys && !HasActiveTurnIn(x.jobs, SESSION)
  {
    var s1 := FirstDelivery(s, job);
    var take := TakeProvision(1, job, s1.jobs[job].lease.value + 1);
    Next(s, s1, take);
    var s2 := Apply(s1, take);
    Next(s, s2, ProvisionGate(1));
    x := Apply(s2, ProvisionGate(1));
    assert x.provisions == map[0 := Working, 1 := Working];
    forall id | id in x.jobs ensures !IsActiveTurn(x.jobs[id], SESSION) {
      assert id in s.jobs && x.jobs[id].session == s.jobs[id].session && x.jobs[id].kind == s.jobs[id].kind;
    }
  }

  // From its creation on: both of them close.
  lemma ProvisionedTwice(s: State)
    requires IsInit(s)
    ensures exists s' :: LeadsTo(s, s') && Count(s'.log, 0, Provisioned) == 2
  {
    var job := OnlyJob(s);
    var x := BothWorking(s, job);
    ClosesNow(s, x, 0);
    ClosesNow(s, Closed(x, 0), 1);
    CountMore(x.log, SessionProvisioned);
    CountMore(Closed(x, 0).log, SessionProvisioned);
    assert Count([], 0, Provisioned) == 0;
  }

  // The state once w has closed the provisioning with success.
  function Closed(x: State, w: nat): State {
    Wrote(x, SessionProvisioned, true).(
      status := ReadyToRun, hasHandle := true, provisions := x.provisions[w := ProvisionOver])
  }

  lemma ClosesNow(s: State, x: State, w: nat)
    requires LeadsTo(s, x) && ProvisionAt(x, w, Working)
    ensures LeadsTo(s, Closed(x, w))
  {
    Next(s, x, ReadLastSeq(w, true));
    var y := Apply(x, ReadLastSeq(w, true));
    Next(s, y, CloseProvision(w));
    assert y.provisions[w := ProvisionOver] == x.provisions[w := ProvisionOver];
    assert Apply(y, CloseProvision(w)) == Closed(x, w);
  }

  // Every close that wins finds nothing but messages.
  ghost predicate FirstCloses(run: seq<State>, steps: seq<Step>, n: nat)
    requires |run| == |steps| + 1 && n < |run|
  {
    forall i :: 0 <= i < n && steps[i].CloseProvision? && Closes(run[i], steps[i].w) ==> OnlyMessages(run[i].log)
  }

  ghost predicate AtMostOnce(log: Log, external: seq<bool>)
    requires |external| == |log|
  {
    forall p, q :: IsProvisioning(log, external, p) && IsProvisioning(log, external, q) ==> p == q
  }

  lemma OnceIsFirst(log: Log, external: seq<bool>)
    requires ProvisionedFirst(log, external)
    ensures ProvisionedOnceFirst(log, external) <==> AtMostOnce(log, external)
  {
    if AtMostOnce(log, external) {
      forall k, p | 0 <= k < |log| && !external[k] && IsProvisioning(log, external, p) ensures p < k {
        var q :| 0 <= q < k && IsProvisioning(log, external, q);
      }
    }
  }

  // One more row adds a provisioning row exactly when it is one.
  lemma RowMore(log: Log, external: seq<bool>, p: Payload, ext: bool)
    requires |external| == |log|
    ensures AtMostOnce(Logged(log, p), external + [ext]) <==>
      AtMostOnce(log, external) && (ext && !p.UserMessage? ==> forall q :: !IsProvisioning(log, external, q))
  {
    var log', external' := Logged(log, p), external + [ext];
    assert forall q :: 0 <= q < |log| ==> (IsProvisioning(log', external', q) <==> IsProvisioning(log, external, q));
    assert IsProvisioning(log', external', |log|) <==> ext && !p.UserMessage?;
  }

  lemma NoneIsOnlyMessages(log: Log, external: seq<bool>)
    requires ProvisionedFirst(log, external)
    ensures (forall q :: !IsProvisioning(log, external, q)) <==> OnlyMessages(log)
  {
    if !OnlyMessages(log) {
      var i :| 0 <= i < |log| && !log[i].payload.UserMessage?;
      assert external[i] ==> IsProvisioning(log, external, i);
    }
  }

  lemma OnceStep(s: State, step: Step)
    requires Inv(s) && Enabled(s, step)
    ensures var s' := Apply(s, step);
      && |s'.external| == |s'.log|
      && (AtMostOnce(s'.log, s'.external) <==>
            AtMostOnce(s.log, s.external) && (step.CloseProvision? && Closes(s, step.w) ==> OnlyMessages(s.log)))
  {
    WritesThat(s, step);
    NoneIsOnlyMessages(s.log, s.external);
    var row := Writes(s, step);
    if row.OneRow? { RowMore(s.log, s.external, row.p, row.ext); }
  }

  // The provisioner has written once, before any turn, exactly when every close that won found nothing but
  // messages in the log.
  lemma {:induction false} ProvisionedOnceIff(run: seq<State>, steps: seq<Step>, n: nat)
    requires IsRun(run, steps) && n < |run|
    ensures |run[n].external| == |run[n].log|
    ensures ProvisionedOnceFirst(run[n].log, run[n].external) <==> FirstCloses(run, steps, n)
  {
    RunsKeepInv(run, steps, n);
    OnceIsFirst(run[n].log, run[n].external);
    if n > 0 {
      ProvisionedOnceIff(run, steps, n - 1);
      RunsKeepInv(run, steps, n - 1);
      OnceIsFirst(run[n - 1].log, run[n - 1].external);
      assert StepAt(run, steps, n - 1);
      OnceStep(run[n - 1], steps[n - 1]);
    }
  }

  // The missing guard: a closing transaction that looks at the status again and goes on only while it is
  // provisioning would be enough.
  lemma RecheckedClosesProvisionOnce(run: seq<State>, steps: seq<Step>, n: nat)
    requires IsRun(run, steps) && n < |run|
    requires forall i ::
      0 <= i < n && steps[i].CloseProvision? && Closes(run[i], steps[i].w) ==> run[i].status == Provisioning
    ensures |run[n].external| == |run[n].log| && ProvisionedOnceFirst(run[n].log, run[n].external)
  {
    forall i | 0 <= i < n && steps[i].CloseProvision? && Closes(run[i], steps[i].w) ensures OnlyMessages(run[i].log) {
      RunsKeepInv(run, steps, i);
    }
    ProvisionedOnceIff(run, steps, n);
  }
}

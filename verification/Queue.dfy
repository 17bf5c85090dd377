// The turn and provision job queue (packages/sessions/src/queue.ts): one table, leases, backoff and
// a dead-letter state.  Times are milliseconds.
module Queue {
  import opened Prelude

  const LEASE_MS := 60000

  datatype JobKind = TurnJob | ProvisionJob

  datatype JobState = Queued | Running | Dead

  datatype Job = Job(
    session: nat, kind: JobKind, state: JobState, attempts: nat, maxAttempts: nat, runAt: int, lease: Option<int>)

  type Jobs = map<nat, Job>

  // What a claim hands to the worker; attempts are counted with this claim.
  datatype Claim = Claim(id: nat, session: nat, kind: JobKind, attempts: nat, maxAttempts: nat)

  function Pow2(n: nat): (p: nat)
    ensures p >= 1
  {
    if n == 0 then 1 else 2 * Pow2(n - 1)
  }

  function NewJob(session: nat, kind: JobKind, maxAttempts: nat, runAt: int): Job {
    Job(session, kind, Queued, 0, maxAttempts, runAt, None)
  }

  predicate Eligible(j: Job, now: int) {
    || (j.state == Queued && j.runAt <= now)
    || (j.state == Running && j.lease.Some? && j.lease.value < now)
  }

  function Claimed(j: Job, now: int): Job {
    j.(state := Running, lease := Some(now + LEASE_MS), attempts := j.attempts + 1)
  }

  function Extended(j: Job, now: int): Job { j.(lease := Some(now + LEASE_MS)) }

  function Nacked(j: Job, now: int): Job {
    if j.attempts >= j.maxAttempts then j.(state := Dead, lease := None)
    else j.(state := Queued, runAt := now + 1000 * Pow2(j.attempts), lease := None)
  }

  predicate IsActiveTurn(j: Job, session: nat) {
    j.session == session && j.kind == TurnJob && (j.state == Queued || j.state == Running)
  }

  // At most one turn job of the session is queued or running.
  ghost predicate OneActive(jobs: Jobs, session: nat) {
    forall id, id' ::
      id in jobs && id' in jobs && IsActiveTurn(jobs[id], session) && IsActiveTurn(jobs[id'], session) ==> id == id'
  }

  predicate HasActiveTurnIn(jobs: Jobs, session: nat) { exists id :: id in jobs && IsActiveTurn(jobs[id], session) }

  // --------------------------------------------------------------- what anyone can do

  datatype Op =
    | EnqueueOp(id: nat, job: Job)
    | PullOp(id: nat, now: int)
    | ExtendOp(id: nat, now: int)
    | AckOp(id: nat)
    | NackOp(id: nat, now: int)

  // Ack, nack and heartbeat may come from anyone at any time, on a row that may be gone.
  predicate Can(jobs: Jobs, op: Op) {
    match op
    case EnqueueOp(id, job) => id !in jobs && job.state == Queued && job.attempts == 0 && job.lease.None?
    case PullOp(id, now) => id in jobs && Eligible(jobs[id], now)
    case _ => true
  }

  function Do(jobs: Jobs, op: Op): Jobs
    requires Can(jobs, op)
  {
    match op
    case EnqueueOp(id, job) => jobs[id := job]
    case PullOp(id, now) => jobs[id := Claimed(jobs[id], now)]
    case ExtendOp(id, now) => if id in jobs then jobs[id := Extended(jobs[id], now)] else jobs
    case AckOp(id) => jobs - {id}
    case NackOp(id, now) => if id in jobs then jobs[id := Nacked(jobs[id], now)] else jobs
  }

  ghost predicate CanAll(jobs: Jobs, ops: seq<Op>)
    decreases |ops|
  {
    ops == [] || (Can(jobs, ops[0]) && CanAll(Do(jobs, ops[0]), ops[1..]))
  }

  ghost function After(jobs: Jobs, ops: seq<Op>): Jobs
    requires CanAll(jobs, ops)
    decreases |ops|
  {
    if ops == [] then jobs else After(Do(jobs, ops[0]), ops[1..])
  }

  // ------------------------------------------------------------------- dead letters

  // Dead rows have used up their attempts.
  ghost predicate DeadAreSpent(jobs: Jobs) {
    forall id :: id in jobs && jobs[id].state == Dead ==> jobs[id].attempts >= jobs[id].maxAttempts
  }

  lemma DeadAreSpentKept(jobs: Jobs, op: Op)
    requires DeadAreSpent(jobs) && Can(jobs, op)
    ensures DeadAreSpent(Do(jobs, op))
  {
  }

  // Over any operations, in any order, by anyone: a dead job is never queued or running again, and
  // every claim raises attempts by exactly one, nothing else does.
  lemma {:induction false} DeadStaysDead(jobs: Jobs, ops: seq<Op>, id: nat)
    requires DeadAreSpent(jobs) && CanAll(jobs, ops) && id in jobs && jobs[id].state == Dead
    requires forall i :: 0 <= i < |ops| ==> !(ops[i].AckOp? && ops[i].id == id)
    ensures id in After(jobs, ops) && After(jobs, ops)[id].state == Dead
    ensures After(jobs, ops)[id].attempts == jobs[id].attempts
    decreases |ops|
  {
    if ops != [] {
      DeadAreSpentKept(jobs, ops[0]);
      DeadStaysDead(Do(jobs, ops[0]), ops[1..], id);
    }
  }

  ghost function ClaimsOf(ops: seq<Op>, id: nat): nat {
    if ops == [] then 0 else (if ops[0].PullOp? && ops[0].id == id then 1 else 0) + ClaimsOf(ops[1..], id)
  }

  lemma {:induction false} AttemptsCountClaims(jobs: Jobs, ops: seq<Op>, id: nat)
    requires CanAll(jobs, ops) && id in jobs
    requires forall i :: 0 <= i < |ops| ==> !(ops[i].AckOp? && ops[i].id == id)
    ensures id in After(jobs, ops) && After(jobs, ops)[id].attempts == jobs[id].attempts + ClaimsOf(ops, id)
    decreases |ops|
  {
    if ops != [] { AttemptsCountClaims(Do(jobs, ops[0]), ops[1..], id); }
  }

  predicate Live(jobs: Jobs, id: nat) { id in jobs && jobs[id].state != Dead }

  // Nobody acks the job, and no nack meets it with its attempts spent.
  ghost predicate Spared(jobs: Jobs, ops: seq<Op>, id: nat)
    requires CanAll(jobs, ops)
    decreases |ops|
  {
    ops == [] ||
    (&& !(ops[0].AckOp? && ops[0].id == id)
     && !(ops[0].NackOp? && ops[0].id == id && id in jobs && jobs[id].attempts >= jobs[id].maxAttempts)
     && Spared(Do(jobs, ops[0]), ops[1..], id))
  }

  // Ids are used once.
  predicate NotEnqueuedAgain(ops: seq<Op>, id: nat) {
    forall i :: 0 <= i < |ops| ==> !(ops[i].EnqueueOp? && ops[i].id == id)
  }

  predicate Buried(jobs: Jobs, id: nat) {
    id in jobs ==> jobs[id].state == Dead && jobs[id].attempts >= jobs[id].maxAttempts
  }

  lemma {:induction false} BuriedStays(jobs: Jobs, ops: seq<Op>, id: nat)
    requires CanAll(jobs, ops) && NotEnqueuedAgain(ops, id) && Buried(jobs, id)
    ensures Buried(After(jobs, ops), id)
    decreases |ops|
  {
    if ops != [] {
      assert NotEnqueuedAgain(ops[1..], id);
      BuriedStays(Do(jobs, ops[0]), ops[1..], id);
    }
  }

  // A live job stays live exactly when nobody acks it and no nack meets it with its attempts spent.
  lemma {:induction false} LiveUntilAckOrDeath(jobs: Jobs, ops: seq<Op>, id: nat)
    requires CanAll(jobs, ops) && NotEnqueuedAgain(ops, id) && Live(jobs, id)
    ensures Live(After(jobs, ops), id) <==> Spared(jobs, ops, id)
    decreases |ops|
  {
    if ops != [] {
      var jobs' := Do(jobs, ops[0]);
      assert NotEnqueuedAgain(ops[1..], id);
      if Live(jobs', id) { LiveUntilAckOrDeath(jobs', ops[1..], id); } else { BuriedStays(jobs', ops[1..], id); }
    }
  }

  lemma {:induction false} NoClaims(ops: seq<Op>, id: nat)
    ensures ClaimsOf(ops, id) == 0 <==> forall i :: 0 <= i < |ops| ==> !(ops[i].PullOp? && ops[i].id == id)
  {
    if ops != [] {
      NoClaims(ops[1..], id);
      assert forall i :: 0 < i < |ops| ==> ops[i] == ops[1..][i - 1];
    }
  }

  // What an acker could check first: the row it is about to delete is its own claim, not a successor's,
  // exactly when the row's attempts still are the ones it was claimed with.
  lemma AckIsOwnIff(jobs: Jobs, ops: seq<Op>, claim: Claim)
    requires CanAll(jobs, ops) && claim.id in jobs && jobs[claim.id].attempts == claim.attempts
    requires forall i :: 0 <= i < |ops| ==> !(ops[i].AckOp? && ops[i].id == claim.id)
    ensures claim.id in After(jobs, ops)
    ensures After(jobs, ops)[claim.id].attempts == claim.attempts <==>
      forall i :: 0 <= i < |ops| ==> !(ops[i].PullOp? && ops[i].id == claim.id)
  {
    AttemptsCountClaims(jobs, ops, claim.id);
    NoClaims(ops, claim.id);
  }

  // An unfinished turn need not keep a live job: the first claimant's late ack, the worker's answer
  // to a conflict, removes the row its successor runs under.
  lemma StaleAckDropsTheSuccessorsJob(id: nat, job: Job, t: int)
    requires job.state == Queued && job.attempts == 0 && job.lease.None? && job.runAt <= t
    ensures var ops := [PullOp(id, t), PullOp(id, t + LEASE_MS + 1), AckOp(id)];
      CanAll(map[id := job], ops) && After(map[id := job], ops) == map[]
  {
    var jobs := map[id := job];
    var ops := [PullOp(id, t), PullOp(id, t + LEASE_MS + 1), AckOp(id)];
    var j1 := Do(jobs, ops[0]);
    assert ops[1..] == [PullOp(id, t + LEASE_MS + 1), AckOp(id)];
    var j2 := Do(j1, ops[1..][0]);
    assert ops[1..][1..] == [AckOp(id)];
    assert Do(j2, AckOp(id)) == map[];
    assert [AckOp(id)][1..] == [];
    assert CanAll(j2, [AckOp(id)]) && After(j2, [AckOp(id)]) == map[];
    assert CanAll(j1, ops[1..]) && After(j1, ops[1..]) == map[];
  }

  // ------------------------------------------------------------------------- leases

  function TimeOf(op: Op, otherwise: int): int {
    if op.PullOp? || op.ExtendOp? || op.NackOp? then op.now else otherwise
  }

  // Every operation comes within a lease of the latest heartbeat for id, and nobody acks or nacks it.
  ghost predicate Beating(ops: seq<Op>, id: nat, last: int)
    decreases |ops|
  {
    ops == [] ||
    var op, t := ops[0], TimeOf(ops[0], last);
    && last <= t <= last + LEASE_MS
    && !(op.id == id && (op.AckOp? || op.NackOp?))
    && Beating(ops[1..], id, if op.ExtendOp? && op.id == id then t else last)
  }

  // A claim stays exclusive while heartbeats keep coming in time.
  lemma {:induction false} LeaseIsExclusive(jobs: Jobs, ops: seq<Op>, id: nat, last: int)
    requires CanAll(jobs, ops) && Beating(ops, id, last)
    requires id in jobs && jobs[id].state == Running && jobs[id].lease == Some(last + LEASE_MS)
    ensures forall i :: 0 <= i < |ops| && ops[i].PullOp? ==> ops[i].id != id
    ensures id in After(jobs, ops) && After(jobs, ops)[id].state == Running
    ensures After(jobs, ops)[id].attempts == jobs[id].attempts
    decreases |ops|
  {
    if ops != [] {
      var op := ops[0];
      LeaseIsExclusive(Do(jobs, op), ops[1..], id, if op.ExtendOp? && op.id == id then op.now else last);
      forall i | 0 <= i < |ops| && ops[i].PullOp? ensures ops[i].id != id {
        if i > 0 { assert ops[1..][i - 1] == ops[i]; }
      }
    }
  }

  // From the claim on: nobody claims the job again while its worker's heartbeats come in time, and the
  // first one may take a minute.
  lemma ClaimIsExclusive(jobs: Jobs, ops: seq<Op>, id: nat, t: int)
    requires Can(jobs, PullOp(id, t)) && CanAll(Do(jobs, PullOp(id, t)), ops) && Beating(ops, id, t)
    ensures forall i :: 0 <= i < |ops| && ops[i].PullOp? ==> ops[i].id != id
    ensures LEASE_MS == 60 * 1000
  {
    LeaseIsExclusive(Do(jobs, PullOp(id, t)), ops, id, t);
  }

  // Nor does a lease last longer: once a minute has passed without a heartbeat anyone may claim the job.
  lemma SilentClaimIsFree(jobs: Jobs, id: nat, t: int, now: int)
    requires Can(jobs, PullOp(id, t))
    ensures Can(Do(jobs, PullOp(id, t)), PullOp(id, now)) <==> now > t + 60 * 1000
  {
  }

  // ------------------------------------------------------------------------ backoff

  // The clock of the operations never goes back.
  ghost predicate Forward(ops: seq<Op>, last: int)
    decreases |ops|
  {
    ops == [] || (last <= TimeOf(ops[0], last) && Forward(ops[1..], TimeOf(ops[0], last)))
  }

  lemma {:induction false} ForwardFrom(ops: seq<Op>, last: int)
    requires Forward(ops, last)
    ensures forall i :: 0 <= i < |ops| && ops[i].PullOp? ==> last <= ops[i].now
    decreases |ops|
  {
    if ops != [] {
      ForwardFrom(ops[1..], TimeOf(ops[0], last));
      forall i | 0 <= i < |ops| && ops[i].PullOp? ensures last <= ops[i].now {
        if i > 0 { assert ops[1..][i - 1] == ops[i]; }
      }
    }
  }

  // A queued job is not claimed before `due`, even if others nack it again meanwhile.
  lemma {:induction false} NotBefore(jobs: Jobs, ops: seq<Op>, id: nat, due: int, last: int)
    requires CanAll(jobs, ops) && Forward(ops, last) && NotEnqueuedAgain(ops, id)
    requires id in jobs ==>
      && jobs[id].state == Queued && jobs[id].attempts < jobs[id].maxAttempts
      && due <= jobs[id].runAt && due <= last + 1000 * Pow2(jobs[id].attempts)
    ensures forall i :: 0 <= i < |ops| && ops[i].PullOp? && ops[i].id == id ==> due <= ops[i].now
    decreases |ops|
  {
    if ops != [] {
      var op := ops[0];
      var last' := TimeOf(op, last);
      if op.PullOp? && op.id == id { ForwardFrom(ops[1..], last'); } else {
        assert NotEnqueuedAgain(ops[1..], id);
        NotBefore(Do(jobs, op), ops[1..], id, due, last');
      }
      forall i | 0 <= i < |ops| && ops[i].PullOp? && ops[i].id == id ensures due <= ops[i].now {
        if i > 0 { assert ops[1..][i - 1] == ops[i]; }
      }
    }
  }

  // A job sent back waits out its delay: whatever anyone does, nobody claims it in the next 2^attempts seconds.
  lemma NackedJobWaits(jobs: Jobs, ops: seq<Op>, id: nat, t: int)
    requires id in jobs && jobs[id].attempts < jobs[id].maxAttempts
    requires CanAll(Do(jobs, NackOp(id, t)), ops) && Forward(ops, t) && NotEnqueuedAgain(ops, id)
    ensures forall i :: 0 <= i < |ops| && ops[i].PullOp? && ops[i].id == id ==>
      t + 1000 * Pow2(jobs[id].attempts) <= ops[i].now
  {
    NotBefore(Do(jobs, NackOp(id, t)), ops, id, t + 1000 * Pow2(jobs[id].attempts), t);
  }

  // How one claim of the job ended: it was nacked, or its lease ran out.
  datatype Fate = NackedAt(now: int) | Expired

  // The job's life, one claim after the other, until it is dead.
  ghost function Life(j: Job, claims: seq<int>, fates: seq<Fate>): Job
    requires |claims| == |fates|
    decreases |claims|
  {
    if claims == [] || j.state == Dead then j
    else
      var j' := Claimed(j, claims[0]);
      Life(if fates[0].NackedAt? then Nacked(j', fates[0].now) else j', claims[1..], fates[1..])
  }

  // The delays its nacks asked for.
  ghost function Backoff(j: Job, claims: seq<int>, fates: seq<Fate>): int
    requires |claims| == |fates|
    decreases |claims|
  {
    if claims == [] || j.state == Dead then 0
    else
      var j' := Claimed(j, claims[0]);
      if fates[0].Expired? then Backoff(j', claims[1..], fates[1..])
      else
        var j'' := Nacked(j', fates[0].now);
        (if j''.state == Queued then j''.runAt - fates[0].now else 0) + Backoff(j'', claims[1..], fates[1..])
  }

  lemma Pow2Grows(n: nat, m: nat)
    requires n <= m
    ensures Pow2(n) <= Pow2(m)
  {
  }

  lemma {:induction false} BackoffFrom(j: Job, claims: seq<int>, fates: seq<Fate>)
    requires |claims| == |fates|
    ensures Backoff(j, claims, fates) <=
      if j.attempts < j.maxAttempts then 1000 * (Pow2(j.maxAttempts) - Pow2(j.attempts + 1)) else 0
    decreases |claims|
  {
    if j.attempts < j.maxAttempts { Pow2Grows(j.attempts + 1, j.maxAttempts); }
    if claims != [] && j.state != Dead {
      var j' := Claimed(j, claims[0]);
      assert Pow2(j.attempts + 2) == 2 * Pow2(j.attempts + 1);
      if fates[0].Expired? {
        BackoffFrom(j', claims[1..], fates[1..]);
      } else {
        BackoffFrom(Nacked(j', fates[0].now), claims[1..], fates[1..]);
      }
    }
  }

  // Whatever mix of nacks and expiries, the backoff of a new job adds up to at most
  // 2^max_attempts - 2 seconds.
  lemma BackoffIsBounded(j: Job, claims: seq<int>, fates: seq<Fate>)
    requires |claims| == |fates| && j.attempts == 0 && j.maxAttempts > 0
    ensures Backoff(j, claims, fates) <= 1000 * (Pow2(j.maxAttempts) - 2)
  {
    BackoffFrom(j, claims, fates);
    assert Pow2(1) == 2;
  }

  // ... and the bound is reached when every claim is nacked; the last nack is the dead letter.
  lemma {:induction false} AllNacked(j: Job, claims: seq<int>, fates: seq<Fate>)
    requires |claims| == |fates| && j.attempts < j.maxAttempts && j.state != Dead
    requires |claims| == j.maxAttempts - j.attempts && forall i :: 0 <= i < |fates| ==> fates[i].NackedAt?
    ensures Backoff(j, claims, fates) == 1000 * (Pow2(j.maxAttempts) - Pow2(j.attempts + 1))
    ensures Life(j, claims, fates).state == Dead && Life(j, claims, fates).attempts == j.maxAttempts
    decreases |claims|
  {
    var j' := Nacked(Claimed(j, claims[0]), fates[0].now);
    if j'.state != Dead { AllNacked(j', claims[1..], fates[1..]); }
  }

  // --------------------------------------------------------------------- the table

  class JobQueue {
    var jobs: Jobs

    constructor ()
      ensures jobs == map[]
    {
      jobs := map[];
    }

    // Inside the caller's transaction.
    method Enqueue(id: nat, session: nat, kind: JobKind, maxAttempts: nat, runAt: int)
      requires id !in jobs
      modifies this
      ensures jobs == Do(old(jobs), EnqueueOp(id, NewJob(session, kind, maxAttempts, runAt)))
      ensures jobs == old(jobs)[id := Job(session, kind, Queued, 0, maxAttempts, runAt, None)]
    {
      jobs := jobs[id := NewJob(session, kind, maxAttempts, runAt)];
    }

    // The claim: among the rows no other claim holds locked, an eligible one that was due first.
    method Pull(now: int, locked: set<nat>) returns (r: Option<Claim>)
      modifies this
      ensures r.None? <==> forall id :: id in old(jobs) && id !in locked ==> !Eligible(old(jobs)[id], now)
      ensures r.None? <==> forall id :: id in old(jobs) && id !in locked ==>
        && !(old(jobs)[id].state == Queued && old(jobs)[id].runAt <= now)
        && !(old(jobs)[id].state == Running && old(jobs)[id].lease.Some? && old(jobs)[id].lease.value < now)
      ensures r.None? ==> jobs == old(jobs)
      ensures r.Some? ==>
        var id := r.value.id;
        && id !in locked && Can(old(jobs), PullOp(id, now)) && jobs == Do(old(jobs), PullOp(id, now))
        && (forall x :: x in old(jobs) && x !in locked && Eligible(old(jobs)[x], now) ==>
              old(jobs)[id].runAt <= old(jobs)[x].runAt)
        && r.value == Claim(id, jobs[id].session, jobs[id].kind, jobs[id].attempts, jobs[id].maxAttempts)
      ensures r.Some? ==>
        var id := r.value.id;
        && id in old(jobs) && jobs.Keys == old(jobs).Keys
        && (forall x :: x in jobs && x != id ==> jobs[x] == old(jobs)[x])
        && var j, j' := old(jobs)[id], jobs[id];
        && ((j.state == Queued && j.runAt <= now) || (j.state == Running && j.lease.Some? && j.lease.value < now))
        && j'.state == Running && j'.lease == Some(now + 60000) && j'.attempts == j.attempts + 1
        && j'.session == j.session && j'.kind == j.kind && j'.maxAttempts == j.maxAttempts && j'.runAt == j.runAt
    {
      var rest := jobs.Keys - locked;
      var best: Option<nat> := None;
      while rest != {}
        invariant rest <= jobs.Keys - locked && jobs == old(jobs)
        invariant best.None? ==> forall x :: x in jobs && x !in locked && x !in rest ==> !Eligible(jobs[x], now)
        invariant best.Some? ==> best.value in jobs && best.value !in locked && Eligible(jobs[best.value], now)
        invariant best.Some? ==> forall x :: x in jobs && x !in locked && x !in rest && Eligible(jobs[x], now) ==>
          jobs[best.value].runAt <= jobs[x].runAt
        decreases rest
      {
        var id :| id in rest;
        rest := rest - {id};
        if Eligible(jobs[id], now) && (best.None? || jobs[id].runAt < jobs[best.value].runAt) { best := Some(id); }
      }
      if best.None? { return None; }
      var id := best.value;
      jobs := jobs[id := Claimed(jobs[id], now)];
      var j := jobs[id];
      r := Some(Claim(id, j.session, j.kind, j.attempts, j.maxAttempts));
    }

    method ExtendLease(id: nat, now: int)
      modifies this
      ensures jobs == Do(old(jobs), ExtendOp(id, now))
      ensures jobs == if id in old(jobs) then old(jobs)[id := old(jobs)[id].(lease := Some(now + 60000))] else old(jobs)
    {
      if id in jobs { jobs := jobs[id := Extended(jobs[id], now)]; }
    }

    method Ack(id: nat)
      modifies this
      ensures jobs == Do(old(jobs), AckOp(id)) && id !in jobs
      ensures forall x :: x in old(jobs) && x != id ==> x in jobs && jobs[x] == old(jobs)[x]
      ensures jobs.Keys <= old(jobs).Keys
    {
      jobs := jobs - {id};
    }

    // Back to the queue after 2^attempts seconds, or to the dead letters once the attempts are spent.
    method Nack(id: nat, now: int)
      modifies this
      ensures jobs == Do(old(jobs), Op.NackOp(id, now))
      ensures jobs.Keys == old(jobs).Keys && forall x :: x in jobs && x != id ==> jobs[x] == old(jobs)[x]
      ensures id in jobs ==>
        var j, j' := old(jobs)[id], jobs[id];
        && j'.session == j.session && j'.kind == j.kind && j'.attempts == j.attempts && j'.maxAttempts == j.maxAttempts
        && j'.lease.None?
        && (j'.state == Dead <==> j.attempts >= j.maxAttempts)
        && (j.attempts >= j.maxAttempts ==> j'.runAt == j.runAt)
        && (j.attempts < j.maxAttempts ==> j'.state == Queued && j'.runAt == now + 1000 * Pow2(j.attempts))
    {
      if id in jobs { jobs := jobs[id := Nacked(jobs[id], now)]; }
    }

    // The guard of sendMessage: while it answers no, one more turn job leaves the session with one
    // active turn; once it answers yes, one more would make two.
    method HasActiveTurn(session: nat) returns (active: bool)
      ensures active <==> exists id ::
        && id in jobs && jobs[id].session == session && jobs[id].kind == TurnJob
        && (jobs[id].state == Queued || jobs[id].state == Running)
      ensures OneActive(jobs, session) ==>
        forall id: nat, job: Job :: id !in jobs && IsActiveTurn(job, session) ==>
          (OneActive(jobs[id := job], session) <==> !active)
    {
      active := HasActiveTurnIn(jobs, session);
      if OneActive(jobs, session) {
        forall id: nat, job: Job | id !in jobs && IsActiveTurn(job, session)
          ensures OneActive(jobs[id := job], session) <==> !active
        {
          OneMoreTurn(jobs, session, id, job);
        }
      }
    }
  }

  lemma OneMoreTurn(jobs: Jobs, session: nat, id: nat, job: Job)
    requires OneActive(jobs, session) && id !in jobs && IsActiveTurn(job, session)
    ensures OneActive(jobs[id := job], session) <==> !HasActiveTurnIn(jobs, session)
  {
    var jobs' := jobs[id := job];
    if HasActiveTurnIn(jobs, session) {
      var x :| x in jobs && IsActiveTurn(jobs[x], session);
      assert IsActiveTurn(jobs'[x], session) && IsActiveTurn(jobs'[id], session) && x != id;
    }
  }
}

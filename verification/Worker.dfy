// The worker's pull loop and job handling (apps/worker/src/worker.ts): bounded concurrency, the
// outcome table, the wake flag, graceful stop and kill.  Claims are numbered in the order they land.
module Worker {

  datatype Outcome = Completed | FailureRecorded | Abandoned | Conflict | RetryLater | Threw

  datatype Settlement = Acked | Nacked

  // The table: whatever was recorded or is somebody else's is acked, what should be tried again is not.
  function Settles(o: Outcome): Settlement {
    match o
    case RetryLater => Nacked
    case Threw => Nacked
    case _ => Acked
  }

  datatype Outside = Finishes(claim: nat, o: Outcome) | Wakes | Stops | Kills

  datatype PullResult = PullFailed | Nothing | Job

  class Worker {
    const concurrency: nat
    var inFlight: nat
    var draining: bool
    var killed: bool
    var woken: bool
    // The loop is idle, waiting for a wake-up.
    var parked: bool
    var conflicts: nat
    // Claims that landed; which of them run, how the others ended, and which were left to expire.
    var claims: nat
    var running: set<nat>
    var settled: map<nat, Outcome>
    var leftToExpire: set<nat>

    // Every claim is in exactly one place, and no more run than may.
    ghost predicate Valid()
      reads this
    {
      && inFlight == |running| <= concurrency
      && (forall c: nat :: c < claims <==> c in running || c in settled || c in leftToExpire)
      && running !! leftToExpire && running !! settled.Keys && leftToExpire !! settled.Keys
      && (leftToExpire != {} ==> draining)
      && (killed ==> draining)
      && (parked ==> !woken)
      && conflicts == |ConflictsIn(settled)|
    }

    constructor (concurrency: nat)
      requires concurrency > 0
      ensures Valid() && this.concurrency == concurrency && claims == 0 && !draining && !killed
    {
      this.concurrency := concurrency;
      inFlight, draining, killed, woken, parked, conflicts, claims := 0, false, false, false, false, 0, 0;
      running, settled, leftToExpire := {}, map[], {};
    }

    // What an await may change: no claim is lost or settled twice, and orders to stop stay.
    twostate predicate Onward()
      reads this
    {
      && old(claims) <= claims
      && (forall c :: c in old(settled) ==> c in settled && settled[c] == old(settled)[c])
      && old(leftToExpire) <= leftToExpire
      && (old(draining) ==> draining) && (old(killed) ==> killed)
      && (!killed ==> forall c :: c in old(running) ==> c in running || c in settled)
    }

    method SignalWake()
      modifies `woken, `parked
      ensures !parked && woken == !old(parked)
    {
      woken := !parked;
      parked := false;
    }

    // handle(job) comes to its end: settled by the table, or abandoned if the worker was killed.
    method Finish(claim: nat, o: Outcome)
      requires Valid() && claim in running
      modifies this
      ensures Valid() && Onward() && claims == old(claims) && inFlight == old(inFlight) - 1
      ensures running == old(running) - {claim} && parked == old(parked) && woken == old(woken)
      ensures draining == old(draining) && killed == old(killed)
      ensures if killed then settled == old(settled) && claim in leftToExpire else settled == old(settled)[claim := o]
    {
      running, inFlight := running - {claim}, inFlight - 1;
      if killed {
        leftToExpire := leftToExpire + {claim};
        return;
      }
      ConflictsGrow(settled, claim, o);
      settled := settled[claim := o];
      if o == Conflict { conflicts := conflicts + 1; }
    }

    method Happens(e: Outside)
      requires Valid()
      modifies this
      ensures Valid() && Onward() && claims == old(claims) && inFlight <= old(inFlight)
      ensures parked ==> old(parked) && !e.Wakes?
      ensures e.Wakes? && old(!parked) ==> woken
      ensures old(woken) && old(!parked) ==> woken
    {
      match e
      case Finishes(claim, o) =>
        if claim in running { Finish(claim, o); }
      case Wakes => SignalWake();
      case Stops => draining := true; SignalWake();
      case Kills => killed, draining := true, true; SignalWake();
    }

    method Await()
      requires Valid() && !parked
      modifies this
      ensures Valid() && !parked && Onward() && claims == old(claims) && inFlight <= old(inFlight)
    {
      var schedule: seq<Outside> := *;
      for i := 0 to |schedule|
        invariant Valid() && !parked && claims == old(claims) && inFlight <= old(inFlight)
        invariant forall c :: c in old(settled) ==> c in settled && settled[c] == old(settled)[c]
        invariant !killed ==> forall c :: c in old(running) ==> c in running || c in settled
        invariant old(leftToExpire) <= leftToExpire && (old(draining) ==> draining) && (old(killed) ==> killed)
      {
        Happens(schedule[i]);
      }
    }

    // Idle until a NOTIFY or the fallback poll; a wake-up that came earlier is not waited for.
    method WaitForWakeOrTimeout()
      requires Valid() && !parked
      modifies this
      ensures Valid() && !parked && Onward() && claims == old(claims) && inFlight <= old(inFlight)
      ensures old(woken) ==> inFlight == old(inFlight) && settled == old(settled) && !woken
    {
      if woken {
        woken := false;
        return;
      }
      parked := true;
      var ticks: nat := *;
      while ticks > 0 && parked
        invariant Valid() && claims == old(claims) && inFlight <= old(inFlight)
        invariant forall c :: c in old(settled) ==> c in settled && settled[c] == old(settled)[c]
        invariant !killed ==> forall c :: c in old(running) ==> c in running || c in settled
        invariant old(leftToExpire) <= leftToExpire && (old(draining) ==> draining) && (old(killed) ==> killed)
      {
        var e: Outside := *;
        Happens(e);
        ticks := ticks - 1;
      }
      parked := false;
      Await();
    }

    // queue.pull: on the wire while others go on; a claim that lands counts at once.
    method Pull() returns (r: PullResult)
      requires Valid() && !parked && inFlight < concurrency
      modifies this
      ensures !parked && inFlight == |running| < concurrency
      ensures Onward() && claims == old(claims) + if r.Job? then 1 else 0
      ensures !r.Job? ==> Valid()
      ensures r.Job? ==> ValidBut(claims - 1)
    {
      Await();
      var failed: bool, found: bool := *, *;
      r := if failed then PullFailed else if found then Job else Nothing;
      if r.Job? { claims := claims + 1; }
    }

    // Valid, except that the newest claim is not dispatched yet.
    ghost predicate ValidBut(claim: nat)
      reads this
    {
      && inFlight == |running| <= concurrency
      && claims == claim + 1
      && (forall c: nat :: c < claim <==> c in running || c in settled || c in leftToExpire)
      && running !! leftToExpire && running !! settled.Keys && leftToExpire !! settled.Keys
      && (leftToExpire != {} ==> draining)
      && (killed ==> draining)
      && (parked ==> !woken)
      && conflicts == |ConflictsIn(settled)|
    }

    // One round of the pull loop; `over` when the loop returns.
    method Round() returns (over: bool)
      requires Valid() && !parked
      modifies this
      ensures Valid() && !parked && Onward()
      ensures over ==> draining
      ensures old(draining) ==> over && claims == old(claims)
      ensures claims > old(claims) ==> old(inFlight) < concurrency
      ensures claims > old(claims) ==> if draining then over && claims - 1 in leftToExpire else claims - 1 in running
    {
      if draining || killed { return true; }
      if inFlight >= concurrency {
        Await();
        return false;
      }
      var r := Pull();
      match r
      case PullFailed => Await(); over := false;
      case Nothing => WaitForWakeOrTimeout(); over := false;
      case Job =>
        if draining || killed {
          leftToExpire := leftToExpire + {claims - 1};
          return true;
        }
        running, inFlight := running + {claims - 1}, inFlight + 1;
        over := false;
    }

    // The loop, watched for any number of rounds.
    method Run(rounds: nat)
      requires Valid() && !parked
      modifies this
      ensures Valid() && !parked && Onward()
      ensures old(draining) ==> claims == old(claims)
    {
      var left, over := rounds, false;
      while left > 0 && !over
        invariant Valid() && !parked
        invariant old(claims) <= claims && (old(draining) ==> claims == old(claims))
        invariant forall c :: c in old(settled) ==> c in settled && settled[c] == old(settled)[c]
        invariant !killed ==> forall c :: c in old(running) ==> c in running || c in settled
        invariant old(leftToExpire) <= leftToExpire && (old(draining) ==> draining) && (old(killed) ==> killed)
      {
        over := Round();
        left := left - 1;
      }
    }

    // stop: no more pulls, then wait for what is in flight.  Unless killed meanwhile, every claim of
    // this worker that was running is settled by the table.
    method Stop(rounds: nat)
      requires Valid() && !parked
      modifies this
      ensures Valid() && Onward() && draining && claims == old(claims) && running == {}
      ensures !killed ==> forall c :: c in old(running) ==> c in settled
    {
      draining := true;
      SignalWake();
      Run(rounds);
      while inFlight > 0
        invariant Valid() && draining && claims == old(claims)
        invariant forall c :: c in old(settled) ==> c in settled && settled[c] == old(settled)[c]
        invariant !killed ==> forall c :: c in old(running) ==> c in running || c in settled
        invariant old(leftToExpire) <= leftToExpire && (old(killed) ==> killed)
      {
        var claim :| claim in running;
        var o: Outcome := *;
        Finish(claim, o);
      }
    }
  }

  ghost function ConflictsIn(settled: map<nat, Outcome>): set<nat> { set c | c in settled && settled[c] == Conflict }

  lemma ConflictsGrow(settled: map<nat, Outcome>, claim: nat, o: Outcome)
    requires claim !in settled
    ensures |ConflictsIn(settled[claim := o])| == |ConflictsIn(settled)| + if o == Conflict then 1 else 0
  {
    assert ConflictsIn(settled[claim := o]) == ConflictsIn(settled) + if o == Conflict then {claim} else {};
  }
}

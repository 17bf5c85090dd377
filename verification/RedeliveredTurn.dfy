// A run of one session, from its creation, in which a second session_provisioned lands behind a finished
// turn and the turn's job is delivered again.
module RedeliveredTurn {
  import opened Prelude
  import opened Events
  import opened Queue
  import opened Sessions
  import opened SessionFates

  // A turn delivery of job id, past the gate and holding the log.
  ghost predicate Looks(x: State, y: State, w: nat, id: nat, now: int) {
    && id in x.jobs
    && y == x.(jobs := x.jobs[id := Claimed(x.jobs[id], now)], turns := x.turns[w := Looking(x.log)])
  }

  lemma TurnLooks(s: State, x: State, w: nat, id: nat, now: int) returns (y: State)
    requires LeadsTo(s, x) && x.status == ReadyToRun && Enabled(x, TakeTurn(w, id, now))
    ensures LeadsTo(s, y) && Looks(x, y, w, id, now)
  {
    Next(s, x, TakeTurn(w, id, now));
    var x1 := Apply(x, TakeTurn(w, id, now));
    Next(s, x1, TurnGate(w));
    var x2 := Apply(x1, TurnGate(w));
    Next(s, x2, TurnReads(w));
    y := Apply(x2, TurnReads(w));
    assert y.turns == x.turns[w := Looking(x.log)];
  }

  lemma TurnWrites(s: State, x: State, w: nat, p: Payload)
    requires LeadsTo(s, x) && Enabled(x, TurnAppends(w, p))
    ensures LeadsTo(s, Wrote(x, p, false))
  {
    Next(s, x, TurnAppends(w, p));
  }

  // One message sent while two provision deliveries are past the check; the first one closes.
  lemma FirstClose(s: State, words: seq<string>) returns (x: State, id: nat)
    requires IsInit(s)
    ensures LeadsTo(s, x) && x.status == ReadyToRun && x.turns == map[]
    ensures x.provisions == map[0 := ProvisionOver, 1 := Working]
    ensures id in x.jobs && x.jobs[id] == NewJob(SESSION, TurnJob, 5, 0)
    ensures x.external == [true, true]
    ensures x.log == [Event(1, UserMessage(words)), Event(2, SessionProvisioned)]
  {
    var job := OnlyJob(s);
    var x0 := BothWorking(s, job);
    Fresh(x0.jobs.Keys);
    id :| id !in x0.jobs.Keys;
    Next(s, x0, Send(words, id, 5, 0));
    var x1 := Apply(x0, Send(words, id, 5, 0));
    ClosesNow(s, x1, 0);
    x := Closed(x1, 0);
    assert x.provisions == map[0 := ProvisionOver, 1 := Working];
    assert x1.log == [Event(1, UserMessage(words))] && x1.external == [true];
  }

  // The turn runs to its end before the second delivery closes.
  lemma FirstTurn(s: State, x: State, id: nat, reply: Payload) returns (y: State)
    requires LeadsTo(s, x) && x.status == ReadyToRun
    requires x.turns == map[] && x.provisions == map[0 := ProvisionOver, 1 := Working]
    requires id in x.jobs && x.jobs[id] == NewJob(SESSION, TurnJob, 5, 0) && reply.AssistantMessage?
    ensures LeadsTo(s, y) && y.status == ReadyToRun && y.provisions == x.provisions && y.turns.Keys == {2}
    ensures id in y.jobs && y.jobs[id] == Claimed(x.jobs[id], 0)
    ensures y.log == Logged(Logged(x.log, reply), TurnCompleted) && y.external == x.external + [false] + [false]
  {
    var x1 := TurnLooks(s, x, 2, id, 0);
    TurnWrites(s, x1, 2, reply);
    TurnWrites(s, Wrote(x1, reply, false), 2, TurnCompleted);
    y := Wrote(Wrote(x1, reply, false), TurnCompleted, false);
  }

  // The late close, and the job again once its lease ran out.
  lemma LateCloseAndAgain(s: State, y: State, id: nat) returns (z: State)
    requires LeadsTo(s, y) && y.provisions == map[0 := ProvisionOver, 1 := Working] && y.turns.Keys == {2}
    requires id in y.jobs && y.jobs[id] == Claimed(NewJob(SESSION, TurnJob, 5, 0), 0)
    ensures LeadsTo(s, z)
    ensures z.log == Logged(Logged(y.log, SessionProvisioned), TurnCompleted)
    ensures z.external == y.external + [true] + [false]
  {
    ClosesNow(s, y, 1);
    var y1 := Closed(y, 1);
    var y2 := TurnLooks(s, y1, 3, id, LEASE_MS + 1);
    TurnWrites(s, y2, 3, TurnCompleted);
    z := Wrote(y2, TurnCompleted, false);
  }

  function EndsTwice(words: seq<string>, reply: Payload): Log {
    [Event(1, UserMessage(words)), Event(2, SessionProvisioned), Event(3, reply),
     Event(4, TurnCompleted), Event(5, SessionProvisioned), Event(6, TurnCompleted)]
  }

  // Any new session can come to a log in which one turn ends twice.
  lemma TurnEndsTwice(s: State, words: seq<string>, reply: Payload) returns (z: State)
    requires IsInit(s) && reply.AssistantMessage?
    ensures LeadsTo(s, z) && z.log == EndsTwice(words, reply) && z.external == [true, true, false, false, true, false]
  {
    var x, id := FirstClose(s, words);
    var y := FirstTurn(s, x, id, reply);
    z := LateCloseAndAgain(s, y, id);
  }
}

// Concurrency refines the sequential loop: when the model's reply depends only on its context and a
// command's result only on its key, every crash schedule writes a prefix of the one-worker log.
module Sequential {
  import opened Prelude
  import opened Events
  import opened Reducer
  import opened Store
  import opened Conversation
  import opened NativeProtocol
  import opened NativeRuns

  ghost predicate Deterministic(c: Config) {
    && (forall ctx, r, r' :: c.replyOk(ctx, r) && c.replyOk(ctx, r') ==> r == r')
    && (forall k, x, x' :: c.resultOk(k, x) && c.resultOk(k, x') ==> x == x')
  }

  // What a lone, never failing worker appends next, if anything.
  ghost function OneWorkerNext(c: Config, log: Log): Option<Payload> {
    match NextAction(log, c.maxIterations)
    case Infer =>
      var ctx := Context(log, c.systemPrompt);
      if exists r :: c.replyOk(ctx, r) then var r :| c.replyOk(ctx, r); Some(ReplyPayload(r)) else None
    case ExecTool(_, key) =>
      if exists x :: c.resultOk(key, x) then var x :| c.resultOk(key, x); Some(ToolResult(key, x)) else None
    case Finish => Some(TurnCompleted)
    case Fail => Some(TurnFailed(Budget))
    case Noop => None
    case Throws => None
  }

  type Worker = Log -> Option<Payload>

  ghost function OneWorker(c: Config): Worker { log => OneWorkerNext(c, log) }

  // A worker's log after at most n appends to `log`.
  ghost function WorkerLog(w: Worker, log: Log, n: nat): Log
    decreases n
  {
    if n == 0 || w(log).None? then log else WorkerLog(w, log + [Event(|log| + 1, w(log).value)], n - 1)
  }

  lemma {:induction false} WorkerLogGrows(w: Worker, log: Log, m: nat, n: nat)
    requires m <= n
    ensures WorkerLog(w, log, m) <= WorkerLog(w, log, n)
    decreases n
  {
    if n > 0 && w(log).Some? {
      var next := log + [Event(|log| + 1, w(log).value)];
      if m == 0 {
        WorkerLogGrows(w, next, 0, n - 1);
        assert log <= next <= WorkerLog(w, next, n - 1);
      } else {
        WorkerLogGrows(w, next, m - 1, n - 1);
      }
    }
  }

  // Runs compose, as long as the worker did not stop on the way.
  lemma {:induction false} WorkerLogSplits(w: Worker, log: Log, m: nat, n: nat)
    ensures WorkerLog(w, log, m + n) == WorkerLog(w, WorkerLog(w, log, m), n)
    decreases m
  {
    if m > 0 && w(log).Some? {
      WorkerLogSplits(w, log + [Event(|log| + 1, w(log).value)], m - 1, n);
    }
  }

  // Rows k.. of the log are the worker's own steps.
  ghost predicate WorkersFrom(w: Worker, log: Log, k: nat) {
    Numbered(log) && forall i :: k <= i < |log| ==> w(log[..i]) == Some(log[i].payload)
  }

  lemma {:induction false} FollowedIsWorkerLog(w: Worker, log: Log, k: nat)
    requires WorkersFrom(w, log, k) && k <= |log|
    ensures log == WorkerLog(w, log[..k], |log| - k)
    decreases |log| - k
  {
    if k < |log| {
      assert log[..k + 1] == log[..k] + [Event(k + 1, log[k].payload)];
      FollowedIsWorkerLog(w, log, k + 1);
    } else {
      assert log[..k] == log;
    }
  }

  lemma StoppedStays(w: Worker, log: Log, m: nat, n: nat)
    requires m <= n && w(WorkerLog(w, log, m)).None?
    ensures WorkerLog(w, log, n) == WorkerLog(w, log, m)
  {
    WorkerLogSplits(w, log, m, n - m);
  }

  lemma PrescriptionIsDetermined(c: Config, before: Log, p: Payload)
    requires Deterministic(c) && Prescribes(c, before, p, false)
    requires !(p.TurnFailed? && ErrorPathClass(p.cls))
    ensures OneWorkerNext(c, before) == Some(p)
  {
    match NextAction(before, c.maxIterations)
    case Infer =>
      var r :| p == ReplyPayload(r) && c.replyOk(Context(before, c.systemPrompt), r);
    case ExecTool(_, key) => assert c.resultOk(key, p.result);
    case _ =>
  }

  // Rows k.. of this log were all appended by the loop itself: no user message, no provisioning and
  // no error-path failure.
  ghost predicate Undisturbed(log: Log, external: seq<bool>, k: nat) {
    && |external| == |log| && k <= |log|
    && forall j :: k <= j < |log| ==>
         !external[j] && !(log[j].payload.TurnFailed? && ErrorPathClass(log[j].payload.cls))
  }

  lemma RowIsOneWorkers(c: Config, log: Log, external: seq<bool>, k: nat, i: nat)
    requires Deterministic(c) && Prescribed(c, log, external) && Undisturbed(log, external, k) && k <= i < |log|
    ensures OneWorker(c)(log[..i]) == Some(log[i].payload)
  {
    assert PrescribedAt(c, log, external, i);
    PrescriptionIsDetermined(c, log[..i], log[i].payload);
  }

  lemma UndisturbedFollows(c: Config, log: Log, external: seq<bool>, k: nat)
    requires Deterministic(c) && Numbered(log) && Prescribed(c, log, external) && Undisturbed(log, external, k)
    ensures WorkersFrom(OneWorker(c), log, k)
  {
    forall i | k <= i < |log| ensures OneWorker(c)(log[..i]) == Some(log[i].payload) {
      RowIsOneWorkers(c, log, external, k, i);
    }
  }

  lemma ReachableLog(c: Config, run: seq<State>, steps: seq<Step>, i: nat)
    requires IsRun(c, run, steps) && i < |run|
    ensures Numbered(LogIn(run[i])) && Prescribed(c, LogIn(run[i]), run[i].external)
  {
    RunsKeepInv(c, run, steps, i);
    DenseReadAll(run[i].rows);
  }

  lemma ReachableFollows(c: Config, run: seq<State>, steps: seq<Step>, i: nat, k: nat)
    requires Deterministic(c) && IsRun(c, run, steps) && i < |run|
    requires Undisturbed(LogIn(run[i]), run[i].external, k)
    ensures WorkersFrom(OneWorker(c), LogIn(run[i]), k)
  {
    ReachableLog(c, run, steps, i);
    UndisturbedFollows(c, LogIn(run[i]), run[i].external, k);
  }

  lemma ReachableIsWorkerLog(c: Config, run: seq<State>, steps: seq<Step>, i: nat, k: nat)
    requires Deterministic(c) && IsRun(c, run, steps) && i < |run|
    requires Undisturbed(LogIn(run[i]), run[i].external, k)
    ensures LogIn(run[i]) == WorkerLog(OneWorker(c), LogIn(run[i])[..k], |LogIn(run[i])| - k)
  {
    ReachableFollows(c, run, steps, i, k);
    FollowedIsWorkerLog(OneWorker(c), LogIn(run[i]), k);
  }

  // Any reachable log, from its last outside append (or error-path failure) on, is a prefix of what
  // one worker that never crashes writes from there.
  lemma CrashScheduleIsPrefix(c: Config, run: seq<State>, steps: seq<Step>, i: nat, k: nat, n: nat)
    requires Deterministic(c) && IsRun(c, run, steps) && i < |run|
    requires Undisturbed(LogIn(run[i]), run[i].external, k) && |LogIn(run[i])| <= k + n
    ensures LogIn(run[i]) <= WorkerLog(OneWorker(c), LogIn(run[i])[..k], n)
  {
    ReachableIsWorkerLog(c, run, steps, i, k);
    WorkerLogGrows(OneWorker(c), LogIn(run[i])[..k], |LogIn(run[i])| - k, n);
  }

  // Two logs of one worker from one base agree once both have nothing left to do.
  lemma BothStopped(w: Worker, log: Log, log': Log, k: nat)
    requires k <= |log| && k <= |log'| && log[..k] == log'[..k] && w(log).None? && w(log').None?
    requires log == WorkerLog(w, log[..k], |log| - k) && log' == WorkerLog(w, log'[..k], |log'| - k)
    ensures log == log'
  {
    if |log| <= |log'| {
      StoppedStays(w, log[..k], |log| - k, |log'| - k);
    } else {
      StoppedStays(w, log'[..k], |log'| - k, |log| - k);
    }
  }

  lemma TerminalStops(c: Config, log: Log)
    requires EndsTerminal(log)
    ensures OneWorker(c)(log) == None
  {
  }

  // Two schedules of one turn, with whatever crashes, that both reached the end wrote the same log.
  lemma FinishedSchedulesAgree(c: Config, run: seq<State>, steps: seq<Step>, run': seq<State>, steps': seq<Step>,
                               i: nat, i': nat, k: nat)
    requires Deterministic(c) && IsRun(c, run, steps) && IsRun(c, run', steps') && i < |run| && i' < |run'|
    requires Undisturbed(LogIn(run[i]), run[i].external, k) && Undisturbed(LogIn(run'[i']), run'[i'].external, k)
    requires LogIn(run[i])[..k] == LogIn(run'[i'])[..k]
    requires EndsTerminal(LogIn(run[i])) && EndsTerminal(LogIn(run'[i']))
    ensures LogIn(run[i]) == LogIn(run'[i'])
  {
    var log, log' := LogIn(run[i]), LogIn(run'[i']);
    ReachableIsWorkerLog(c, run, steps, i, k);
    ReachableIsWorkerLog(c, run', steps', i', k);
    TerminalStops(c, log);
    TerminalStops(c, log');
    BothStopped(OneWorker(c), log, log', k);
  }
}

// Each step of the harness protocol keeps Inv.
module HarnessSteps {
  import opened Prelude
  import opened Events
  import opened Reducer
  import opened Store
  import opened OutputFiles
  import opened Sandbox
  import opened HarnessProtocol
  import opened HarnessSafety

  // --------------------------------------------------------- growing one's view

  lemma ViewFacts(s: State, d: nat)
    requires ViewsArePrefixes(s) && ResultsUnique(LogIn(s)) && d in s.deliveries
    ensures Numbered(s.deliveries[d].view) && LastSeq(s.deliveries[d].view) == |s.deliveries[d].view|
    ensures ResultsUnique(s.deliveries[d].view)
  {
    DenseReadAll(s.rows);
    var view := s.deliveries[d].view;
    assert forall i :: 0 <= i < |view| ==> view[i] == LogIn(s)[i];
  }

  // A key journaled at or after position n has no result yet in a log of n events.
  lemma FutureKeyUnanswered(log: Log, key: IdemKey)
    requires ResultsUnique(log) && key.seqNo > |log|
    ensures !Answered(log, 0, key)
  {
  }

  lemma JobPersists(box: Box, view: Log, e: Event, key: IdemKey, job: Job)
    requires JobOk(box, view, key, job) && !(e.payload.ToolResult? && e.payload.idemKey == key)
    ensures JobOk(box, view + [e], key, job)
  {
    AnsweredPush(view, e, key);
    CallPersists(view, view + [e], key, job.call);
  }

  // What jobs' may hold after e landed: jobs that are fine in the longer view, or old ones e leaves open.
  ghost predicate JobsCarry(box: Box, view: Log, e: Event, jobs: map<IdemKey, Job>, jobs': map<IdemKey, Job>) {
    && (forall k :: k in jobs' ==>
          || JobOk(box, view + [e], k, jobs'[k])
          || (k in jobs && jobs'[k] == jobs[k] && !(e.payload.ToolResult? && e.payload.idemKey == k)))
  }

  // jobs' drops only what e answers, and takes up what e calls.
  ghost predicate KeepsOpen(view: Log, e: Event, jobs: map<IdemKey, Job>, jobs': map<IdemKey, Job>) {
    && (forall k :: k in jobs ==> k in jobs' || (e.payload.ToolResult? && e.payload.idemKey == k))
    && (MakesCall(e.payload) ==> IdemKey(|view| + 1, 0) in jobs')
  }

  lemma OpenPersists(view: Log, e: Event, jobs: map<IdemKey, Job>, jobs': map<IdemKey, Job>)
    requires AnsweredOrOpen(view, jobs) && !e.payload.UserMessage? && KeepsOpen(view, e, jobs, jobs')
    ensures AnsweredOrOpen(view + [e], jobs')
  {
    var view' := view + [e];
    IndexPush(view, e, User);
    forall i | LastIndex(view', User) < i < |view'| && MakesCall(view'[i].payload)
      ensures Answered(view', 0, IdemKey(i + 1, 0)) || IdemKey(i + 1, 0) in jobs'
    {
      if i < |view| {
        assert view'[i] == view[i];
        AnsweredPush(view, e, IdemKey(i + 1, 0));
      }
    }
  }

  lemma JobsPush(box: Box, view: Log, e: Event, jobs: map<IdemKey, Job>, jobs': map<IdemKey, Job>)
    requires JobsOk(box, view, jobs) && JobsCarry(box, view, e, jobs, jobs')
    ensures JobsOk(box, view + [e], jobs')
  {
    forall k | k in jobs' ensures JobOk(box, view + [e], k, jobs'[k]) {
      if !JobOk(box, view + [e], k, jobs'[k]) { JobPersists(box, view, e, k, jobs[k]); }
    }
  }

  lemma OpenPush(dv: Delivery, e: Event, jobs': map<IdemKey, Job>)
    requires dv.pc.Recovering? || dv.pc == Driving(false) ==> AnsweredOrOpen(dv.view, dv.jobs)
    requires !e.payload.UserMessage? && KeepsOpen(dv.view, e, dv.jobs, jobs')
    ensures dv.pc.Recovering? || dv.pc == Driving(false) ==> AnsweredOrOpen(dv.view + [e], jobs')
  {
    if dv.pc.Recovering? || dv.pc == Driving(false) { OpenPersists(dv.view, e, dv.jobs, jobs'); }
  }

  lemma PlacePush(d: nat, dv: Delivery, p: Payload, jobs': map<IdemKey, Job>)
    requires PlaceOk(d, dv) && !p.UserMessage? && !p.HarnessAttemptStarted?
    requires KeepsOpen(dv.view, Event(LastSeq(dv.view) + 1, p), dv.jobs, jobs')
    ensures PlaceOk(d, Pushed(dv, p).(jobs := jobs'))
  {
    var e := Event(LastSeq(dv.view) + 1, p);
    AttemptPush(dv.view, e);
    OpenPush(dv, e, jobs');
  }

  // The delivery after its own row p landed, with jobs' in place of its jobs.
  lemma DeliveryPush(box: Box, d: nat, dv: Delivery, p: Payload, jobs': map<IdemKey, Job>)
    requires DeliveryOk(box, d, dv) && !p.UserMessage? && !p.HarnessAttemptStarted?
    requires var e := Event(LastSeq(dv.view) + 1, p);
      JobsCarry(box, dv.view, e, dv.jobs, jobs') && KeepsOpen(dv.view, e, dv.jobs, jobs')
    ensures DeliveryOk(box, d, Pushed(dv, p).(jobs := jobs'))
  {
    JobsPush(box, dv.view, Event(LastSeq(dv.view) + 1, p), dv.jobs, jobs');
    PlacePush(d, dv, p, jobs');
  }

  // ---------------------------------------------------------------- appends

  // Everything an insert of p by d needs, whichever way it goes.
  ghost predicate Fits(s: State, d: nat, p: Payload, won: Delivery, lost: Delivery, broke: Delivery)
    requires d in s.deliveries
  {
    && MayAppend(s, d, p)
    && won.view == Pushed(s.deliveries[d], p).view && lost.view == broke.view == s.deliveries[d].view
    && MayBecome(s, d, won) && MayBecome(s, d, lost) && MayBecome(s, d, broke)
    && (p.HarnessAttemptStarted? ==> (won.fenced || won.pc.Gone?) && (broke.fenced || broke.pc.Gone?))
  }

  lemma FitsKeepsInv(s: State, d: nat, p: Payload, acked: bool, won: Delivery, lost: Delivery, broke: Delivery)
    requires Inv(s) && d in s.deliveries && Fits(s, d, p, won, lost, broke)
    ensures Inv(Insert(s, d, p, acked, won, lost, broke))
  {
    InsertKeepsInv(s, d, p, acked, won, lost, broke);
  }

  lemma TerminalFits(s: State, d: nat, p: Payload)
    requires d in s.deliveries && DeliveryOk(s.box, d, s.deliveries[d]) && IsTerminal(p)
    requires s.deliveries[d].fenced || (p.TurnFailed? && !s.deliveries[d].pc.Gone?)
    ensures var dv := s.deliveries[d]; Fits(s, d, p, Left(Pushed(dv, p)), Left(dv), Left(dv))
  {
    AttemptPush(s.deliveries[d].view, Event(LastSeq(s.deliveries[d].view) + 1, p));
  }

  // A terminal row by a delivery that leaves: commit, error path, no driver.
  lemma TerminalKeepsInv(s: State, d: nat, p: Payload, acked: bool)
    requires Inv(s) && d in s.deliveries && IsTerminal(p)
    requires s.deliveries[d].fenced || (p.TurnFailed? && !s.deliveries[d].pc.Gone?)
    ensures var dv := s.deliveries[d]; Inv(Insert(s, d, p, acked, Left(Pushed(dv, p)), Left(dv), Left(dv)))
  {
    var dv := s.deliveries[d];
    assert DeliveryOk(s.box, d, dv);
    TerminalFits(s, d, p);
    FitsKeepsInv(s, d, p, acked, Left(Pushed(dv, p)), Left(dv), Left(dv));
  }

  // The calls a fresh attempt takes over are executable and complete the turn.
  lemma TakenOver(box: Box, view: Log)
    requires Numbered(view) && ResultsUnique(view)
    ensures var jobs := OpenCalls(view);
      && JobsOk(box, view, jobs) && AnsweredOrOpen(view, jobs) && (forall k :: k in jobs ==> jobs[k].pc.Start?)
  {
    var from := LastIndex(view, User) + 1;
    OutstandingSpec(view, from, |view|);
    var jobs := Outstanding(view, from, |view|);
    forall k | k in jobs ensures JobOk(box, view, k, jobs[k]) {
      UnansweredInTurn(view, from, k);
    }
    forall i | LastIndex(view, User) < i < |view| && MakesCall(view[i].payload)
      ensures Answered(view, 0, IdemKey(i + 1, 0)) || IdemKey(i + 1, 0) in jobs
    {
      if Answered(view, from, IdemKey(i + 1, 0)) { AnsweredFromStart(view, from, IdemKey(i + 1, 0)); }
    }
  }

  lemma FencedOk(box: Box, d: nat, dv: Delivery, p: Payload)
    requires Numbered(dv.view) && ResultsUnique(dv.view) && p.HarnessAttemptStarted? && p.attempt == d
    requires LastSeq(dv.view) == |dv.view|
    ensures DeliveryOk(box, d, Fenced(dv, p)) && forall k :: !Holds(Fenced(dv, p), k)
  {
    var e := Event(LastSeq(dv.view) + 1, p);
    AttemptPush(dv.view, e);
    PushKeepsShape(dv.view, e);
    TakenOver(box, dv.view + [e]);
  }

  lemma PushKeepsShape(log: Log, e: Event)
    requires Numbered(log) && ResultsUnique(log) && !e.payload.ToolResult? && e.seqNo == |log| + 1
    ensures Numbered(log + [e]) && ResultsUnique(log + [e])
  {
  }

  // A call of the turn answered at all is answered within the turn, for results follow their calls.
  lemma UnansweredInTurn(view: Log, from: nat, k: IdemKey)
    requires ResultsUnique(view) && from < k.seqNo && !Answered(view, from, k)
    ensures !Answered(view, 0, k)
  {
  }

  lemma AnsweredFromStart(view: Log, from: int, k: IdemKey)
    requires Answered(view, from, k)
    ensures Answered(view, 0, k)
  {
    var i :| 0 <= i < |view| && from <= i && view[i].payload.ToolResult? && view[i].payload.idemKey == k;
    assert 0 <= i;
  }

  lemma FenceFits(s: State, d: nat, tip: Option<string>)
    requires d in s.deliveries && DeliveryOk(s.box, d, s.deliveries[d]) && s.deliveries[d].pc.Loaded?
    requires var view := s.deliveries[d].view; Numbered(view) && ResultsUnique(view) && LastSeq(view) == |view|
    ensures var dv, p := s.deliveries[d], HarnessAttemptStarted(d, tip);
      Fits(s, d, p, Fenced(dv, p), Left(dv), Left(dv))
  {
    FencedOk(s.box, d, s.deliveries[d], HarnessAttemptStarted(d, tip));
    LeavesOk(s, d);
  }

  lemma FenceKeepsInv(s: State, d: nat, tip: Option<string>, acked: bool)
    requires Inv(s) && Enabled(s, Fence(d, tip, acked))
    ensures Inv(Apply(s, Fence(d, tip, acked)))
  {
    var dv, p := s.deliveries[d], HarnessAttemptStarted(d, tip);
    assert DeliveryOk(s.box, d, dv);
    ViewFacts(s, d);
    FenceFits(s, d, tip);
    FitsKeepsInv(s, d, p, acked, Fenced(dv, p), Left(dv), Left(dv));
  }

  lemma LatchedOk(s: State, d: nat, key: Option<IdemKey>)
    requires d in s.deliveries && s.deliveries[d].pc.Driving? && DeliveryOk(s.box, d, s.deliveries[d])
    ensures MayBecome(s, d, Latched(s.deliveries[d], key))
  {
  }

  lemma LeavesOk(s: State, d: nat)
    requires d in s.deliveries && DeliveryOk(s.box, d, s.deliveries[d])
    ensures MayBecome(s, d, Left(s.deliveries[d]))
    ensures !s.deliveries[d].pc.Gone? ==> MayBecome(s, d, Errs(s.deliveries[d]))
  {
  }

  lemma ResultCloses(box: Box, d: nat, dv: Delivery, key: IdemKey)
    requires DeliveryOk(box, d, dv) && key in dv.jobs && dv.jobs[key].pc.Done?
    ensures DeliveryOk(box, d, Pushed(dv, ToolResult(key, dv.jobs[key].pc.res)).(jobs := dv.jobs - {key}))
  {
    DeliveryPush(box, d, dv, ToolResult(key, dv.jobs[key].pc.res), dv.jobs - {key});
  }

  lemma MayAppendResult(s: State, d: nat, key: IdemKey)
    requires ViewsArePrefixes(s) && DeliveriesOk(s) && ResultsUnique(LogIn(s))
    requires Executing(s, d, key) && s.deliveries[d].jobs[key].pc.Done?
    ensures MayAppend(s, d, ToolResult(key, s.deliveries[d].jobs[key].pc.res))
  {
    var dv := s.deliveries[d];
    assert DeliveryOk(s.box, d, dv) && JobOk(s.box, dv.view, key, dv.jobs[key]);
    ViewFacts(s, d);
  }

  // Where a result that was not recorded leaves its delivery.
  function Unrecorded(dv: Delivery, key: IdemKey, lost: bool): Delivery {
    if !dv.pc.Recovering? then Latched(dv, Some(key)) else if lost then Left(dv) else Errs(dv)
  }

  lemma ResultFits(s: State, d: nat, key: IdemKey)
    requires Executing(s, d, key) && s.deliveries[d].jobs[key].pc.Done? && DeliveryOk(s.box, d, s.deliveries[d])
    requires MayAppend(s, d, ToolResult(key, s.deliveries[d].jobs[key].pc.res))
    ensures var dv := s.deliveries[d]; var p := ToolResult(key, dv.jobs[key].pc.res);
      Fits(s, d, p, Pushed(dv, p).(jobs := dv.jobs - {key}), Unrecorded(dv, key, true), Unrecorded(dv, key, false))
  {
    ResultCloses(s.box, d, s.deliveries[d], key);
    if s.deliveries[d].pc.Recovering? { LeavesOk(s, d); } else { LatchedOk(s, d, Some(key)); }
  }

  lemma AppendResultKeepsInv(s: State, d: nat, key: IdemKey, acked: bool)
    requires Inv(s) && Enabled(s, AppendResult(d, key, acked))
    ensures Inv(Apply(s, AppendResult(d, key, acked)))
  {
    var dv := s.deliveries[d];
    var p := ToolResult(key, dv.jobs[key].pc.res);
    MayAppendResult(s, d, key);
    assert DeliveryOk(s.box, d, dv);
    ResultFits(s, d, key);
    var won := Pushed(dv, p).(jobs := dv.jobs - {key});
    FitsKeepsInv(s, d, p, acked, won, Unrecorded(dv, key, true), Unrecorded(dv, key, false));
  }

  lemma TextPush(box: Box, d: nat, dv: Delivery, p: Payload)
    requires DeliveryOk(box, d, dv) && p.AssistantMessage? && p.toolCalls == []
    ensures DeliveryOk(box, d, Pushed(dv, p))
  {
    DeliveryPush(box, d, dv, p, dv.jobs);
    assert Pushed(dv, p).(jobs := dv.jobs) == Pushed(dv, p);
  }

  lemma TextFits(s: State, d: nat, p: Payload)
    requires d in s.deliveries && s.deliveries[d].pc.Driving? && DeliveryOk(s.box, d, s.deliveries[d])
    requires p.AssistantMessage? && p.toolCalls == []
    ensures var dv := s.deliveries[d]; Fits(s, d, p, Pushed(dv, p), Latched(dv, None), Latched(dv, None))
  {
    TextPush(s.box, d, s.deliveries[d], p);
    LatchedOk(s, d, None);
  }

  // The driver's own appends: one that fails only trips the latch.
  lemma DriverTextKeepsInv(s: State, d: nat, content: seq<string>, acked: bool)
    requires Inv(s) && Enabled(s, DriverText(d, content, acked))
    ensures Inv(Apply(s, DriverText(d, content, acked)))
  {
    var dv, p := s.deliveries[d], AssistantMessage(content, []);
    assert DeliveryOk(s.box, d, dv);
    TextFits(s, d, p);
    FitsKeepsInv(s, d, p, acked, Pushed(dv, p), Latched(dv, None), Latched(dv, None));
  }

  // A call just journaled opens its job.
  lemma CallOpens(box: Box, d: nat, dv: Delivery, call: ToolCall)
    requires DeliveryOk(box, d, dv) && ResultsUnique(dv.view) && LastSeq(dv.view) == |dv.view|
    ensures var key := IdemKey(LastSeq(dv.view) + 1, 0);
      DeliveryOk(box, d, WithJob(Pushed(dv, AssistantMessage([], [call])), key, Job(call, Start)))
  {
    var p, key := AssistantMessage([], [call]), IdemKey(LastSeq(dv.view) + 1, 0);
    var jobs' := dv.jobs[key := Job(call, Start)];
    FutureKeyUnanswered(dv.view, key);
    AnsweredPush(dv.view, Event(key.seqNo, p), key);
    assert JobOk(box, dv.view + [Event(key.seqNo, p)], key, Job(call, Start));
    DeliveryPush(box, d, dv, p, jobs');
    assert WithJob(Pushed(dv, p), key, Job(call, Start)) == Pushed(dv, p).(jobs := jobs');
  }

  function Calls(dv: Delivery, call: ToolCall): Delivery {
    WithJob(Pushed(dv, AssistantMessage([], [call])), IdemKey(LastSeq(dv.view) + 1, 0), Job(call, Start))
  }

  lemma CallIsMove(s: State, d: nat, call: ToolCall)
    requires d in s.deliveries && s.deliveries[d].pc.Driving? && DeliveryOk(s.box, d, s.deliveries[d])
    requires ResultsUnique(s.deliveries[d].view) && LastSeq(s.deliveries[d].view) == |s.deliveries[d].view|
    ensures MayBecome(s, d, Calls(s.deliveries[d], call))
  {
    CallOpens(s.box, d, s.deliveries[d], call);
    CallTakesNoLock(s.deliveries[d], call);
  }

  lemma CallTakesNoLock(dv: Delivery, call: ToolCall)
    ensures var dv' := Calls(dv, call);
      dv'.fenced == dv.fenced && dv'.pc == dv.pc && forall k :: Holds(dv', k) ==> Holds(dv, k)
  {
  }

  lemma CallFits(s: State, d: nat, call: ToolCall)
    requires d in s.deliveries && s.deliveries[d].pc.Driving? && DeliveryOk(s.box, d, s.deliveries[d])
    requires ResultsUnique(s.deliveries[d].view) && LastSeq(s.deliveries[d].view) == |s.deliveries[d].view|
    ensures var dv := s.deliveries[d];
      Fits(s, d, AssistantMessage([], [call]), Calls(dv, call), Latched(dv, None), Latched(dv, None))
  {
    CallIsMove(s, d, call);
    LatchedOk(s, d, None);
  }

  lemma DriverCallKeepsInv(s: State, d: nat, call: ToolCall, acked: bool)
    requires Inv(s) && Enabled(s, DriverCall(d, call, acked))
    ensures Inv(Apply(s, DriverCall(d, call, acked)))
  {
    var dv := s.deliveries[d];
    assert DeliveryOk(s.box, d, dv);
    ViewFacts(s, d);
    CallFits(s, d, call);
    FitsKeepsInv(s, d, AssistantMessage([], [call]), acked, Calls(dv, call), Latched(dv, None), Latched(dv, None));
  }

  // ------------------------------------------------------------ sandbox steps

  lemma DeliveryInLaterBox(box: Box, box': Box, d: nat, dv: Delivery)
    requires DeliveryOk(box, d, dv) && BoxLater(box, box')
    requires forall k :: Holds(dv, k) ==> k in box'.dirs && box'.dirs[k] == Made
    ensures DeliveryOk(box', d, dv)
  {
    forall k | k in dv.jobs ensures JobOk(box', dv.view, k, dv.jobs[k]) {
      assert JobOk(box, dv.view, k, dv.jobs[k]);
      if dv.jobs[k].pc.Done? { ReportsPersist(box, box', k, dv.jobs[k].pc.res); }
      if dv.jobs[k].pc.Holding? { assert Holds(dv, k); }
    }
  }

  lemma HeldKeysMade(s: State)
    requires DeliveriesOk(s)
    ensures forall d, k :: d in s.deliveries && Holds(s.deliveries[d], k) ==> k in s.box.dirs && s.box.dirs[k] == Made
  {
    forall d, k | d in s.deliveries && Holds(s.deliveries[d], k) ensures k in s.box.dirs && s.box.dirs[k] == Made {
      assert DeliveryOk(s.box, d, s.deliveries[d]);
      assert JobOk(s.box, s.deliveries[d].view, k, s.deliveries[d].jobs[k]);
    }
  }

  // The job of one key moved on in d; the sandbox only grew where no one else holds a lock.
  ghost predicate Moved(s: State, d: nat, key: IdemKey, pc: ExecPc, box': Box) {
    && DeliveriesOk(s) && LocksHeldOnce(s) && Executing(s, d, key) && BoxLater(s.box, box')
    && JobOk(box', s.deliveries[d].view, key, s.deliveries[d].jobs[key].(pc := pc))
    && (forall x, k :: x in s.deliveries && Holds(s.deliveries[x], k) && (x != d || k != key) ==>
          k in box'.dirs && box'.dirs[k] == Made)
    && (pc.Holding? ==> forall x :: x in s.deliveries ==> !Holds(s.deliveries[x], key))
  }

  function After(s: State, d: nat, key: IdemKey, pc: ExecPc): Delivery
    requires Executing(s, d, key)
  {
    WithJob(s.deliveries[d], key, s.deliveries[d].jobs[key].(pc := pc))
  }

  lemma JobsAfterMove(box: Box, box': Box, view: Log, jobs: map<IdemKey, Job>, key: IdemKey, job': Job)
    requires JobsOk(box, view, jobs) && BoxLater(box, box') && JobOk(box', view, key, job')
    requires forall k :: k in jobs && k != key && jobs[k].pc.Holding? ==> k in box'.dirs && box'.dirs[k] == Made
    ensures JobsOk(box', view, jobs[key := job'])
  {
    forall k | k in jobs && k != key ensures JobOk(box', view, k, jobs[k]) {
      assert JobOk(box, view, k, jobs[k]);
      if jobs[k].pc.Done? { ReportsPersist(box, box', k, jobs[k].pc.res); }
    }
  }

  lemma OwnAfterMove(s: State, d: nat, key: IdemKey, pc: ExecPc, box': Box)
    requires Moved(s, d, key, pc, box')
    ensures DeliveryOk(box', d, After(s, d, key, pc))
  {
    var dv := s.deliveries[d];
    assert DeliveryOk(s.box, d, dv);
    assert forall k :: k in dv.jobs && k != key && dv.jobs[k].pc.Holding? ==> Holds(dv, k);
    JobsAfterMove(s.box, box', dv.view, dv.jobs, key, dv.jobs[key].(pc := pc));
    assert AnsweredOrOpen(dv.view, dv.jobs) ==> AnsweredOrOpen(dv.view, After(s, d, key, pc).jobs);
  }

  lemma OthersAfterMove(s: State, d: nat, key: IdemKey, pc: ExecPc, box': Box, x: nat)
    requires Moved(s, d, key, pc, box') && x in s.deliveries && x != d
    ensures DeliveryOk(box', x, s.deliveries[x])
  {
    assert DeliveryOk(s.box, x, s.deliveries[x]);
    DeliveryInLaterBox(s.box, box', x, s.deliveries[x]);
  }

  lemma LocksAfterMove(s: State, d: nat, key: IdemKey, pc: ExecPc, s': State)
    requires LocksHeldOnce(s) && Executing(s, d, key) && s'.deliveries == s.deliveries[d := After(s, d, key, pc)]
    requires pc.Holding? ==> forall x :: x in s.deliveries ==> !Holds(s.deliveries[x], key)
    ensures LocksHeldOnce(s')
  {
    assert forall k :: Holds(After(s, d, key, pc), k) ==> Holds(s.deliveries[d], k) || (k == key && pc.Holding?);
  }

  lemma JobMoves(s: State, d: nat, key: IdemKey, pc: ExecPc, box': Box)
    requires Moved(s, d, key, pc, box')
    ensures var s' := Put(s.(box := box'), d, After(s, d, key, pc)); DeliveriesOk(s') && LocksHeldOnce(s')
  {
    var s' := Put(s.(box := box'), d, After(s, d, key, pc));
    forall x | x in s'.deliveries ensures DeliveryOk(box', x, s'.deliveries[x]) {
      if x == d { OwnAfterMove(s, d, key, pc, box'); } else { OthersAfterMove(s, d, key, pc, box', x); }
    }
    LocksAfterMove(s, d, key, pc, s');
  }

  // A step that leaves the log alone: only deliveries and the sandbox need to be looked at.
  lemma SameLogKeepsInv(s: State, s': State)
    requires Inv(s) && s'.rows == s.rows && s'.authors == s.authors && s'.token == s.token
    requires forall x :: x in s'.deliveries ==> s'.deliveries[x].view <= LogIn(s)
    requires forall x :: x in s.deliveries ==>
      && x in s'.deliveries
      && (s.deliveries[x].fenced || s.deliveries[x].pc.Gone? ==> s'.deliveries[x].fenced || s'.deliveries[x].pc.Gone?)
    requires DeliveriesOk(s') && LocksHeldOnce(s')
    requires BoxFollowsLog(s'.box, LogIn(s)) && ResultsReported(s'.box, LogIn(s))
    ensures Inv(s')
  {
    assert LogIn(s') == LogIn(s);
    assert AttemptsOk(s');
  }

  lemma MoveFrame(s: State, d: nat, key: IdemKey, pc: ExecPc, box': Box)
    requires Executing(s, d, key)
    ensures var s' := Put(s.(box := box'), d, After(s, d, key, pc));
      && s'.deliveries.Keys == s.deliveries.Keys
      && forall x :: x in s'.deliveries ==>
           s'.deliveries[x].view == s.deliveries[x].view && s'.deliveries[x].fenced == s.deliveries[x].fenced
           && s'.deliveries[x].pc == s.deliveries[x].pc
  {
  }

  lemma MoveKeepsInv(s: State, d: nat, key: IdemKey, pc: ExecPc, box': Box)
    requires Inv(s) && Moved(s, d, key, pc, box')
    requires BoxFollowsLog(box', LogIn(s)) && ResultsReported(box', LogIn(s))
    ensures Inv(Put(s.(box := box'), d, After(s, d, key, pc)))
  {
    JobMoves(s, d, key, pc, box');
    MoveFrame(s, d, key, pc, box');
    SameLogKeepsInv(s, Put(s.(box := box'), d, After(s, d, key, pc)));
  }

  lemma JobCall(s: State, d: nat, key: IdemKey)
    requires ViewsArePrefixes(s) && DeliveriesOk(s) && Executing(s, d, key)
    ensures CallAt(LogIn(s), key, s.deliveries[d].jobs[key].call)
    ensures JobOk(s.box, s.deliveries[d].view, key, s.deliveries[d].jobs[key])
  {
    assert DeliveryOk(s.box, d, s.deliveries[d]);
    CallPersists(s.deliveries[d].view, LogIn(s), key, s.deliveries[d].jobs[key].call);
  }

  lemma SameBoxMove(s: State, d: nat, key: IdemKey, pc: ExecPc)
    requires DeliveriesOk(s) && LocksHeldOnce(s) && Executing(s, d, key) && !pc.Holding?
    requires JobOk(s.box, s.deliveries[d].view, key, s.deliveries[d].jobs[key].(pc := pc))
    ensures Moved(s, d, key, pc, s.box)
  {
    HeldKeysMade(s);
    assert BoxLater(s.box, s.box);
  }

  lemma SameBoxJobKeepsInv(s: State, d: nat, key: IdemKey, pc: ExecPc)
    requires Inv(s) && Executing(s, d, key) && !pc.Holding?
    requires JobOk(s.box, s.deliveries[d].view, key, s.deliveries[d].jobs[key].(pc := pc))
    ensures Inv(Put(s, d, After(s, d, key, pc)))
  {
    SameBoxMove(s, d, key, pc);
    MoveKeepsInv(s, d, key, pc, s.box);
    assert s.(box := s.box) == s;
  }

  lemma MadeMove(s: State, d: nat, key: IdemKey)
    requires ViewsArePrefixes(s) && DeliveriesOk(s) && LocksHeldOnce(s) && Enabled(s, MkdirKey(d, key))
    requires key !in s.box.dirs
    ensures Moved(s, d, key, Holding, MakeDir(s.box, key))
  {
    JobCall(s, d, key);
    HeldKeysMade(s);
    MadeIsLater(s.box, key);
  }

  lemma MadeIsLater(box: Box, key: IdemKey)
    requires key !in box.dirs
    ensures BoxLater(box, MakeDir(box, key))
  {
  }

  lemma MkdirKeepsInv(s: State, d: nat, key: IdemKey)
    requires Inv(s) && Enabled(s, MkdirKey(d, key))
    ensures Inv(Apply(s, MkdirKey(d, key)))
  {
    JobCall(s, d, key);
    if key in s.box.dirs {
      SameBoxJobKeepsInv(s, d, key, Reading);
    } else {
      MadeMove(s, d, key);
      MadeFollowsLog(s.box, LogIn(s), key, s.deliveries[d].jobs[key].call);
      ResultsPersist(s.box, MakeDir(s.box, key), LogIn(s));
      MoveKeepsInv(s, d, key, Holding, MakeDir(s.box, key));
    }
  }

  lemma SpawnMove(s: State, d: nat, key: IdemKey)
    requires ViewsArePrefixes(s) && DeliveriesOk(s) && LocksHeldOnce(s) && Enabled(s, SpawnCommand(d, key))
    requires BoxLater(s.box, SpawnIn(s.box, key, s.deliveries[d].jobs[key].call))
    ensures Moved(s, d, key, Reading, SpawnIn(s.box, key, s.deliveries[d].jobs[key].call))
  {
    JobCall(s, d, key);
    HeldKeysMade(s);
    assert Holds(s.deliveries[d], key);
  }

  lemma SpawnKeepsInv(s: State, d: nat, key: IdemKey)
    requires Inv(s) && Enabled(s, SpawnCommand(d, key))
    ensures Inv(Apply(s, SpawnCommand(d, key)))
  {
    var call := s.deliveries[d].jobs[key].call;
    JobCall(s, d, key);
    SpawnFollowsLog(s.box, LogIn(s), key, call);
    SpawnMove(s, d, key);
    ResultsPersist(s.box, SpawnIn(s.box, key, call), LogIn(s));
    MoveKeepsInv(s, d, key, Reading, SpawnIn(s.box, key, call));
  }

  lemma CommandKeepsDeliveries(s: State, box': Box)
    requires DeliveriesOk(s) && BoxLater(s.box, box')
    requires forall k :: k in s.box.dirs && s.box.dirs[k] == Made ==> k in box'.dirs && box'.dirs[k] == Made
    ensures DeliveriesOk(s.(box := box'))
  {
    HeldKeysMade(s);
    forall x | x in s.deliveries ensures DeliveryOk(box', x, s.deliveries[x]) {
      assert DeliveryOk(s.box, x, s.deliveries[x]);
      DeliveryInLaterBox(s.box, box', x, s.deliveries[x]);
    }
  }

  lemma EvolveKeepsDeliveries(s: State, key: IdemKey, files: Files)
    requires DeliveriesOk(s) && LocksHeldOnce(s) && CanEvolve(s.box, key, files)
    requires BoxLater(s.box, Evolve(s.box, key, files))
    ensures var s' := s.(box := Evolve(s.box, key, files)); DeliveriesOk(s') && LocksHeldOnce(s')
  {
    CommandKeepsDeliveries(s, Evolve(s.box, key, files));
  }

  lemma CommandKeepsInv(s: State, key: IdemKey, files: Files)
    requires Inv(s) && Enabled(s, CommandActs(key, files))
    ensures Inv(Apply(s, CommandActs(key, files)))
  {
    var box' := Evolve(s.box, key, files);
    EvolveFollowsLog(s.box, LogIn(s), key, files);
    ResultsPersist(s.box, box', LogIn(s));
    EvolveKeepsDeliveries(s, key, files);
    SameLogKeepsInv(s, s.(box := box'));
  }

  // ------------------------------------------------------------------- all steps

  lemma InvInit()
    ensures Inv(Init)
  {
    DenseReadAll(Init.rows);
  }

  lemma DeliverKeepsDeliveries(s: State, d: nat)
    requires DeliveriesOk(s) && LocksHeldOnce(s) && d !in s.deliveries
    ensures var s' := Put(s, d, Delivery(LogIn(s), Loaded, false, map[])); DeliveriesOk(s') && LocksHeldOnce(s')
  {
    var s' := Put(s, d, Delivery(LogIn(s), Loaded, false, map[]));
    forall x | x in s'.deliveries ensures DeliveryOk(s'.box, x, s'.deliveries[x]) {
      if x != d { assert s'.deliveries[x] == s.deliveries[x]; }
    }
  }

  lemma DeliverKeepsInv(s: State, d: nat)
    requires Inv(s) && Enabled(s, Deliver(d))
    ensures Inv(Apply(s, Deliver(d)))
  {
    DeliverKeepsDeliveries(s, d);
    SameLogKeepsInv(s, Put(s, d, Delivery(LogIn(s), Loaded, false, map[])));
  }

  lemma DriverStarts(s: State, d: nat)
    requires d in s.deliveries && DeliveryOk(s.box, d, s.deliveries[d]) && s.deliveries[d].pc.Recovering?
    ensures MayBecome(s, d, s.deliveries[d].(pc := Driving(false)))
  {
  }

  // The steps that only change where d stands.
  lemma PcStepKeepsInv(s: State, step: Step)
    requires Inv(s) && Enabled(s, step)
    requires step.StartDriver? || step.DriverFails? || step.Raise? || step.Leave?
    ensures Inv(Apply(s, step))
  {
    var d := step.d;
    var dv := s.deliveries[d];
    assert DeliveryOk(s.box, d, dv);
    if step.StartDriver? { DriverStarts(s, d); }
    else if step.DriverFails? { LatchedOk(s, d, None); }
    else { LeavesOk(s, d); }
    PutKeepsInv(s, d, Apply(s, step).deliveries[d]);
  }

  lemma JobStepKeepsInv(s: State, step: Step)
    requires Inv(s) && Enabled(s, step) && (step.SeeExit? || step.Reboot?)
    ensures Inv(Apply(s, step))
  {
    JobCall(s, step.d, step.key);
    match step
    case SeeExit(d, key) => SameBoxJobKeepsInv(s, d, key, Done(Report(s.box.dirs[key].files)));
    case Reboot(d, key) => SameBoxJobKeepsInv(s, d, key, Start);
  }

  lemma TerminalStepKeepsInv(s: State, step: Step)
    requires Inv(s) && Enabled(s, step) && (step.NoDriver? || step.Commit? || step.AppendFailure?)
    ensures Inv(Apply(s, step))
  {
    assert DeliveryOk(s.box, step.d, s.deliveries[step.d]);
    match step
    case NoDriver(d, acked) => TerminalKeepsInv(s, d, TurnFailed(ErrorClass.Harness), acked);
    case Commit(d, success, acked) =>
      TerminalKeepsInv(s, d, if success then TurnCompleted else TurnFailed(Budget), acked);
    case AppendFailure(d, cls, acked) => TerminalKeepsInv(s, d, TurnFailed(cls), acked);
  }

  lemma AttemptStepKeepsInv(s: State, step: Step)
    requires Inv(s) && Enabled(s, step)
    requires step.Fence? || step.AppendResult? || step.DriverText? || step.DriverCall?
    ensures Inv(Apply(s, step))
  {
    match step
    case Fence(d, tip, acked) => FenceKeepsInv(s, d, tip, acked);
    case AppendResult(d, key, acked) => AppendResultKeepsInv(s, d, key, acked);
    case DriverText(d, content, acked) => DriverTextKeepsInv(s, d, content, acked);
    case DriverCall(d, call, acked) => DriverCallKeepsInv(s, d, call, acked);
  }

  lemma SandboxStepKeepsInv(s: State, step: Step)
    requires Inv(s) && Enabled(s, step)
    requires step.MkdirKey? || step.SpawnCommand? || step.SeeExit? || step.Reboot? || step.CommandActs?
    ensures Inv(Apply(s, step))
  {
    match step
    case MkdirKey(d, key) => MkdirKeepsInv(s, d, key);
    case SpawnCommand(d, key) => SpawnKeepsInv(s, d, key);
    case CommandActs(key, files) => CommandKeepsInv(s, key, files);
    case SeeExit(_, _) => JobStepKeepsInv(s, step);
    case Reboot(_, _) => JobStepKeepsInv(s, step);
  }

  lemma OutsideStepKeepsInv(s: State, step: Step)
    requires Inv(s) && Enabled(s, step)
    requires step.SendMessage? || step.ProvisionCommit? || step.ProvisionFail? || step.Deliver?
    ensures Inv(Apply(s, step))
  {
    match step
    case SendMessage(content) => ExternalKeepsInv(s, UserMessage(content));
    case ProvisionCommit => ExternalKeepsInv(s, SessionProvisioned);
    case ProvisionFail => ExternalKeepsInv(s, TurnFailed(SandboxFatal));
    case Deliver(d) => DeliverKeepsInv(s, d);
  }

  lemma InvNext(s: State, step: Step)
    requires Inv(s) && Enabled(s, step)
    ensures Inv(Apply(s, step))
  {
    if step.StartDriver? || step.DriverFails? || step.Raise? || step.Leave? {
      PcStepKeepsInv(s, step);
    } else if step.NoDriver? || step.Commit? || step.AppendFailure? {
      TerminalStepKeepsInv(s, step);
    } else if step.Fence? || step.AppendResult? || step.DriverText? || step.DriverCall? {
      AttemptStepKeepsInv(s, step);
    } else if step.SendMessage? || step.ProvisionCommit? || step.ProvisionFail? || step.Deliver? {
      OutsideStepKeepsInv(s, step);
    } else {
      SandboxStepKeepsInv(s, step);
    }
  }
}

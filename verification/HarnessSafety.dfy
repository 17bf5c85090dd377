// Inv of the harness protocol is inductive.
module HarnessSafety {
  import opened Prelude
  import opened Events
  import opened Reducer
  import opened Store
  import opened Sandbox
  import opened HarnessProtocol

  // ------------------------------------------------------------ facts about logs

  lemma IndexPush(log: Log, e: Event, k: Kind)
    ensures LastIndex(log + [e], k) == if KindOf(e.payload) == k then |log| else LastIndex(log, k)
  {
    assert (log + [e])[..|log|] == log;
  }

  lemma AttemptPush(log: Log, e: Event)
    ensures LastAttempt(log + [e]) ==
      if e.payload.HarnessAttemptStarted? then Some(e.payload.attempt) else LastAttempt(log)
  {
    IndexPush(log, e, Attempt);
  }

  lemma AnsweredPush(log: Log, e: Event, key: IdemKey)
    ensures Answered(log + [e], 0, key) <==>
      Answered(log, 0, key) || (e.payload.ToolResult? && e.payload.idemKey == key)
  {
    var log' := log + [e];
    if Answered(log, 0, key) {
      var i :| 0 <= i < |log| && log[i].payload.ToolResult? && log[i].payload.idemKey == key;
      assert log'[i] == log[i];
    }
    if e.payload.ToolResult? && e.payload.idemKey == key { assert log'[|log|] == e; }
  }

  lemma StartedPush(log: Log, e: Event, d: nat)
    ensures StartedIn(log + [e], d) <==>
      StartedIn(log, d) || (e.payload.HarnessAttemptStarted? && e.payload.attempt == d)
  {
    var log' := log + [e];
    if StartedIn(log, d) {
      var i :| 0 <= i < |log| && log[i].payload.HarnessAttemptStarted? && log[i].payload.attempt == d;
      assert log'[i] == log[i];
    }
    if e.payload.HarnessAttemptStarted? && e.payload.attempt == d { assert log'[|log|] == e; }
  }

  lemma OwnedPush(log: Log, authors: seq<Option<nat>>, e: Event, author: Option<nat>)
    requires AllOwned(log, authors) && Owned(log, e.payload, author)
    requires author.None? ==> !e.payload.HarnessAttemptStarted?
    ensures AllOwned(log + [e], authors + [author])
  {
    var log' := log + [e];
    forall j | 0 <= j < |log'| ensures Owned(log'[..j], log'[j].payload, (authors + [author])[j]) {
      if j < |log| {
        assert Owned(log[..j], log[j].payload, authors[j]);
        assert log'[..j] == log[..j];
      } else {
        assert log'[..j] == log;
      }
    }
  }

  lemma ReportedPush(box: Box, log: Log, e: Event)
    requires ResultsReported(box, log) && ResultsUnique(log)
    requires e.payload.ToolResult? ==>
      && BoxReports(box, e.payload.idemKey, e.payload.result) && !Answered(log, 0, e.payload.idemKey)
      && e.payload.idemKey.seqNo <= |log|
    ensures ResultsReported(box, log + [e]) && ResultsUnique(log + [e])
  {
  }

  lemma {:induction false} OutstandingSound(log: Log, from: nat, n: nat)
    requires n <= |log| && Numbered(log)
    ensures var m := Outstanding(log, from, n);
      forall k :: k in m ==>
        CallAt(log, k, m[k].call) && m[k].pc == Start && from < k.seqNo <= n && !Answered(log, from, k)
  {
    if n > 0 && n > from { OutstandingSound(log, from, n - 1); }
  }

  lemma {:induction false} OutstandingComplete(log: Log, from: nat, n: nat)
    requires n <= |log| && Numbered(log)
    ensures forall i :: from <= i < n && MakesCall(log[i].payload) && !Answered(log, from, IdemKey(i + 1, 0)) ==>
      IdemKey(i + 1, 0) in Outstanding(log, from, n)
  {
    if n > 0 && n > from {
      OutstandingComplete(log, from, n - 1);
      assert Outstanding(log, from, n - 1).Keys <= Outstanding(log, from, n).Keys;
    }
  }

  // What Outstanding collects: exactly the calls in range with no result in the turn.
  lemma OutstandingSpec(log: Log, from: nat, n: nat)
    requires n <= |log| && Numbered(log)
    ensures var m := Outstanding(log, from, n);
      && (forall k :: k in m ==>
            && CallAt(log, k, m[k].call) && m[k].pc == Start && from < k.seqNo <= n && !Answered(log, from, k))
      && (forall i :: from <= i < n && MakesCall(log[i].payload) && !Answered(log, from, IdemKey(i + 1, 0)) ==>
            IdemKey(i + 1, 0) in m)
  {
    OutstandingSound(log, from, n);
    OutstandingComplete(log, from, n);
  }

  // ------------------------------------------------------------- one append

  // What delivery d may append where it stands.
  ghost predicate MayAppend(s: State, d: nat, p: Payload)
    requires d in s.deliveries
  {
    var dv := s.deliveries[d];
    && (p.ToolResult? ==>
          BoxReports(s.box, p.idemKey, p.result) && !Answered(dv.view, 0, p.idemKey) && p.idemKey.seqNo <= |dv.view|)
    && (p.HarnessAttemptStarted? ==> p.attempt == d && dv.pc.Loaded?)
    && (!p.HarnessAttemptStarted? ==> dv.fenced || (p.TurnFailed? && !dv.pc.Gone?))
  }

  // Where d may go on: its own facts hold, it takes no new lock and forgets no fence.
  ghost predicate MayBecome(s: State, d: nat, dv': Delivery)
    requires d in s.deliveries
  {
    var dv := s.deliveries[d];
    && DeliveryOk(s.box, d, dv')
    && (forall k :: Holds(dv', k) ==> Holds(dv, k))
    && (dv.fenced ==> dv'.fenced) && (dv.pc.Gone? ==> dv'.pc.Gone?)
  }

  lemma ReplacedOk(s: State, d: nat, dv': Delivery, s': State)
    requires DeliveriesOk(s) && LocksHeldOnce(s) && d in s.deliveries && MayBecome(s, d, dv')
    requires s'.box == s.box && s'.deliveries == s.deliveries[d := dv']
    ensures DeliveriesOk(s') && LocksHeldOnce(s')
  {
    forall x | x in s'.deliveries ensures DeliveryOk(s'.box, x, s'.deliveries[x]) {
      if x != d { assert s'.deliveries[x] == s.deliveries[x]; }
    }
  }

  lemma PutKeepsInv(s: State, d: nat, dv': Delivery)
    requires Inv(s) && d in s.deliveries && MayBecome(s, d, dv') && dv'.view == s.deliveries[d].view
    ensures Inv(Put(s, d, dv'))
  {
    ReplacedOk(s, d, dv', Put(s, d, dv'));
  }

  lemma ViewsAfterInsert(s: State, d: nat, p: Payload, acked: bool, won: Delivery, lost: Delivery, broke: Delivery)
    requires ViewsArePrefixes(s) && d in s.deliveries
    requires won.view == s.deliveries[d].view || won.view == Pushed(s.deliveries[d], p).view
    requires lost.view == broke.view == s.deliveries[d].view
    ensures var s' := Insert(s, d, p, acked, won, lost, broke); var e := Event(LastSeq(s.deliveries[d].view) + 1, p);
      && ViewsArePrefixes(s')
      && (Taken(s.rows, e) <==> s.deliveries[d].view != LogIn(s))
      && LogIn(s') == if Taken(s.rows, e) then LogIn(s) else LogIn(s) + [e]
  {
    var e := Event(LastSeq(s.deliveries[d].view) + 1, p);
    ConditionalAppend(s.rows, s.deliveries[d].view, e);
    DenseReadAll(s.rows);
    if !Taken(s.rows, e) { DenseReadAll(s.rows[e.seqNo := e]); }
  }

  lemma UnfencedNotStarted(s: State, d: nat)
    requires AttemptsOk(s) && d in s.deliveries && !s.deliveries[d].fenced && !s.deliveries[d].pc.Gone?
    ensures !StartedIn(LogIn(s), d)
  {
  }

  lemma AppendIsOwned(s: State, d: nat, p: Payload)
    requires DeliveriesOk(s) && AttemptsOk(s) && d in s.deliveries
    requires MayAppend(s, d, p) && s.deliveries[d].view == LogIn(s)
    ensures Owned(LogIn(s), p, Some(d))
    ensures p.HarnessAttemptStarted? ==> !StartedIn(LogIn(s), d)
  {
    assert DeliveryOk(s.box, d, s.deliveries[d]);
    if !s.deliveries[d].fenced { UnfencedNotStarted(s, d); }
  }

  lemma AttemptsAfterAppend(s: State, d: nat, e: Event, dv': Delivery, s': State)
    requires AttemptsOk(s) && d in s.deliveries
    requires LogIn(s') == LogIn(s) + [e] && s'.deliveries == s.deliveries[d := dv']
    requires (s.deliveries[d].fenced ==> dv'.fenced) && (s.deliveries[d].pc.Gone? ==> dv'.pc.Gone?)
    requires e.payload.HarnessAttemptStarted? ==>
      e.payload.attempt == d && !StartedIn(LogIn(s), d) && (dv'.fenced || dv'.pc.Gone?)
    ensures AttemptsOk(s')
  {
    var log, log' := LogIn(s), LogIn(s');
    forall x | StartedIn(log', x) ensures x in s'.deliveries && (s'.deliveries[x].fenced || s'.deliveries[x].pc.Gone?) {
      StartedPush(log, e, x);
    }
    forall i, j |
      0 <= i < j < |log'| && log'[i].payload.HarnessAttemptStarted? && log'[j].payload.HarnessAttemptStarted?
      ensures log'[i].payload.attempt != log'[j].payload.attempt
    {
      assert log'[i] == log[i];
    }
  }

  // A won append.
  lemma WonAppendKeepsInv(s: State, d: nat, e: Event, dv': Delivery, s': State)
    requires Inv(s) && d in s.deliveries && s.deliveries[d].view == LogIn(s)
    requires MayAppend(s, d, e.payload) && MayBecome(s, d, dv')
    requires e.payload.HarnessAttemptStarted? ==> dv'.fenced || dv'.pc.Gone?
    requires ViewsArePrefixes(s') && LogIn(s') == LogIn(s) + [e] && s'.authors == s.authors + [Some(d)]
    requires s'.box == s.box && s'.deliveries == s.deliveries[d := dv']
    requires s'.token == if e.payload.HarnessAttemptStarted? then Some(e.payload.attempt) else s.token
    ensures Inv(s')
  {
    ReplacedOk(s, d, dv', s');
    BoxFollowsLonger(s.box, LogIn(s), LogIn(s'));
    ReportedPush(s.box, LogIn(s), e);
    AppendIsOwned(s, d, e.payload);
    AttemptsAfterAppend(s, d, e, dv', s');
    OwnedPush(LogIn(s), s.authors, e, Some(d));
    AttemptPush(LogIn(s), e);
  }

  function Chosen(s: State, d: nat, p: Payload, acked: bool, won: Delivery, lost: Delivery, broke: Delivery): Delivery
    requires d in s.deliveries
  {
    if Taken(s.rows, Event(LastSeq(s.deliveries[d].view) + 1, p)) then lost else if acked then won else broke
  }

  // The row an insert by d would add, and the state once it did.
  function RowBy(s: State, d: nat, p: Payload): Event
    requires d in s.deliveries
  {
    Event(LastSeq(s.deliveries[d].view) + 1, p)
  }

  function WithRow(s: State, d: nat, p: Payload, dv': Delivery): State
    requires d in s.deliveries
  {
    State(s.rows[RowBy(s, d, p).seqNo := RowBy(s, d, p)], s.authors + [Some(d)],
          if p.HarnessAttemptStarted? then Some(p.attempt) else s.token, s.box, s.deliveries[d := dv'])
  }

  lemma WithRowViews(s: State, d: nat, p: Payload, dv': Delivery)
    requires ViewsArePrefixes(s) && d in s.deliveries && !Taken(s.rows, RowBy(s, d, p))
    requires dv'.view == s.deliveries[d].view || dv'.view == Pushed(s.deliveries[d], p).view
    ensures s.deliveries[d].view == LogIn(s)
    ensures ViewsArePrefixes(WithRow(s, d, p, dv')) && LogIn(WithRow(s, d, p, dv')) == LogIn(s) + [RowBy(s, d, p)]
  {
    ConditionalAppend(s.rows, s.deliveries[d].view, RowBy(s, d, p));
    DenseReadAll(s.rows);
    DenseReadAll(WithRow(s, d, p, dv').rows);
  }

  lemma WithRowKeepsInv(s: State, d: nat, p: Payload, dv': Delivery)
    requires Inv(s) && d in s.deliveries && !Taken(s.rows, RowBy(s, d, p))
    requires MayAppend(s, d, p) && MayBecome(s, d, dv')
    requires dv'.view == s.deliveries[d].view || dv'.view == Pushed(s.deliveries[d], p).view
    requires p.HarnessAttemptStarted? ==> dv'.fenced || dv'.pc.Gone?
    ensures Inv(WithRow(s, d, p, dv'))
  {
    WithRowViews(s, d, p, dv');
    WonAppendKeepsInv(s, d, RowBy(s, d, p), dv', WithRow(s, d, p, dv'));
  }

  lemma InsertIs(s: State, d: nat, p: Payload, acked: bool, won: Delivery, lost: Delivery, broke: Delivery)
    requires d in s.deliveries
    ensures Insert(s, d, p, acked, won, lost, broke) ==
      if Taken(s.rows, RowBy(s, d, p)) then Put(s, d, lost) else WithRow(s, d, p, if acked then won else broke)
  {
  }

  lemma InsertKeepsInv(s: State, d: nat, p: Payload, acked: bool, won: Delivery, lost: Delivery, broke: Delivery)
    requires Inv(s) && d in s.deliveries && MayAppend(s, d, p)
    requires won.view == s.deliveries[d].view || won.view == Pushed(s.deliveries[d], p).view
    requires lost.view == broke.view == s.deliveries[d].view
    requires MayBecome(s, d, Chosen(s, d, p, acked, won, lost, broke))
    requires p.HarnessAttemptStarted? ==> (won.fenced || won.pc.Gone?) && (broke.fenced || broke.pc.Gone?)
    ensures Inv(Insert(s, d, p, acked, won, lost, broke))
  {
    InsertIs(s, d, p, acked, won, lost, broke);
    if Taken(s.rows, RowBy(s, d, p)) {
      PutKeepsInv(s, d, lost);
    } else {
      WithRowKeepsInv(s, d, p, if acked then won else broke);
    }
  }

  lemma ViewsAfterExternal(s: State, p: Payload)
    requires ViewsArePrefixes(s)
    ensures var s' := InsertExternal(s, p); var e := Event(LastSeqOf(s.rows) + 1, p);
      ViewsArePrefixes(s') && LogIn(s') == LogIn(s) + [e] && e.seqNo == |LogIn(s)| + 1
  {
    TransactionalAppend(s.rows, p);
  }

  lemma ExternalKeepsInv(s: State, p: Payload)
    requires Inv(s) && !p.HarnessAttemptStarted? && !p.ToolResult?
    ensures Inv(InsertExternal(s, p))
  {
    var s' := InsertExternal(s, p);
    var e := Event(LastSeqOf(s.rows) + 1, p);
    ViewsAfterExternal(s, p);
    BoxFollowsLonger(s.box, LogIn(s), LogIn(s'));
    ReportedPush(s.box, LogIn(s), e);
    OwnedPush(LogIn(s), s.authors, e, None);
    AttemptPush(LogIn(s), e);
    ExternalKeepsAttempts(s, e, s');
  }

  lemma ExternalKeepsAttempts(s: State, e: Event, s': State)
    requires AttemptsOk(s) && !e.payload.HarnessAttemptStarted?
    requires LogIn(s') == LogIn(s) + [e] && s'.deliveries == s.deliveries
    ensures AttemptsOk(s')
  {
    forall x | StartedIn(LogIn(s'), x)
      ensures x in s'.deliveries && (s'.deliveries[x].fenced || s'.deliveries[x].pc.Gone?)
    {
      StartedPush(LogIn(s), e, x);
    }
  }
}

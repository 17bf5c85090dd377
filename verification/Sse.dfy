// The event stream of one client (apps/api/src/sse.ts): subscribe, replay from the cursor, then
// alternate between waiting for a wake-up or a heartbeat and draining the log.  A notification
// carries no data; every wake-up re-reads the log from the stream's own cursor.
module Sse {
  import opened Prelude
  import opened Events
  import opened Store

  const PAGE := 500

  // What may happen while the stream awaits: an append commits, a notification for some committed
  // seq arrives, the client goes away.
  datatype Outside = Appends(p: Payload) | Notifies(seqNo: nat) | Aborts

  class SseStream {
    const store: EventStore
    const start: nat
    // The log may grow to any length, but not without end while one page is drained.
    const horizon: nat
    var cursor: nat
    var notified: bool
    // A wake-up would resolve the wait at once.
    var parked: bool
    var stopped: bool
    var subscribed: bool
    // What was written to the client.
    var emitted: Log
    // The highest seq notified since subscribing.
    ghost var heard: nat

    // The client has exactly the events above its start cursor up to the stream's cursor, in order,
    // once each; and a parked stream has caught up with every notification it ever got.
    ghost predicate Valid()
      reads this, store
    {
      && store.Valid()
      && var log := store.Contents();
         && start <= cursor && (cursor > start ==> cursor <= |log|)
         && emitted == log[Min(start, |log|)..Min(cursor, |log|)]
         && heard <= |log| <= horizon
         && (parked ==> heard <= cursor && !notified)
         && (stopped ==> !subscribed)
    }

    ghost predicate CaughtUp()
      reads this
    {
      heard <= cursor || notified || stopped
    }

    constructor (store: EventStore, start: nat, horizon: nat)
      requires store.Valid() && |store.Contents()| <= horizon
      ensures Valid() && this.store == store && this.start == start && this.horizon == horizon
      ensures cursor == start && emitted == []
      ensures subscribed && !stopped && !parked && !notified && heard == 0
    {
      this.store, this.start, this.horizon, cursor := store, start, horizon, start;
      notified, parked, stopped, subscribed, emitted, heard := false, false, false, true, [], 0;
    }

    // The subscriber's callback.
    method Signal()
      modifies `notified, `parked
      ensures !parked && notified == !old(parked)
    {
      notified := !parked;
      parked := false;
    }

    method Appended(p: Payload)
      requires Valid() && |store.Contents()| < horizon
      modifies store
      ensures Valid() && store.Contents() == old(store.Contents()) + [Event(|old(store.Contents())| + 1, p)]
    {
      var n := store.LastSeqNow();
      var _ := store.AppendEvent(Event(n + 1, p));
    }

    // cleanup: once, drop the subscription and break any wait.
    method Cleanup()
      requires Valid()
      modifies `stopped, `subscribed, `notified, `parked
      ensures Valid() && stopped && !subscribed && (old(!stopped) ==> !parked)
      ensures old(stopped) ==> parked == old(parked) && notified == old(notified)
      ensures old(!stopped) ==> notified == !old(parked)
    {
      if stopped { return; }
      stopped, subscribed := true, false;
      Signal();
    }

    // How far things may have moved across an await: nothing is emitted, and a wake-up that no wait
    // took is remembered.
    twostate predicate Waited()
      reads this, store
    {
      && old(store.Contents()) <= store.Contents()
      && cursor == old(cursor) && emitted == old(emitted)
      && (old(stopped) ==> stopped) && old(heard) <= heard
      && (old(notified) && old(!parked) ==> notified && !parked)
      && (heard > old(heard) && old(!parked) ==> notified || stopped)
    }

    method Happens(o: Outside)
      requires Valid()
      modifies store, `notified, `parked, `stopped, `subscribed, `heard
      ensures Valid() && Waited()
      ensures parked ==> old(parked)
    {
      match o
      case Appends(p) =>
        var n := store.LastSeqNow();
        if n < horizon { Appended(p); }
      case Notifies(seqNo) =>
        var n := store.LastSeqNow();
        if seqNo <= n && subscribed {
          heard := if seqNo > heard then seqNo else heard;
          Signal();
        }
      case Aborts => Cleanup();
    }

    // An await during which the stream is not parked.
    method Await()
      requires Valid() && !parked
      modifies store, `notified, `parked, `stopped, `subscribed, `heard
      ensures Valid() && !parked && Waited()
    {
      var schedule: seq<Outside> := *;
      for i := 0 to |schedule|
        invariant Valid() && !parked
        invariant old(store.Contents()) <= store.Contents() && cursor == old(cursor) && emitted == old(emitted)
        invariant (old(stopped) ==> stopped) && old(heard) <= heard && (old(notified) ==> notified)
        invariant heard > old(heard) ==> notified || stopped
      {
        Happens(schedule[i]);
      }
    }

    // Idle until a wake-up or the heartbeat.
    method WaitForWakeOrTimeout() returns (wake: bool)
      requires Valid() && !parked && CaughtUp() && !stopped
      modifies store, `notified, `parked, `stopped, `subscribed, `heard
      ensures Valid() && !parked && old(store.Contents()) <= store.Contents()
      ensures cursor == old(cursor) && emitted == old(emitted) && (old(stopped) ==> stopped)
    {
      if notified {
        notified := false;
        return true;
      }
      parked := true;
      var ticks: nat := *;
      while ticks > 0 && parked
        invariant Valid() && old(store.Contents()) <= store.Contents()
        invariant cursor == old(cursor) && emitted == old(emitted) && (old(stopped) ==> stopped)
      {
        var o: Outside := *;
        Happens(o);
        ticks := ticks - 1;
      }
      wake := !parked;
      parked := false;
      Await();  // the continuation runs later
    }

    // Write one event; the write is an await.  An event at or below the cursor was written before.
    method EmitOne(e: Event)
      requires Valid() && !parked && cursor < |store.Contents()| && e == store.Contents()[cursor]
      modifies this, store
      ensures Valid() && !parked && old(store.Contents()) <= store.Contents() && old(emitted) <= emitted
      ensures cursor == old(cursor) + 1
      ensures (old(stopped) ==> stopped) && old(heard) <= heard && (heard > old(heard) ==> notified || stopped)
      ensures old(notified) ==> notified
    {
      EventsAreNumbered(store.rows, cursor);
      if e.seqNo <= cursor { return; }
      Await();
      ghost var log := store.Contents();
      assert log[Min(start, |log|)..cursor] + [log[cursor]] == log[Min(start, |log|)..cursor + 1];
      emitted := emitted + [e];
      cursor := e.seqNo;
    }

    // Write the events of one page.
    method EmitPage(events: Log, ghost bound: nat)
      requires Valid() && !parked
      requires var log := store.Contents();
        && bound <= |log| && events == log[Min(cursor, bound)..Min(cursor + PAGE, bound)]
      modifies this, store
      ensures Valid() && !parked && old(store.Contents()) <= store.Contents() && old(emitted) <= emitted
      ensures cursor == if old(cursor) < bound then Min(old(cursor) + PAGE, bound) else old(cursor)
      ensures (old(stopped) ==> stopped) && old(heard) <= heard && (heard > old(heard) ==> notified || stopped)
      ensures old(notified) ==> notified
    {
      for i := 0 to |events|
        invariant Valid() && !parked && old(store.Contents()) <= store.Contents() && old(emitted) <= emitted
        invariant cursor == old(cursor) + i
        invariant (old(stopped) ==> stopped) && old(heard) <= heard && (heard > old(heard) ==> notified || stopped)
        invariant old(notified) ==> notified
      {
        assert events[i] == store.Contents()[cursor];
        EmitOne(events[i]);
      }
    }

    // Drain the log page by page.  Afterwards nothing is missing that was there at the start, whether
    // notified or not, nor anything heard of since unless a fresh wake-up says so.
    method Flush()
      requires Valid() && !parked
      modifies this, store
      ensures Valid() && !parked && CaughtUp() && cursor >= |old(store.Contents())| && old(cursor) <= cursor
      ensures old(store.Contents()) <= store.Contents() && old(emitted) <= emitted && (old(stopped) ==> stopped)
    {
      var more := true;
      while more
        invariant Valid() && !parked
        invariant old(store.Contents()) <= store.Contents() && old(emitted) <= emitted && (old(stopped) ==> stopped)
        invariant old(cursor) <= cursor
        invariant !more ==> CaughtUp() && cursor >= |old(store.Contents())|
        decreases more, horizon - cursor
      {
        Await();
        ghost var bound := |store.Contents()|;
        var events, hasMore := store.ReadPage(cursor, PAGE);
        EmitPage(events, bound);
        more := hasMore;
      }
    }

    // One round of the live loop.
    method Round()
      requires Valid() && !parked && CaughtUp() && !stopped
      modifies this, store
      ensures Valid() && !parked && CaughtUp() && old(store.Contents()) <= store.Contents() && old(cursor) <= cursor
    {
      var wake := WaitForWakeOrTimeout();
      if stopped { return; }
      if !wake { Await(); }  // the heartbeat comment
      Flush();
    }

    // runSseStream, watched for any number of rounds of its live loop.
    method Run(rounds: nat)
      requires Valid() && !parked && cursor == start && emitted == []
      modifies this, store
      ensures Valid() && CaughtUp() && old(store.Contents()) <= store.Contents()
      ensures var log := store.Contents(); start <= cursor && emitted == log[Min(start, |log|)..Min(cursor, |log|)]
      ensures cursor >= |old(store.Contents())|
    {
      Flush();
      var left := rounds;
      while left > 0 && !stopped
        invariant Valid() && !parked && CaughtUp() && old(store.Contents()) <= store.Contents()
        invariant cursor >= |old(store.Contents())|
      {
        Round();
        left := left - 1;
      }
      if left > 0 { Cleanup(); }
    }
  }

  lemma EventsAreNumbered(t: Table, i: nat)
    requires Dense(t) && i < |ReadAll(t)|
    ensures ReadAll(t)[i].seqNo == i + 1
  {
    DenseReadAll(t);
  }

  // ------------------------------------------------------------------ the fan-out

  type Waker = nat

  // The part of the payload before its first colon.
  function SessionOf(payload: string): string {
    if payload == [] || payload[0] == ':' then [] else [payload[0]] + SessionOf(payload[1..])
  }

  // The worker's payload names the session whose stream it should wake, if the id has no colon.
  lemma {:induction false} PayloadNamesSession(sessionId: string, seqNo: nat)
    requires forall i :: 0 <= i < |sessionId| ==> sessionId[i] != ':'
    ensures SessionOf(sessionId + ":" + Decimal(seqNo)) == sessionId
  {
    var payload := sessionId + ":" + Decimal(seqNo);
    if sessionId != [] {
      PayloadNamesSession(sessionId[1..], seqNo);
      assert payload[1..] == sessionId[1..] + ":" + Decimal(seqNo);
    }
  }

  class EventBus {
    var subs: map<string, set<Waker>>

    // No session is kept without a subscriber.
    ghost predicate Valid() reads this { forall s :: s in subs ==> subs[s] != {} }

    ghost function WakersOf(session: string): set<Waker> reads this { if session in subs then subs[session] else {} }

    constructor ()
      ensures Valid() && subs == map[]
    {
      subs := map[];
    }

    method Subscribe(session: string, wake: Waker)
      requires Valid()
      modifies this
      ensures Valid()
      ensures forall s :: WakersOf(s) == if s == session then old(WakersOf(s)) + {wake} else old(WakersOf(s))
    {
      subs := subs[session := (if session in subs then subs[session] else {}) + {wake}];
    }

    method Unsubscribe(session: string, wake: Waker)
      requires Valid()
      modifies this
      ensures Valid()
      ensures forall s :: WakersOf(s) == if s == session then old(WakersOf(s)) - {wake} else old(WakersOf(s))
    {
      if session !in subs { return; }
      var rest := subs[session] - {wake};
      subs := if rest == {} then subs - {session} else subs[session := rest];
    }

    // A notification wakes every subscriber of its session and nobody else.
    method Notify(payload: string) returns (woken: set<Waker>)
      requires Valid()
      ensures payload != [] ==> woken == WakersOf(SessionOf(payload))
      ensures payload == [] ==> woken == {}
    {
      woken := {};
      if payload == [] { return; }
      var session := SessionOf(payload);
      if session in subs {
        var rest := subs[session];
        while rest != {}
          invariant woken + rest == subs[session]
          decreases rest
        {
          var w :| w in rest;
          woken, rest := woken + {w}, rest - {w};
        }
      }
    }
  }
}

// Budget, termination and terminal discipline of native logs.  Everything here follows from each
// event being the one the reducer prescribes for the log before it.
module TurnBounds {
  import opened Events
  import opened Reducer
  import opened NativeProtocol

  // Events since the last user message that came from the provisioner.
  function Outside(log: Log, external: seq<bool>, from: int): nat
    requires |external| == |log|
  {
    if log == [] || |log| - 1 < from then 0
    else
      Outside(log[..|log| - 1], external[..|log| - 1], from)
      + if external[|log| - 1] && !log[|log| - 1].payload.UserMessage? then 1 else 0
  }

  function Replies(log: Log): nat { Count(log, LastIndex(log, User) + 1, Assistant) }

  function Results(log: Log): nat { Count(log, LastIndex(log, User) + 1, Result) }

  function Terminals(log: Log): nat {
    Count(log, LastIndex(log, User) + 1, Completed) + Count(log, LastIndex(log, User) + 1, Failed)
  }

  function Interruptions(log: Log, external: seq<bool>): nat
    requires |external| == |log|
  {
    Outside(log, external, LastIndex(log, User) + 1)
  }

  // The turn's last reply has no result under its key.
  predicate Pending(log: Log) {
    var a := LastIndex(log, Assistant);
    a > LastIndex(log, User) && !Answered(log, a + 1, IdemKey(log[a].seqNo, 0))
  }

  lemma CountPush(log: Log, e: Event, from: int, k: Kind)
    ensures Count(log + [e], from, k) == Count(log, from, k) + if |log| >= from && KindOf(e.payload) == k then 1 else 0
  {
    assert (log + [e])[..|log|] == log;
    if |log| < from { CountBeyond(log, from, k); }
  }

  lemma CountBeyond(log: Log, from: int, k: Kind)
    requires |log| <= from
    ensures Count(log, from, k) == 0
  {
  }

  lemma IndexPush(log: Log, e: Event, k: Kind)
    ensures LastIndex(log + [e], k) == if KindOf(e.payload) == k then |log| else LastIndex(log, k)
  {
    assert (log + [e])[..|log|] == log;
  }

  lemma AnsweredPush(log: Log, e: Event, from: int, key: IdemKey)
    requires from <= |log|
    ensures Answered(log + [e], from, key) <==>
      Answered(log, from, key) || (e.payload.ToolResult? && e.payload.idemKey == key)
  {
    var log' := log + [e];
    if Answered(log, from, key) {
      var i :| 0 <= i < |log| && from <= i && log[i].payload.ToolResult? && log[i].payload.idemKey == key;
      assert log'[i] == log[i];
    }
    if e.payload.ToolResult? && e.payload.idemKey == key { assert log'[|log|] == e; }
  }

  lemma CountsPush(log: Log, e: Event)
    requires !e.payload.UserMessage?
    ensures LastIndex(log + [e], User) == LastIndex(log, User)
    ensures Replies(log + [e]) == Replies(log) + if e.payload.AssistantMessage? then 1 else 0
    ensures Results(log + [e]) == Results(log) + if e.payload.ToolResult? then 1 else 0
    ensures Terminals(log + [e]) == Terminals(log) + if IsTerminal(e.payload) then 1 else 0
  {
    IndexPush(log, e, User);
    var from := LastIndex(log, User) + 1;
    CountPush(log, e, from, Assistant);
    CountPush(log, e, from, Result);
    CountPush(log, e, from, Completed);
    CountPush(log, e, from, Failed);
  }

  lemma UserPush(log: Log, e: Event, external: seq<bool>)
    requires e.payload.UserMessage? && |external| == |log|
    ensures Replies(log + [e]) == Results(log + [e]) == Terminals(log + [e]) == 0
    ensures Interruptions(log + [e], external + [true]) == 0
    ensures !Pending(log + [e])
  {
    IndexPush(log, e, User);
    IndexPush(log, e, Assistant);
  }

  lemma PendingPush(log: Log, e: Event)
    requires !e.payload.UserMessage?
    ensures e.payload.AssistantMessage? ==> Pending(log + [e])
    ensures !e.payload.AssistantMessage? && Pending(log + [e]) ==> Pending(log)
    ensures (e.payload.ToolResult? && LastIndex(log, Assistant) >= 0
             && e.payload.idemKey == IdemKey(log[LastIndex(log, Assistant)].seqNo, 0)) ==> !Pending(log + [e])
  {
    IndexPush(log, e, User);
    IndexPush(log, e, Assistant);
    var a := LastIndex(log, Assistant);
    if !e.payload.AssistantMessage? && a >= 0 {
      AnsweredPush(log, e, a + 1, IdemKey(log[a].seqNo, 0));
    }
  }

  lemma OutsidePush(log: Log, external: seq<bool>, e: Event, ext: bool)
    requires |external| == |log| && !e.payload.UserMessage?
    ensures Interruptions(log + [e], external + [ext]) == Interruptions(log, external) + if ext then 1 else 0
  {
    IndexPush(log, e, User);
    assert (log + [e])[..|log|] == log && (external + [ext])[..|log|] == external;
  }

  // The invariant of one turn.
  ghost predicate Bounded(c: Config, log: Log, external: seq<bool>)
    requires |external| == |log|
  {
    && Replies(log) <= c.maxIterations
    && Results(log) + (if Pending(log) then 1 else 0) <= Replies(log)
    && Terminals(log) <= Interruptions(log, external) + if EndsTerminal(log) then 1 else 0
  }

  lemma BoundedStep(c: Config, log: Log, external: seq<bool>, e: Event, ext: bool)
    requires c.maxIterations >= 1 && |external| == |log| && Bounded(c, log, external)
    requires Prescribes(c, log, e.payload, ext)
    ensures Bounded(c, log + [e], external + [ext])
  {
    if e.payload.UserMessage? {
      UserPush(log, e, external);
    } else {
      CountsPush(log, e);
      PendingPush(log, e);
      OutsidePush(log, external, e, ext);
      if !ext {
        var action := NextAction(log, c.maxIterations);
        assert !EndsTerminal(log);
        if e.payload.AssistantMessage? { InferMeansAnswered(c, log); }
      }
    }
  }

  // The reducer asks the model only when nothing of this turn is pending and budget is left.
  lemma InferMeansAnswered(c: Config, log: Log)
    requires c.maxIterations >= 1 && NextAction(log, c.maxIterations) == Infer
    ensures !Pending(log)
    ensures Replies(log) < c.maxIterations
  {
    if LastIndex(log, Assistant) < LastIndex(log, User) {
      NoneAfter(log, Assistant, LastIndex(log, User) + 1);
    }
  }

  lemma {:induction false} NoneAfter(log: Log, k: Kind, from: int)
    requires LastIndex(log, k) < from
    ensures Count(log, from, k) == 0
  {
    if log != [] && |log| - 1 >= from { NoneAfter(log[..|log| - 1], k, from); }
  }

  lemma EmptyIsBounded(c: Config)
    ensures Bounded(c, [], [])
  {
  }

  lemma OneMore(c: Config, log: Log, external: seq<bool>, n: nat)
    requires c.maxIterations >= 1 && Prescribed(c, log, external) && n < |log|
    requires Bounded(c, log[..n], external[..n])
    ensures Bounded(c, log[..n + 1], external[..n + 1])
  {
    assert PrescribedAt(c, log, external, n);
    assert log[..n + 1] == log[..n] + [log[n]] && external[..n + 1] == external[..n] + [external[n]];
    BoundedStep(c, log[..n], external[..n], log[n], external[n]);
  }

  lemma {:induction false} FrontsAreBounded(c: Config, log: Log, external: seq<bool>, n: nat)
    requires c.maxIterations >= 1 && Prescribed(c, log, external) && n <= |log|
    ensures Bounded(c, log[..n], external[..n])
  {
    if n == 0 {
      EmptyIsBounded(c);
    } else {
      FrontsAreBounded(c, log, external, n - 1);
      OneMore(c, log, external, n - 1);
    }
  }

  lemma TurnsAreBounded(c: Config, log: Log, external: seq<bool>)
    requires c.maxIterations >= 1 && Prescribed(c, log, external)
    ensures Bounded(c, log, external)
  {
    FrontsAreBounded(c, log, external, |log|);
    assert log[..|log|] == log && external[..|log|] == external;
  }

  lemma PrescribedPrefix(c: Config, log: Log, external: seq<bool>, n: nat)
    requires Prescribed(c, log, external) && n <= |log|
    ensures Prescribed(c, log[..n], external[..n])
  {
    forall i | 0 <= i < n ensures PrescribedAt(c, log[..n], external[..n], i) {
      assert PrescribedAt(c, log, external, i) && log[..n][..i] == log[..i];
    }
  }

  // A worker fails a turn for its budget only when all of it was spent and the last call answered.
  lemma BudgetIsSpent(c: Config, log: Log, external: seq<bool>, i: nat)
    requires c.maxIterations >= 1 && Prescribed(c, log, external)
    requires i < |log| && !external[i] && log[i].payload == TurnFailed(Budget)
    ensures Replies(log[..i]) == c.maxIterations && !Pending(log[..i])
  {
    assert PrescribedAt(c, log, external, i);
    FrontsAreBounded(c, log, external, i);
  }

  // At any prefix of a native log, crashes included: the current turn has at most max_iterations
  // replies and as many results, and terminal events beyond the first need a provisioning event
  // in between; undisturbed, the turn has at most 2 * max_iterations + 1 events of its own.  A turn out
  // of budget did have all of its replies.
  lemma BudgetHolds(c: Config, log: Log, external: seq<bool>, n: nat)
    requires c.maxIterations >= 1 && Prescribed(c, log, external) && n <= |log|
    ensures var turn, ext := log[..n], external[..n];
      && Results(turn) <= Replies(turn) <= c.maxIterations
      && Terminals(turn) <= Interruptions(turn, ext) + 1
      && (Interruptions(turn, ext) == 0 ==> Replies(turn) + Results(turn) + Terminals(turn) <= 2 * c.maxIterations + 1)
    ensures forall i :: 0 <= i < n && !external[i] && log[i].payload == TurnFailed(Budget) ==>
      Replies(log[..i]) == c.maxIterations && !Pending(log[..i])
  {
    FrontsAreBounded(c, log, external, n);
    forall i | 0 <= i < n && !external[i] && log[i].payload == TurnFailed(Budget)
      ensures Replies(log[..i]) == c.maxIterations && !Pending(log[..i])
    {
      BudgetIsSpent(c, log, external, i);
    }
  }

  // Events still to come before an undisturbed turn must end: the loop's decreasing measure.
  function Remaining(c: Config, log: Log): int { 2 * c.maxIterations - Replies(log) - Results(log) }

  lemma RemainingDecreases(c: Config, log: Log, external: seq<bool>, e: Event)
    requires c.maxIterations >= 1 && Prescribed(c, log, external)
    requires Prescribes(c, log, e.payload, false) && (e.payload.AssistantMessage? || e.payload.ToolResult?)
    ensures 0 <= Remaining(c, log + [e]) < Remaining(c, log)
  {
    TurnsAreBounded(c, log, external);
    BoundedStep(c, log, external, e, false);
    CountsPush(log, e);
  }
}

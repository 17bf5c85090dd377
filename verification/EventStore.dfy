// The append-only event log of one session (packages/sessions/src/store.ts).  The table's primary
// key on seq IS the conditional append: an insert at a taken seq is ErrConflict.
module Store {
  import opened Prelude
  import opened Events

  type Table = map<nat, Event>

  predicate Taken(t: Table, e: Event) { e.seqNo in t }

  // Each row sits under its own seq and the seqs in use are exactly 1..|t|.
  ghost predicate Dense(t: Table) {
    && (forall n {:trigger n in t} :: n in t <==> 1 <= n <= |t|)
    && (forall n {:trigger t[n]} :: n in t ==> t[n].seqNo == n)
  }

  lemma {:induction false} GreatestExists(keys: set<nat>)
    requires keys != {}
    ensures exists m :: m in keys && forall k :: k in keys ==> k <= m
  {
    var x :| x in keys;
    if keys != {x} {
      GreatestExists(keys - {x});
      var m :| m in keys - {x} && forall k :: k in keys - {x} ==> k <= m;
      var best := if x > m then x else m;
      assert best in keys;
      forall k | k in keys ensures k <= best { assert k == x || k in keys - {x}; }
    }
  }

  // select seq ... order by seq desc limit 1, or 0 when there is no row.
  function LastSeqOf(t: Table): (m: nat)
    ensures t == map[] ==> m == 0
    ensures t != map[] ==> m in t
    ensures forall k :: k in t ==> k <= m
  {
    if t == map[] then 0
    else
      assert t.Keys != {} by { var k :| k in t; assert k in t.Keys; }
      GreatestExists(t.Keys);
      var m :| m in t.Keys && forall k :: k in t.Keys ==> k <= m;
      m
  }

  // The rows with after < seq <= last, in seq order.
  function Select(t: Table, after: nat, last: nat): (rows: Log)
    decreases last
  {
    if last <= after then []
    else Select(t, after, last - 1) + if last in t then [t[last]] else []
  }

  function ReadAll(t: Table): Log { Select(t, 0, LastSeqOf(t)) }

  lemma {:induction false} DenseSelect(t: Table, after: nat, last: nat)
    requires Dense(t) && after <= last <= |t|
    ensures |Select(t, after, last)| == last - after
    ensures forall i :: 0 <= i < last - after ==> Select(t, after, last)[i] == t[after + 1 + i]
  {
    if after < last {
      DenseSelect(t, after, last - 1);
      assert last in t;
    }
  }

  // A dense table reads back as rows 1, 2, ..., |t|; a caller's lastSeq + 1 is |t| + 1.
  lemma DenseReadAll(t: Table)
    requires Dense(t)
    ensures LastSeqOf(t) == |t| == |ReadAll(t)|
    ensures forall i :: 0 <= i < |t| ==> ReadAll(t)[i] == t[i + 1]
    ensures Numbered(ReadAll(t)) && LastSeq(ReadAll(t)) == |t|
  {
    if |t| > 0 {
      assert |t| in t && LastSeqOf(t) in t;
    }
    DenseSelect(t, 0, |t|);
  }

  // The one write path keeps the table dense and extends the log by exactly the new row.
  lemma AppendKeepsDense(t: Table, e: Event)
    requires Dense(t) && e.seqNo == |t| + 1
    ensures !Taken(t, e)
    ensures Dense(t[e.seqNo := e])
    ensures ReadAll(t[e.seqNo := e]) == ReadAll(t) + [e]
  {
    var t' := t[e.seqNo := e];
    assert |t| + 1 !in t;
    assert t'.Keys == t.Keys + {e.seqNo};
    assert |t'.Keys| == |t.Keys| + 1;
    assert |t'| == |t| + 1;
    DenseReadAll(t);
    DenseReadAll(t');
  }

  // A writer whose view is a prefix of the log inserts at its last seq plus one: the insert wins
  // exactly when the view is the whole log.
  lemma ConditionalAppend(t: Table, view: Log, e: Event)
    requires Dense(t) && view <= ReadAll(t) && e.seqNo == LastSeq(view) + 1
    ensures Taken(t, e) <==> view != ReadAll(t)
    ensures !Taken(t, e) ==> Dense(t[e.seqNo := e]) && ReadAll(t[e.seqNo := e]) == ReadAll(t) + [e]
  {
    DenseReadAll(t);
    assert LastSeq(view) == |view|;
    if |view| == |ReadAll(t)| {
      assert view == ReadAll(t);
      AppendKeepsDense(t, e);
    }
  }

  // A writer that computes lastSeq + 1 from the table itself always wins.
  lemma TransactionalAppend(t: Table, p: Payload)
    requires Dense(t)
    ensures var e := Event(LastSeqOf(t) + 1, p);
      && e == Event(|ReadAll(t)| + 1, p)
      && Dense(t[e.seqNo := e]) && ReadAll(t[e.seqNo := e]) == ReadAll(t) + [e] && |t[e.seqNo := e]| == |t| + 1
  {
    DenseReadAll(t);
    AppendKeepsDense(t, Event(|t| + 1, p));
    DenseReadAll(t[|t| + 1 := Event(|t| + 1, p)]);
  }

  datatype AppendOutcome = Appended | ErrConflict

  class EventStore {
    var rows: Table

    ghost predicate Valid() reads this { Dense(rows) }

    ghost function Contents(): Log reads this { ReadAll(rows) }

    constructor ()
      ensures Valid() && Contents() == []
    {
      rows := map[];
    }

    // Conditional append; callers compute e.seqNo as the last seq they know of plus one.
    method AppendEvent(e: Event) returns (r: AppendOutcome)
      requires Valid() && 1 <= e.seqNo <= |Contents()| + 1
      modifies this
      ensures Valid()
      ensures r.ErrConflict? <==> e.seqNo <= |old(Contents())|
      ensures Contents() == if r.Appended? then old(Contents()) + [e] else old(Contents())
    {
      DenseReadAll(rows);
      if e.seqNo in rows { return ErrConflict; }
      AppendKeepsDense(rows, e);
      rows := rows[e.seqNo := e];
      r := Appended;
    }

    method LastSeqNow() returns (n: nat)
      requires Valid()
      ensures n == |Contents()|
    {
      DenseReadAll(rows);
      n := LastSeqOf(rows);
    }

    // Reads limit + 1 rows above the cursor to decide hasMore without a count.
    method ReadPage(afterSeq: nat, limit: nat) returns (events: Log, hasMore: bool)
      requires Valid()
      ensures var n := |Contents()|;
        && events == Contents()[Min(afterSeq, n)..Min(afterSeq + limit, n)]
        && (hasMore <==> afterSeq + limit < n)
    {
      DenseReadAll(rows);
      var n := LastSeqOf(rows);
      var fetched: Log := [];
      var i := afterSeq;
      while i < n && |fetched| < limit + 1
        invariant afterSeq <= i && |fetched| == i - afterSeq <= limit + 1
        invariant afterSeq >= n ==> i == afterSeq
        invariant afterSeq < n ==> i <= n && fetched == Contents()[afterSeq..i]
      {
        assert i + 1 in rows;
        fetched := fetched + [rows[i + 1]];
        i := i + 1;
      }
      events := if |fetched| > limit then fetched[..limit] else fetched;
      hasMore := |fetched| > limit;
    }
  }
}

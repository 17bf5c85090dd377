// The fenced transcript mirror (packages/ports/harness/src/drivers/claude-code-store.ts): rows land
// only while the session's fence column still holds the writer's token, duplicates by uuid are
// dropped by the partial unique index, and a short count is classified by reading the fence again.
module Transcript {
  import opened Prelude

  datatype Key = Key(project: string, sdkSession: string, subpath: string)

  datatype Entry = Entry(uuid: Option<string>, body: string)

  // `attempt` is not a column; it records who wrote the row.
  datatype Row = Row(key: Key, entry: Entry, session: nat, attempt: nat)

  // rows in ord order; fences: the tokens each session's fence column has held, oldest first;
  // accepted: every row of every batch that passed the fence, duplicates included.
  datatype Db = Db(rows: seq<Row>, fences: map<nat, seq<nat>>, accepted: seq<Row>)

  predicate SameTranscript(a: Key, b: Key) { a.sdkSession == b.sdkSession && a.subpath == b.subpath }

  // The unique index: an entry with this uuid is stored in k's transcript.  The project is not in it.
  predicate Stores(rows: seq<Row>, k: Key, u: string) {
    exists i :: 0 <= i < |rows| && SameTranscript(rows[i].key, k) && rows[i].entry.uuid == Some(u)
  }

  // on conflict do nothing.
  function InsertOne(rows: seq<Row>, r: Row): seq<Row> {
    if r.entry.uuid.Some? && Stores(rows, r.key, r.entry.uuid.value) then rows else rows + [r]
  }

  function InsertAll(rows: seq<Row>, batch: seq<Row>): seq<Row> {
    if batch == [] then rows
    else InsertOne(InsertAll(rows, batch[..|batch| - 1]), batch[|batch| - 1])
  }

  function Current(fences: map<nat, seq<nat>>, s: nat): Option<nat> {
    if s in fences && fences[s] != [] then Some(fences[s][|fences[s]| - 1]) else None
  }

  function RowsOf(s: nat, attempt: nat, key: Key, entries: seq<Entry>): (rows: seq<Row>)
    ensures |rows| == |entries|
    ensures forall i :: 0 <= i < |rows| ==> rows[i] == Row(key, entries[i], s, attempt)
  {
    seq(|entries|, i requires 0 <= i < |entries| => Row(key, entries[i], s, attempt))
  }

  // The guarded insert, one statement.
  function Write(db: Db, s: nat, attempt: nat, key: Key, entries: seq<Entry>): Db {
    if Current(db.fences, s) == Some(attempt) then
      var batch := RowsOf(s, attempt, key, entries);
      db.(rows := InsertAll(db.rows, batch), accepted := db.accepted + batch)
    else db
  }

  // A new attempt's token; tokens are never reused.
  function Fence(db: Db, s: nat, token: nat): Db {
    db.(fences := db.fences[s := Tokens(db.fences, s) + [token]])
  }

  function Tokens(fences: map<nat, seq<nat>>, s: nat): seq<nat> { if s in fences then fences[s] else [] }

  function Load(rows: seq<Row>, key: Key): seq<Entry> {
    if rows == [] then []
    else
      var n := |rows| - 1;
      Load(rows[..n], key) + if rows[n].key == key then [rows[n].entry] else []
  }

  // latestSdkSessionId: the newest main-transcript row of the session.
  function Tip(rows: seq<Row>, s: nat): Option<string> {
    if rows == [] then None
    else
      var r := rows[|rows| - 1];
      if r.session == s && r.key.subpath == "" then Some(r.key.sdkSession) else Tip(rows[..|rows| - 1], s)
  }

  // ------------------------------------------------------------------- fence order

  // How many attempts the session had fenced before this one.
  function Rank(tokens: seq<nat>, a: nat): nat
    requires a in tokens
  {
    if tokens[|tokens| - 1] == a then |tokens| - 1 else Rank(tokens[..|tokens| - 1], a)
  }

  predicate Fenced(fences: map<nat, seq<nat>>, r: Row) { r.session in fences && r.attempt in fences[r.session] }

  function RankOf(fences: map<nat, seq<nat>>, r: Row): nat
    requires Fenced(fences, r)
  {
    Rank(fences[r.session], r.attempt)
  }

  // In ord order a session's rows never return to an older attempt.
  ghost predicate InFenceOrder(rows: seq<Row>, fences: map<nat, seq<nat>>) {
    && (forall i :: 0 <= i < |rows| ==> Fenced(fences, rows[i]))
    && (forall i, j :: 0 <= i < j < |rows| && rows[i].session == rows[j].session ==>
          RankOf(fences, rows[i]) <= RankOf(fences, rows[j]))
  }

  ghost predicate NeverReused(fences: map<nat, seq<nat>>) {
    forall s, i, j :: s in fences && 0 <= i < j < |fences[s]| ==> fences[s][i] != fences[s][j]
  }

  ghost predicate Valid(db: Db) {
    && db.rows == InsertAll([], db.accepted)
    && NeverReused(db.fences)
    && InFenceOrder(db.rows, db.fences)
  }

  const Empty := Db([], map[], [])

  predicate Superseded(db: Db, s: nat, a: nat) { a in Tokens(db.fences, s) && Current(db.fences, s) != Some(a) }

  // What may have happened since db: rows and fences only grew, and no attempt superseded by then
  // added a row.
  ghost predicate Onward(db: Db, db': Db) {
    && db.rows <= db'.rows && db.accepted <= db'.accepted
    && (forall s :: s in db.fences ==> s in db'.fences && db.fences[s] <= db'.fences[s])
    && (forall i :: |db.rows| <= i < |db'.rows| ==> !Superseded(db, db'.rows[i].session, db'.rows[i].attempt))
  }

  // A token once replaced is never current again.
  lemma SupersededStays(db: Db, db': Db, s: nat, a: nat)
    requires Valid(db') && Onward(db, db') && Superseded(db, s, a)
    ensures Superseded(db', s, a)
  {
    var tokens, tokens' := db.fences[s], db'.fences[s];
    var i :| 0 <= i < |tokens| && tokens[i] == a;
    assert tokens'[i] == a && i < |tokens| - 1;
  }

  lemma OnwardTwice(db: Db, db': Db, db'': Db)
    requires Valid(db') && Onward(db, db') && Onward(db', db'')
    ensures Onward(db, db'')
  {
    forall i | |db.rows| <= i < |db''.rows| ensures !Superseded(db, db''.rows[i].session, db''.rows[i].attempt) {
      if i < |db'.rows| {
        assert db''.rows[i] == db'.rows[i];
      } else if Superseded(db, db''.rows[i].session, db''.rows[i].attempt) {
        SupersededStays(db, db', db''.rows[i].session, db''.rows[i].attempt);
      }
    }
  }

  // What a batch adds is some of its own rows, in order.
  lemma {:induction false} InsertAdds(rows: seq<Row>, batch: seq<Row>)
    ensures rows <= InsertAll(rows, batch)
    ensures forall i :: |rows| <= i < |InsertAll(rows, batch)| ==> InsertAll(rows, batch)[i] in batch
  {
    if batch != [] { InsertAdds(rows, batch[..|batch| - 1]); }
  }

  lemma {:induction false} InsertTwice(rows: seq<Row>, a: seq<Row>, b: seq<Row>)
    ensures InsertAll(rows, a + b) == InsertAll(InsertAll(rows, a), b)
    decreases |b|
  {
    if b == [] {
      assert a + b == a;
    } else {
      InsertTwice(rows, a, b[..|b| - 1]);
      assert (a + b)[..|a + b| - 1] == a + b[..|b| - 1];
    }
  }

  lemma {:induction false} RankBelow(tokens: seq<nat>, a: nat)
    requires a in tokens
    ensures Rank(tokens, a) < |tokens|
  {
    if tokens[|tokens| - 1] != a { RankBelow(tokens[..|tokens| - 1], a); }
  }

  lemma WriteKeepsValid(db: Db, s: nat, attempt: nat, key: Key, entries: seq<Entry>)
    requires Valid(db)
    ensures Valid(Write(db, s, attempt, key, entries)) && Onward(db, Write(db, s, attempt, key, entries))
  {
    var db' := Write(db, s, attempt, key, entries);
    if Current(db.fences, s) == Some(attempt) {
      var batch := RowsOf(s, attempt, key, entries);
      InsertTwice([], db.accepted, batch);
      InsertAdds(db.rows, batch);
      forall i | |db.rows| <= i < |db'.rows| ensures db'.rows[i].session == s && db'.rows[i].attempt == attempt {
        assert db'.rows[i] in batch;
      }
      AppendedInOrder(db.rows, db'.rows, db.fences, s, attempt);
    }
  }

  lemma AppendedInOrder(rows: seq<Row>, rows': seq<Row>, fences: map<nat, seq<nat>>, s: nat, attempt: nat)
    requires InFenceOrder(rows, fences) && rows <= rows' && Current(fences, s) == Some(attempt)
    requires forall i :: |rows| <= i < |rows'| ==> rows'[i].session == s && rows'[i].attempt == attempt
    ensures InFenceOrder(rows', fences)
  {
    forall i | 0 <= i < |rows'| ensures Fenced(fences, rows'[i]) {
      if i < |rows| { assert Fenced(fences, rows[i]); }
    }
    forall i, j | 0 <= i < j < |rows'| && rows'[i].session == rows'[j].session
      ensures RankOf(fences, rows'[i]) <= RankOf(fences, rows'[j])
    {
      if j < |rows| {
        assert RankOf(fences, rows[i]) <= RankOf(fences, rows[j]);
      } else {
        RankBelow(fences[s], rows'[i].attempt);
      }
    }
  }

  lemma FenceKeepsValid(db: Db, s: nat, token: nat)
    requires Valid(db) && token !in Tokens(db.fences, s)
    ensures Valid(Fence(db, s, token)) && Onward(db, Fence(db, s, token))
  {
    var db' := Fence(db, s, token);
    forall i | 0 <= i < |db.rows|
      ensures Fenced(db'.fences, db.rows[i])
      ensures RankOf(db'.fences, db.rows[i]) == RankOf(db.fences, db.rows[i])
    {
      assert Fenced(db.fences, db.rows[i]);
      if db.rows[i].session == s {
        assert db'.fences[s][..|db.fences[s]|] == db.fences[s];
        var k :| 0 <= k < |db.fences[s]| && db.fences[s][k] == db.rows[i].attempt;
        assert db'.fences[s][k] == db.rows[i].attempt;
      }
    }
  }

  // An accepted batch stores every entry that has a uuid.
  lemma {:induction false} BatchIsStored(rows: seq<Row>, batch: seq<Row>, i: nat)
    requires i < |batch| && batch[i].entry.uuid.Some?
    ensures Stores(InsertAll(rows, batch), batch[i].key, batch[i].entry.uuid.value)
  {
    var n := |batch| - 1;
    var before := InsertAll(rows, batch[..n]);
    if i < n {
      BatchIsStored(rows, batch[..n], i);
      StoresMore(before, InsertAll(rows, batch), batch[i].key, batch[i].entry.uuid.value);
    } else if !Stores(before, batch[i].key, batch[i].entry.uuid.value) {
      assert InsertAll(rows, batch)[|before|] == batch[i];
    }
  }

  lemma StoresMore(rows: seq<Row>, rows': seq<Row>, k: Key, u: string)
    requires Stores(rows, k, u) && rows <= rows'
    ensures Stores(rows', k, u)
  {
    var i :| 0 <= i < |rows| && SameTranscript(rows[i].key, k) && rows[i].entry.uuid == Some(u);
    assert rows'[i] == rows[i];
  }

  // ------------------------------------------------------------------ what load sees

  // Position j is the first to bring its uuid.
  predicate FirstAt(es: seq<Entry>, j: int) {
    0 <= j < |es| && es[j].uuid.Some? && forall i :: 0 <= i < j ==> es[i].uuid != es[j].uuid
  }

  function FirstSeen(es: seq<Entry>): seq<Entry> {
    if es == [] then []
    else FirstSeen(es[..|es| - 1]) + if FirstAt(es, |es| - 1) then [es[|es| - 1]] else []
  }

  ghost predicate Picks(es: seq<Entry>, out: seq<Entry>, at: seq<nat>) {
    && |at| == |out|
    && (forall i, j :: 0 <= i < j < |at| ==> at[i] < at[j])
    && (forall i :: 0 <= i < |at| ==> FirstAt(es, at[i]) && out[i] == es[at[i]])
    && (forall j :: FirstAt(es, j) ==> j in at)
  }

  lemma FirstAtOneMore(es: seq<Entry>, e: Entry, j: int)
    ensures j != |es| ==> (FirstAt(es + [e], j) <==> FirstAt(es, j))
  {
    if 0 <= j < |es| { assert forall i :: 0 <= i <= j ==> (es + [e])[i] == es[i]; }
  }

  lemma PicksOneMore(es: seq<Entry>, e: Entry, out: seq<Entry>, at: seq<nat>)
    requires Picks(es, out, at)
    ensures if FirstAt(es + [e], |es|) then Picks(es + [e], out + [e], at + [|es|]) else Picks(es + [e], out, at)
  {
    forall j ensures j != |es| ==> (FirstAt(es + [e], j) <==> FirstAt(es, j)) { FirstAtOneMore(es, e, j); }
    forall i | 0 <= i < |at| ensures FirstAt(es + [e], at[i]) && out[i] == (es + [e])[at[i]] && at[i] < |es| {
      assert FirstAt(es, at[i]);
    }
    forall j | FirstAt(es + [e], j) && j != |es| ensures j in at && j in at + [|es|] { assert FirstAt(es, j); }
  }

  ghost predicate InFirstSeenOrder(es: seq<Entry>, out: seq<Entry>) { exists at :: Picks(es, out, at) }

  lemma InOrderOneMore(es: seq<Entry>, e: Entry, out: seq<Entry>)
    requires InFirstSeenOrder(es, out)
    ensures InFirstSeenOrder(es + [e], if FirstAt(es + [e], |es|) then out + [e] else out)
  {
    var at :| Picks(es, out, at);
    PicksOneMore(es, e, out, at);
  }

  lemma FirstSeenStep(es: seq<Entry>, e: Entry)
    ensures FirstSeen(es + [e]) == if FirstAt(es + [e], |es|) then FirstSeen(es) + [e] else FirstSeen(es)
  {
    assert (es + [e])[..|es|] == es;
  }

  lemma FirstSeenOrderStep(es: seq<Entry>, e: Entry)
    requires InFirstSeenOrder(es, FirstSeen(es))
    ensures InFirstSeenOrder(es + [e], FirstSeen(es + [e]))
  {
    InOrderOneMore(es, e, FirstSeen(es));
    FirstSeenStep(es, e);
  }

  lemma NothingSeen()
    ensures InFirstSeenOrder([], FirstSeen([]))
  {
    assert Picks([], [], []);
  }

  // FirstSeen lists each uuid once, at its first delivery, in order of first delivery.
  lemma {:induction false} FirstSeenPicks(es: seq<Entry>)
    ensures InFirstSeenOrder(es, FirstSeen(es))
  {
    if es == [] {
      NothingSeen();
    } else {
      var before, e := es[..|es| - 1], es[|es| - 1];
      FirstSeenPicks(before);
      FirstSeenOrderStep(before, e);
      assert es == before + [e];
    }
  }

  // Picks leaves no choice: what load returns is determined by the deliveries.
  lemma {:induction false} SortedAgree(a: seq<nat>, b: seq<nat>)
    requires forall i, j :: 0 <= i < j < |a| ==> a[i] < a[j]
    requires forall i, j :: 0 <= i < j < |b| ==> b[i] < b[j]
    requires forall x :: x in a <==> x in b
    ensures a == b
  {
    if a != [] {
      assert a[0] in b && b[0] in a;
      var i :| 0 <= i < |b| && b[i] == a[0];
      var j :| 0 <= j < |a| && a[j] == b[0];
      assert a[0] == b[0];
      assert forall x :: x in a[1..] <==> x in a && x != a[0];
      assert forall x :: x in b[1..] <==> x in b && x != b[0];
      SortedAgree(a[1..], b[1..]);
    } else if b != [] {
      FirstIsIn(b);
    }
  }

  lemma FirstIsIn(b: seq<nat>)
    requires b != []
    ensures exists x :: x in b
  {
    assert b[0] in b;
  }

  lemma PicksAgree(es: seq<Entry>, out: seq<Entry>, at: seq<nat>, out': seq<Entry>, at': seq<nat>)
    requires Picks(es, out, at) && Picks(es, out', at')
    ensures out == out'
  {
    forall x | x in at ensures x in at' {
      var i :| 0 <= i < |at| && at[i] == x;
      assert FirstAt(es, at[i]);
    }
    forall x | x in at' ensures x in at {
      var i :| 0 <= i < |at'| && at'[i] == x;
      assert FirstAt(es, at'[i]);
    }
    SortedAgree(at, at');
  }

  predicate Brings(es: seq<Entry>, u: string) { exists i :: 0 <= i < |es| && es[i].uuid == Some(u) }

  function WithUuid(es: seq<Entry>): seq<Entry> {
    if es == [] then []
    else WithUuid(es[..|es| - 1]) + if es[|es| - 1].uuid.Some? then [es[|es| - 1]] else []
  }

  // The entries accepted for k, in order of arrival.
  function Accepted(stream: seq<Row>, k: Key): seq<Entry> { Load(stream, k) }

  // The SDK derives the project from a per-session working directory: one transcript, one project.
  ghost predicate OneProject(stream: seq<Row>, k: Key) {
    forall i :: 0 <= i < |stream| && SameTranscript(stream[i].key, k) ==> stream[i].key == k
  }

  lemma BringsOneMore(es: seq<Entry>, e: Entry, u: string)
    ensures Brings(es + [e], u) <==> Brings(es, u) || e.uuid == Some(u)
  {
    assert (es + [e])[|es|] == e;
    assert forall i :: 0 <= i < |es| ==> (es + [e])[i] == es[i];
  }

  lemma {:induction false} StoredIffAccepted(stream: seq<Row>, k: Key, u: string)
    requires OneProject(stream, k)
    ensures Stores(InsertAll([], stream), k, u) <==> Brings(Load(stream, k), u)
  {
    if stream != [] {
      var n := |stream| - 1;
      var r, before, es := stream[n], InsertAll([], stream[..n]), Load(stream[..n], k);
      StoredIffAccepted(stream[..n], k, u);
      StoresOneMore(before, r, k, u);
      BringsOneMore(es, r.entry, u);
      assert Load(stream, k) == if r.key == k then es + [r.entry] else es;
    }
  }

  lemma StoresOneMore(rows: seq<Row>, r: Row, k: Key, u: string)
    ensures Stores(InsertOne(rows, r), k, u) <==>
      Stores(rows, k, u) || (SameTranscript(r.key, k) && r.entry.uuid == Some(u))
  {
    if InsertOne(rows, r) == rows + [r] {
      assert (rows + [r])[|rows|] == r;
      assert forall i :: 0 <= i < |rows| ==> (rows + [r])[i] == rows[i];
    } else if SameTranscript(r.key, k) && r.entry.uuid == Some(u) {
      var i :| 0 <= i < |rows| && SameTranscript(rows[i].key, r.key) && rows[i].entry.uuid == Some(u);
      assert SameTranscript(rows[i].key, k);
    }
  }

  lemma LoadOneMore(rows: seq<Row>, r: Row, k: Key)
    ensures Load(rows + [r], k) == Load(rows, k) + if r.key == k then [r.entry] else []
  {
    assert (rows + [r])[..|rows|] == rows;
  }

  lemma WithUuidOneMore(es: seq<Entry>, e: Entry)
    ensures WithUuid(es + [e]) == WithUuid(es) + if e.uuid.Some? then [e] else []
  {
    assert (es + [e])[..|es|] == es;
  }

  lemma FirstSeenOneMore(es: seq<Entry>, e: Entry)
    ensures FirstSeen(es + [e]) == FirstSeen(es) +
      if e.uuid.Some? && !Brings(es, e.uuid.value) then [e] else []
  {
    var es' := es + [e];
    assert es'[..|es|] == es;
    assert forall i :: 0 <= i < |es| ==> es'[i] == es[i];
    assert FirstAt(es', |es|) <==> e.uuid.Some? && !Brings(es, e.uuid.value);
  }

  lemma LoadsOneMore(rows: seq<Row>, es: seq<Entry>, r: Row, k: Key)
    requires WithUuid(Load(rows, k)) == FirstSeen(es)
    requires r.key == k && r.entry.uuid.Some? ==>
      (Stores(rows, k, r.entry.uuid.value) <==> Brings(es, r.entry.uuid.value))
    ensures WithUuid(Load(InsertOne(rows, r), k)) == FirstSeen(if r.key == k then es + [r.entry] else es)
  {
    LoadOneMore(rows, r, k);
    if r.key == k {
      FirstSeenOneMore(es, r.entry);
      WithUuidOneMore(Load(rows, k), r.entry);
    } else {
      assert Load(rows + [r], k) == Load(rows, k);
    }
  }

  // Whatever was delivered again, load gives each entry with a uuid once, in first-seen order.
  lemma {:induction false} LoadIsFirstSeen(stream: seq<Row>, k: Key)
    requires OneProject(stream, k)
    ensures WithUuid(Load(InsertAll([], stream), k)) == FirstSeen(Accepted(stream, k))
  {
    if stream != [] {
      var before, r := stream[..|stream| - 1], stream[|stream| - 1];
      LoadIsFirstSeen(before, k);
      if r.key == k && r.entry.uuid.Some? { StoredIffAccepted(before, k, r.entry.uuid.value); }
      LoadsOneMore(InsertAll([], before), Load(before, k), r, k);
      assert Load(stream, k) == if r.key == k then Load(before, k) + [r.entry] else Load(before, k);
    }
  }

  // ------------------------------------------------------------------- re-delivery

  predicate Within(pattern: seq<nat>, n: nat) { forall i :: 0 <= i < |pattern| ==> pattern[i] < n }

  // The batches pattern delivers, one after the other.
  function Deliveries(batches: seq<seq<Row>>, pattern: seq<nat>): seq<Row>
    requires Within(pattern, |batches|)
  {
    if pattern == [] then []
    else Deliveries(batches, pattern[..|pattern| - 1]) + batches[pattern[|pattern| - 1]]
  }

  function Reached(pattern: seq<nat>): nat {
    if pattern == [] then 0
    else
      var before, last := Reached(pattern[..|pattern| - 1]), pattern[|pattern| - 1];
      if last >= before then last + 1 else before
  }

  // Batches are first delivered in order; any of them may come again at any time.
  predicate Retries(pattern: seq<nat>) {
    forall i :: 0 <= i < |pattern| ==> pattern[i] <= Reached(pattern[..i])
  }

  function Once(n: nat): (p: seq<nat>)
    ensures |p| == n && forall i :: 0 <= i < n ==> p[i] == i
  {
    seq(n, i => i)
  }

  // The same uuids are in b as in a.
  ghost predicate SameUuids(a: seq<Entry>, b: seq<Entry>) {
    forall u :: Brings(a, u) <==> Brings(b, u)
  }

  // Two streams that look the same so far look the same after the same batch.
  lemma {:induction false} SameBatchSameView(a: seq<Entry>, b: seq<Entry>, batch: seq<Entry>)
    requires SameUuids(a, b) && FirstSeen(a) == FirstSeen(b)
    ensures SameUuids(a + batch, b + batch) && FirstSeen(a + batch) == FirstSeen(b + batch)
    decreases |batch|
  {
    if batch == [] {
      assert a + batch == a && b + batch == b;
    } else {
      var n := |batch| - 1;
      var e := batch[n];
      SameBatchSameView(a, b, batch[..n]);
      var a', b' := a + batch[..n], b + batch[..n];
      assert a + batch == a' + [e] && b + batch == b' + [e];
      SameEntrySameView(a', b', e);
    }
  }

  lemma SameEntrySameView(a: seq<Entry>, b: seq<Entry>, e: Entry)
    requires SameUuids(a, b) && FirstSeen(a) == FirstSeen(b)
    ensures SameUuids(a + [e], b + [e]) && FirstSeen(a + [e]) == FirstSeen(b + [e])
  {
    FirstSeenOneMore(a, e);
    FirstSeenOneMore(b, e);
    forall u ensures Brings(a + [e], u) <==> Brings(b + [e], u) {
      BringsOneMore(a, e, u);
      BringsOneMore(b, e, u);
    }
    if e.uuid.Some? { assert Brings(a, e.uuid.value) <==> Brings(b, e.uuid.value); }
  }

  // A batch all of whose uuids came before is invisible.
  lemma {:induction false} OldBatchIsInvisible(es: seq<Entry>, batch: seq<Entry>)
    requires forall u :: Brings(batch, u) ==> Brings(es, u)
    ensures SameUuids(es + batch, es) && FirstSeen(es + batch) == FirstSeen(es)
    decreases |batch|
  {
    if batch == [] {
      assert es + batch == es;
    } else {
      var n := |batch| - 1;
      var e := batch[n];
      assert batch[..n] + [e] == batch;
      forall u | Brings(batch[..n], u) ensures Brings(es, u) { BringsOneMore(batch[..n], e, u); }
      OldBatchIsInvisible(es, batch[..n]);
      if e.uuid.Some? { BringsOneMore(batch[..n], e, e.uuid.value); }
      assert es + batch == (es + batch[..n]) + [e];
      FirstSeenOneMore(es + batch[..n], e);
      if e.uuid.Some? { assert Brings(es + batch[..n], e.uuid.value); }
      forall u ensures Brings(es + batch, u) <==> Brings(es, u) { BringsOneMore(es + batch[..n], e, u); }
    }
  }

  lemma {:induction false} LoadAppends(a: seq<Row>, b: seq<Row>, k: Key)
    ensures Load(a + b, k) == Load(a, k) + Load(b, k)
    decreases |b|
  {
    if b == [] {
      assert a + b == a;
    } else {
      LoadAppends(a, b[..|b| - 1], k);
      assert (a + b)[..|a + b| - 1] == a + b[..|b| - 1];
    }
  }

  lemma DeliverOneMore(batches: seq<seq<Row>>, pattern: seq<nat>, x: nat, k: Key)
    requires Within(pattern, |batches|) && x < |batches|
    ensures Deliveries(batches, pattern + [x]) == Deliveries(batches, pattern) + batches[x]
    ensures Load(Deliveries(batches, pattern + [x]), k) == Load(Deliveries(batches, pattern), k) + Load(batches[x], k)
  {
    assert (pattern + [x])[..|pattern|] == pattern;
    LoadAppends(Deliveries(batches, pattern), batches[x], k);
  }

  lemma BringsEither(a: seq<Entry>, b: seq<Entry>, u: string)
    ensures Brings(a + b, u) <==> Brings(a, u) || Brings(b, u)
  {
    if Brings(a + b, u) {
      var i :| 0 <= i < |a + b| && (a + b)[i].uuid == Some(u);
      if i >= |a| { assert b[i - |a|].uuid == Some(u); }
    }
    if Brings(b, u) {
      var i :| 0 <= i < |b| && b[i].uuid == Some(u);
      assert (a + b)[|a| + i] == b[i];
    }
    if Brings(a, u) {
      var i :| 0 <= i < |a| && a[i].uuid == Some(u);
      assert (a + b)[i] == a[i];
    }
  }

  lemma {:induction false} OnceBringsAll(batches: seq<seq<Row>>, n: nat, x: nat, k: Key, u: string)
    requires x < n <= |batches| && Brings(Load(batches[x], k), u)
    ensures Brings(Load(Deliveries(batches, Once(n)), k), u)
    decreases n
  {
    var m := n - 1;
    assert Once(n) == Once(m) + [m];
    DeliverOneMore(batches, Once(m), m, k);
    BringsEither(Load(Deliveries(batches, Once(m)), k), Load(batches[m], k), u);
    if x < m { OnceBringsAll(batches, m, x, k, u); }
  }

  // A retried stream shows the same entries as each batch delivered once.
  ghost predicate ShowsOnce(batches: seq<seq<Row>>, pattern: seq<nat>, n: nat, k: Key)
    requires Within(pattern, |batches|) && n <= |batches|
  {
    var a, b := Load(Deliveries(batches, pattern), k), Load(Deliveries(batches, Once(n)), k);
    SameUuids(a, b) && FirstSeen(a) == FirstSeen(b)
  }

  lemma FirstDelivery(batches: seq<seq<Row>>, before: seq<nat>, n: nat, k: Key)
    requires Within(before, |batches|) && n < |batches| && ShowsOnce(batches, before, n, k)
    ensures ShowsOnce(batches, before + [n], n + 1, k)
  {
    var a, b := Load(Deliveries(batches, before), k), Load(Deliveries(batches, Once(n)), k);
    DeliverOneMore(batches, before, n, k);
    assert Once(n + 1) == Once(n) + [n];
    DeliverOneMore(batches, Once(n), n, k);
    SameBatchSameView(a, b, Load(batches[n], k));
  }

  lemma Redelivery(batches: seq<seq<Row>>, before: seq<nat>, n: nat, x: nat, k: Key)
    requires Within(before, |batches|) && x < n <= |batches| && ShowsOnce(batches, before, n, k)
    ensures ShowsOnce(batches, before + [x], n, k)
  {
    var a := Load(Deliveries(batches, before), k);
    DeliverOneMore(batches, before, x, k);
    forall u | Brings(Load(batches[x], k), u) ensures Brings(a, u) {
      OnceBringsAll(batches, n, x, k, u);
    }
    OldBatchIsInvisible(a, Load(batches[x], k));
  }

  lemma FrontRetries(before: seq<nat>, x: nat)
    requires Retries(before + [x])
    ensures Retries(before) && x <= Reached(before)
    ensures Reached(before + [x]) == if x == Reached(before) then x + 1 else Reached(before)
  {
    var pattern := before + [x];
    assert pattern[..|before|] == before;
    forall i | 0 <= i < |before| ensures before[i] <= Reached(before[..i]) { assert pattern[..i] == before[..i]; }
    assert pattern[|before|] == x;
  }

  lemma {:induction false} RetriesShowTheSame(batches: seq<seq<Row>>, pattern: seq<nat>, k: Key)
    requires Retries(pattern) && Within(pattern, |batches|) && Reached(pattern) <= |batches|
    ensures ShowsOnce(batches, pattern, Reached(pattern), k)
  {
    if pattern == [] {
      assert Once(0) == [];
    } else {
      var before, x := pattern[..|pattern| - 1], pattern[|pattern| - 1];
      assert pattern == before + [x];
      FrontRetries(before, x);
      RetriesShowTheSame(batches, before, k);
      if x == Reached(before) { FirstDelivery(batches, before, x, k); }
      else { Redelivery(batches, before, Reached(before), x, k); }
    }
  }

  // Any pattern of re-delivered batches loads like each batch delivered once.
  lemma RetriesLoadTheSame(batches: seq<seq<Row>>, pattern: seq<nat>, k: Key)
    requires Retries(pattern) && Within(pattern, |batches|) && Reached(pattern) <= |batches|
    requires OneProject(Deliveries(batches, pattern), k) && OneProject(Deliveries(batches, Once(Reached(pattern))), k)
    ensures var retried, once := Deliveries(batches, pattern), Deliveries(batches, Once(Reached(pattern)));
      WithUuid(Load(InsertAll([], retried), k)) == WithUuid(Load(InsertAll([], once), k))
  {
    LoadIsFirstSeen(Deliveries(batches, pattern), k);
    LoadIsFirstSeen(Deliveries(batches, Once(Reached(pattern))), k);
    RetriesShowTheSame(batches, pattern, k);
  }

  // ------------------------------------------------- what a project mismatch would do

  // load looks rows up by project, the unique index does not: an accepted entry can be loaded under
  // its key exactly when the transcript's row with its uuid was stored under the same project.
  predicate StoredUnder(rows: seq<Row>, k: Key, u: string) {
    exists i :: 0 <= i < |rows| && rows[i].key == k && rows[i].entry.uuid == Some(u)
  }

  lemma {:induction false} LoadBrings(rows: seq<Row>, k: Key, u: string)
    ensures Brings(Load(rows, k), u) <==> StoredUnder(rows, k, u)
  {
    if rows != [] {
      var before, r := rows[..|rows| - 1], rows[|rows| - 1];
      LoadBrings(before, k, u);
      assert rows == before + [r];
      LoadOneMore(before, r, k);
      BringsOneMore(Load(before, k), r.entry, u);
      StoredUnderOneMore(before, r, k, u);
      assert Load(rows, k) == if r.key == k then Load(before, k) + [r.entry] else Load(before, k);
    }
  }

  lemma StoredUnderOneMore(rows: seq<Row>, r: Row, k: Key, u: string)
    ensures StoredUnder(rows + [r], k, u) <==> StoredUnder(rows, k, u) || (r.key == k && r.entry.uuid == Some(u))
  {
    assert (rows + [r])[|rows|] == r;
    assert forall i :: 0 <= i < |rows| ==> (rows + [r])[i] == rows[i];
  }

  lemma AcceptedIsLoadedIff(rows: seq<Row>, r: Row)
    requires r.entry.uuid.Some?
    ensures Brings(Load(InsertOne(rows, r), r.key), r.entry.uuid.value) <==>
      !SeenIn(rows, r) || StoredUnder(rows, r.key, r.entry.uuid.value)
  {
    StoresIsSeen(rows, r);
    var rows' := InsertOne(rows, r);
    LoadBrings(rows', r.key, r.entry.uuid.value);
    if rows' == rows + [r] { assert rows'[|rows|] == r; }
  }

  // At its smallest: one entry written under two projects of one transcript is accepted both times, and
  // loaded under the first only.
  lemma SecondProjectHidesEntry(s: nat, attempt: nat, k: Key, k': Key, e: Entry)
    requires SameTranscript(k, k') && k.project != k'.project && e.uuid.Some?
    ensures var db := Write(Write(Fence(Empty, s, attempt), s, attempt, k, [e]), s, attempt, k', [e]);
      && Valid(db) && db.accepted == [Row(k, e, s, attempt), Row(k', e, s, attempt)]
      && Load(db.rows, k) == [e] && Load(db.rows, k') == []
  {
    var db0 := Fence(Empty, s, attempt);
    var db1 := Write(db0, s, attempt, k, [e]);
    SecondIsHidden(s, attempt, k, k', e);
    FenceKeepsValid(Empty, s, attempt);
    WriteKeepsValid(db0, s, attempt, k, [e]);
    WriteKeepsValid(db1, s, attempt, k', [e]);
  }

  lemma FirstWrite(s: nat, attempt: nat, k: Key, e: Entry)
    ensures var r := Row(k, e, s, attempt);
      Write(Fence(Empty, s, attempt), s, attempt, k, [e]) == Db([r], map[s := [attempt]], [r])
  {
    WritesOne(Fence(Empty, s, attempt), s, attempt, k, e);
    assert Tokens(map[], s) + [attempt] == [attempt];
    assert [] + [Row(k, e, s, attempt)] == [Row(k, e, s, attempt)];
  }

  lemma SecondWrite(r: Row, k': Key)
    requires SameTranscript(r.key, k') && r.key.project != k'.project && r.entry.uuid.Some?
    ensures var r' := Row(k', r.entry, r.session, r.attempt);
      Write(Db([r], map[r.session := [r.attempt]], [r]), r.session, r.attempt, k', [r.entry])
      == Db([r], map[r.session := [r.attempt]], [r, r'])
  {
    var r' := Row(k', r.entry, r.session, r.attempt);
    DroppedBehind(r, r');
    WritesOne(Db([r], map[r.session := [r.attempt]], [r]), r.session, r.attempt, k', r.entry);
  }

  lemma SecondIsHidden(s: nat, attempt: nat, k: Key, k': Key, e: Entry)
    requires SameTranscript(k, k') && k.project != k'.project && e.uuid.Some?
    ensures var db := Write(Write(Fence(Empty, s, attempt), s, attempt, k, [e]), s, attempt, k', [e]);
      && db.accepted == [Row(k, e, s, attempt), Row(k', e, s, attempt)]
      && Load(db.rows, k) == [e] && Load(db.rows, k') == []
  {
    FirstWrite(s, attempt, k, e);
    SecondWrite(Row(k, e, s, attempt), k');
    DroppedBehind(Row(k, e, s, attempt), Row(k', e, s, attempt));
  }

  lemma DroppedBehind(r: Row, r': Row)
    requires SameTranscript(r.key, r'.key) && r.key.project != r'.key.project
    requires r.entry.uuid.Some? && r'.entry.uuid == r.entry.uuid
    ensures InsertOne([], r) == [r] && InsertOne([r], r') == [r]
    ensures Load([r], r.key) == [r.entry] && Load([r], r'.key) == []
  {
    assert [r][0] == r && Stores([r], r'.key, r.entry.uuid.value);
    LoadOneMore([], r, r.key);
    LoadOneMore([], r, r'.key);
    assert [] + [r] == [r];
  }

  lemma WritesOne(db: Db, s: nat, attempt: nat, k: Key, e: Entry)
    requires Current(db.fences, s) == Some(attempt)
    ensures var r := Row(k, e, s, attempt);
      Write(db, s, attempt, k, [e]) == Db(InsertOne(db.rows, r), db.fences, db.accepted + [r])
  {
    var r := Row(k, e, s, attempt);
    assert RowsOf(s, attempt, k, [e]) == [r];
    assert InsertAll(db.rows, []) == db.rows;
    assert [r][..0] == [] && InsertAll(db.rows, [r]) == InsertOne(InsertAll(db.rows, [r][..0]), r);
  }

  // ------------------------------------------------------------------ the resume tip

  lemma {:induction false} TipIsLast(rows: seq<Row>, s: nat) returns (i: nat)
    requires Tip(rows, s).Some?
    ensures IsMainRow(rows, i, s) && Tip(rows, s) == Some(rows[i].key.sdkSession)
    ensures forall j :: i < j ==> !IsMainRow(rows, j, s)
  {
    i := |rows| - 1;
    if !IsMainRow(rows, i, s) {
      var before := rows[..i];
      i := TipIsLast(before, s);
      forall j | i < j ensures !IsMainRow(rows, j, s) { assert !IsMainRow(before, j, s); }
    }
  }

  predicate IsMainRow(rows: seq<Row>, i: int, s: nat) {
    0 <= i < |rows| && rows[i].session == s && rows[i].key.subpath == ""
  }

  ghost predicate NewestMain(db: Db, i: int, s: nat)
    requires Valid(db)
  {
    IsMainRow(db.rows, i, s) &&
    forall j :: IsMainRow(db.rows, j, s) ==> RankOf(db.fences, db.rows[j]) <= RankOf(db.fences, db.rows[i])
  }

  // The tip names the transcript of the newest attempt that wrote a main row at all.
  lemma TipIsNewestWriter(db: Db, s: nat)
    requires Valid(db) && Tip(db.rows, s).Some?
    ensures exists i ::
      IsMainRow(db.rows, i, s) && Tip(db.rows, s) == Some(db.rows[i].key.sdkSession) && NewestMain(db, i, s)
  {
    var i := TipIsLast(db.rows, s);
    assert NewestMain(db, i, s);
  }

  // ----------------------------------------------------- the tip is read before the fence

  lemma {:induction false} TipAppends(rows: seq<Row>, more: seq<Row>, s: nat)
    ensures Tip(rows + more, s) == if Tip(more, s).Some? then Tip(more, s) else Tip(rows, s)
    decreases |more|
  {
    if more == [] {
      assert rows + more == rows;
    } else {
      assert (rows + more)[..|rows + more| - 1] == rows + more[..|more| - 1];
      TipAppends(rows, more[..|more| - 1], s);
    }
  }

  // The tip read at db still is the tip at the fence exactly when no main row of the session landed in
  // between, or the last one to land belongs to the same transcript.
  lemma TipIsCurrentIff(db: Db, db': Db, s: nat)
    requires Onward(db, db')
    ensures var since := db'.rows[|db.rows|..];
      Tip(db'.rows, s) == Tip(db.rows, s) <==> Tip(since, s).None? || Tip(since, s) == Tip(db.rows, s)
  {
    TipAppends(db.rows, db'.rows[|db.rows|..], s);
    assert db'.rows == db.rows + db'.rows[|db.rows|..];
  }

  // From the empty table on: the attempt before writes one more main row, of another transcript, between
  // the next attempt's read of the tip and its fence.
  lemma TipGoesStale(s: nat, attempt: nat, next: nat, k: Key, k': Key, e: Entry)
    requires attempt != next && k.subpath == k'.subpath == "" && k.sdkSession != k'.sdkSession
    ensures var read := Write(Fence(Empty, s, attempt), s, attempt, k, [e]);
      var fenced := Fence(Write(read, s, attempt, k', [e]), s, next);
      && Valid(read) && Valid(fenced) && Onward(read, fenced)
      && Tip(read.rows, s) == Some(k.sdkSession) && Tip(fenced.rows, s) == Some(k'.sdkSession)
  {
    var db0 := Fence(Empty, s, attempt);
    var read := Write(db0, s, attempt, k, [e]);
    var more := Write(read, s, attempt, k', [e]);
    FenceKeepsValid(Empty, s, attempt);
    WriteKeepsValid(db0, s, attempt, k, [e]);
    WriteKeepsValid(read, s, attempt, k', [e]);
    FenceKeepsValid(more, s, next);
    OnwardTwice(read, more, Fence(more, s, next));
    WritesOne(db0, s, attempt, k, e);
    WritesOne(read, s, attempt, k', e);
    TwoTranscripts(Row(k, e, s, attempt), Row(k', e, s, attempt));
  }

  lemma TwoTranscripts(r: Row, r': Row)
    requires r.key.sdkSession != r'.key.sdkSession && r.key.subpath == r'.key.subpath == "" && r.session == r'.session
    ensures InsertOne([], r) == [r] && InsertOne([r], r') == [r, r']
    ensures Tip([r], r.session) == Some(r.key.sdkSession) && Tip([r, r'], r.session) == Some(r'.key.sdkSession)
  {
  }

  // ------------------------------------------------------- what one batch leaves behind

  // The columns of the unique index; rows without a uuid are not in it.
  predicate SameIndexed(a: Row, b: Row) {
    && a.entry.uuid.Some? && a.entry.uuid == b.entry.uuid
    && a.key.sdkSession == b.key.sdkSession && a.key.subpath == b.key.subpath
  }

  // Row r is in the table already, or earlier in its own batch.
  ghost predicate SeenIn(rows: seq<Row>, r: Row) { exists j :: 0 <= j < |rows| && SameIndexed(rows[j], r) }

  ghost predicate LandsAt(rows: seq<Row>, batch: seq<Row>, i: int) {
    0 <= i < |batch| && !SeenIn(rows, batch[i]) && !SeenIn(batch[..i], batch[i])
  }

  // The table grew by the rows of the batch nobody had seen, in order, and by nothing else.
  ghost predicate Grows(rows: seq<Row>, batch: seq<Row>, rows': seq<Row>, at: seq<nat>) {
    && |rows'| == |rows| + |at| && rows <= rows'
    && (forall i, j :: 0 <= i < j < |at| ==> at[i] < at[j])
    && (forall i :: 0 <= i < |at| ==> LandsAt(rows, batch, at[i]) && rows'[|rows| + i] == batch[at[i]])
    && (forall j :: LandsAt(rows, batch, j) ==> j in at)
  }

  ghost predicate Landing(rows: seq<Row>, batch: seq<Row>, rows': seq<Row>) {
    exists at :: Grows(rows, batch, rows', at)
  }

  lemma StoresIsSeen(rows: seq<Row>, r: Row)
    requires r.entry.uuid.Some?
    ensures Stores(rows, r.key, r.entry.uuid.value) <==> SeenIn(rows, r)
  {
    if SeenIn(rows, r) {
      var j :| 0 <= j < |rows| && SameIndexed(rows[j], r);
      assert SameTranscript(rows[j].key, r.key);
    }
    if Stores(rows, r.key, r.entry.uuid.value) {
      var i :| 0 <= i < |rows| && SameTranscript(rows[i].key, r.key) && rows[i].entry.uuid == Some(r.entry.uuid.value);
      assert SameIndexed(rows[i], r);
    }
  }

  // The table holds what it held and what the batch brought, as far as the index goes.
  lemma {:induction false} BatchIsSeen(rows: seq<Row>, batch: seq<Row>, r: Row)
    requires r.entry.uuid.Some?
    ensures Stores(InsertAll(rows, batch), r.key, r.entry.uuid.value) <==> SeenIn(rows, r) || SeenIn(batch, r)
  {
    if batch == [] {
      StoresIsSeen(rows, r);
    } else {
      var n := |batch| - 1;
      BatchIsSeen(rows, batch[..n], r);
      StoresOneMore(InsertAll(rows, batch[..n]), batch[n], r.key, r.entry.uuid.value);
      SeenOneMore(batch[..n], batch[n], r);
      assert batch == batch[..n] + [batch[n]];
    }
  }

  lemma SeenOneMore(rows: seq<Row>, x: Row, r: Row)
    ensures SeenIn(rows + [x], r) <==> SeenIn(rows, r) || SameIndexed(x, r)
  {
    assert (rows + [x])[|rows|] == x;
    assert forall i :: 0 <= i < |rows| ==> (rows + [x])[i] == rows[i];
  }

  lemma LandsInFront(rows: seq<Row>, front: seq<Row>, r: Row, i: int)
    ensures i < |front| ==> (LandsAt(rows, front + [r], i) <==> LandsAt(rows, front, i))
    ensures LandsAt(rows, front + [r], |front|) <==> !SeenIn(rows, r) && !SeenIn(front, r)
  {
    assert (front + [r])[..|front|] == front;
    if 0 <= i < |front| { assert (front + [r])[..i] == front[..i]; }
  }

  lemma GrowsOneMore(rows: seq<Row>, front: seq<Row>, r: Row, rows': seq<Row>, at: seq<nat>)
    requires Grows(rows, front, rows', at)
    ensures if SeenIn(rows, r) || SeenIn(front, r) then Grows(rows, front + [r], rows', at)
            else Grows(rows, front + [r], rows' + [r], at + [|front|])
  {
    forall i ensures i < |front| ==> (LandsAt(rows, front + [r], i) <==> LandsAt(rows, front, i)) {
      LandsInFront(rows, front, r, i);
    }
    LandsInFront(rows, front, r, 0);
    forall i | 0 <= i < |at| ensures at[i] < |front| && rows'[|rows| + i] == (front + [r])[at[i]] {
      assert LandsAt(rows, front, at[i]);
    }
  }

  // What on conflict do nothing comes to for a whole batch.
  lemma {:induction false} InsertLands(rows: seq<Row>, batch: seq<Row>)
    ensures Landing(rows, batch, InsertAll(rows, batch))
  {
    if batch == [] {
      assert Grows(rows, batch, rows, []);
    } else {
      var n := |batch| - 1;
      var front, r := batch[..n], batch[n];
      InsertLands(rows, front);
      var rows' := InsertAll(rows, front);
      var at :| Grows(rows, front, rows', at);
      if r.entry.uuid.Some? { BatchIsSeen(rows, front, r); }
      GrowsOneMore(rows, front, r, rows', at);
      assert batch == front + [r];
    }
  }

  // load returns the rows stored under this very key, in order, whole.
  ghost predicate Selects(rows: seq<Row>, k: Key, out: seq<Entry>, at: seq<nat>) {
    && |at| == |out|
    && (forall i, j :: 0 <= i < j < |at| ==> at[i] < at[j])
    && (forall i :: 0 <= i < |at| ==> at[i] < |rows| && IsUnder(rows[at[i]], k) && rows[at[i]].entry == out[i])
    && (forall j: nat :: j < |rows| && IsUnder(rows[j], k) ==> j in at)
  }

  predicate IsUnder(r: Row, k: Key) {
    r.key.project == k.project && r.key.sdkSession == k.sdkSession && r.key.subpath == k.subpath
  }

  ghost predicate Selection(rows: seq<Row>, k: Key, out: seq<Entry>) { exists at :: Selects(rows, k, out, at) }

  lemma SelectsOneMore(rows: seq<Row>, r: Row, k: Key, out: seq<Entry>, at: seq<nat>)
    requires Selects(rows, k, out, at)
    ensures if IsUnder(r, k) then Selects(rows + [r], k, out + [r.entry], at + [|rows|])
            else Selects(rows + [r], k, out, at)
  {
    forall i | 0 <= i < |at| ensures (rows + [r])[at[i]] == rows[at[i]] && at[i] < |rows| { }
    forall j: nat | j < |rows + [r]| && IsUnder((rows + [r])[j], k) && j != |rows| ensures j in at {
      assert IsUnder(rows[j], k);
    }
  }

  lemma SelectionOneMore(rows: seq<Row>, r: Row, k: Key, out: seq<Entry>)
    requires Selection(rows, k, out)
    ensures Selection(rows + [r], k, if IsUnder(r, k) then out + [r.entry] else out)
  {
    var at :| Selects(rows, k, out, at);
    SelectsOneMore(rows, r, k, out, at);
  }

  lemma LoadSelectsOneMore(rows: seq<Row>, r: Row, k: Key)
    requires Selection(rows, k, Load(rows, k))
    ensures Selection(rows + [r], k, Load(rows + [r], k))
  {
    SelectionOneMore(rows, r, k, Load(rows, k));
    LoadOneMore(rows, r, k);
    assert r.key == k <==> IsUnder(r, k);
    assert Load(rows, k) + [] == Load(rows, k);
  }

  lemma {:induction false} LoadSelects(rows: seq<Row>, k: Key)
    ensures Selection(rows, k, Load(rows, k))
  {
    if rows == [] {
      assert Selects(rows, k, [], []);
    } else {
      var before, r := rows[..|rows| - 1], rows[|rows| - 1];
      LoadSelects(before, k);
      LoadSelectsOneMore(before, r, k);
      assert rows == before + [r];
    }
  }

  // ----------------------------------------------------------------------- the store

  datatype Written = Landed | HarnessFenced

  // What other writers do to the table.
  datatype Other = SetFence(s: nat, token: nat) | OtherWrite(s: nat, attempt: nat, key: Key, entries: seq<Entry>)

  // The fence column holds this token: the last one ever put there.
  ghost predicate HoldsFence(db: Db, s: nat, attempt: nat) {
    s in db.fences && db.fences[s] != [] && db.fences[s][|db.fences[s]| - 1] == attempt
  }

  class TranscriptDb {
    var now: Db

    constructor ()
      ensures Valid(now) && now == Empty
    {
      now := Empty;
    }

    method SetFence(s: nat, token: nat)
      requires Valid(now) && token !in Tokens(now.fences, s)
      modifies this
      ensures Valid(now) && now == Fence(old(now), s, token) && Onward(old(now), now)
    {
      FenceKeepsValid(now, s, token);
      now := Fence(now, s, token);
    }

    // The guarded insert; returns the row count.
    method Insert(s: nat, attempt: nat, key: Key, entries: seq<Entry>) returns (inserted: nat)
      requires Valid(now)
      modifies this
      ensures Valid(now) && now == Write(old(now), s, attempt, key, entries) && Onward(old(now), now)
      ensures inserted == |now.rows| - |old(now).rows|
      ensures if HoldsFence(old(now), s, attempt)
              then Landing(old(now).rows, RowsOf(s, attempt, key, entries), now.rows) && now.fences == old(now).fences
              else now == old(now)
    {
      InsertLands(now.rows, RowsOf(s, attempt, key, entries));
      WriteKeepsValid(now, s, attempt, key, entries);
      var before := |now.rows|;
      now := Write(now, s, attempt, key, entries);
      inserted := |now.rows| - before;
    }

    // Between two statements of one worker, others fence and write as they please.
    method Interfere()
      requires Valid(now)
      modifies this
      ensures Valid(now) && Onward(old(now), now)
    {
      var schedule: seq<Other> := *;
      for i := 0 to |schedule|
        invariant Valid(now) && Onward(old(now), now)
      {
        ghost var before := now;
        match schedule[i]
        case SetFence(s, token) => if token !in Tokens(now.fences, s) { SetFence(s, token); }
        case OtherWrite(s, attempt, key, entries) => { var _ := Insert(s, attempt, key, entries); }
        OnwardTwice(old(now), before, now);
      }
    }
  }

  // Every entry of the batch that has a uuid is stored in key's transcript.
  predicate AllStored(rows: seq<Row>, key: Key, entries: seq<Entry>) {
    forall i :: 0 <= i < |entries| && entries[i].uuid.Some? ==> Stores(rows, key, entries[i].uuid.value)
  }

  lemma WriteStores(db: Db, s: nat, attempt: nat, key: Key, entries: seq<Entry>)
    requires Current(db.fences, s) == Some(attempt)
    ensures AllStored(Write(db, s, attempt, key, entries).rows, key, entries)
  {
    var batch := RowsOf(s, attempt, key, entries);
    forall i | 0 <= i < |entries| && entries[i].uuid.Some?
      ensures Stores(InsertAll(db.rows, batch), key, entries[i].uuid.value)
    {
      BatchIsStored(db.rows, batch, i);
    }
  }

  lemma StillStored(rows: seq<Row>, rows': seq<Row>, key: Key, entries: seq<Entry>)
    requires AllStored(rows, key, entries) && rows <= rows'
    ensures AllStored(rows', key, entries)
  {
    forall i | 0 <= i < |entries| && entries[i].uuid.Some? ensures Stores(rows', key, entries[i].uuid.value) {
      StoresMore(rows, rows', key, entries[i].uuid.value);
    }
  }

  class DrizzleSessionStore {
    const db: TranscriptDb
    const s: nat
    const attempt: nat
    // This adapter has seen itself fenced out.
    var fenced: bool

    constructor (db: TranscriptDb, s: nat, attempt: nat)
      ensures this.db == db && this.s == s && this.attempt == attempt && !fenced
    {
      this.db, this.s, this.attempt, fenced := db, s, attempt, false;
    }

    // Returns normally only if everything with a uuid is stored; the fence error only if another
    // attempt has taken over.  A writer already superseded lands nothing and is told so.
    method Append(key: Key, entries: seq<Entry>) returns (r: Written)
      requires Valid(db.now) && attempt in Tokens(db.now.fences, s)
      modifies `fenced, db
      ensures Valid(db.now) && Onward(old(db.now), db.now)
      ensures r.Landed? ==> AllStored(db.now.rows, key, entries) && fenced == old(fenced)
      ensures r.HarnessFenced? ==> fenced && Superseded(db.now, s, attempt)
      ensures old(Superseded(db.now, s, attempt)) && entries != [] ==> r.HarnessFenced?
      ensures r.Landed? ==> exists landed ::
        Landing(old(db.now).rows, RowsOf(s, attempt, key, entries), landed) && landed <= db.now.rows
    {
      if |entries| == 0 {
        InsertLands(db.now.rows, RowsOf(s, attempt, key, entries));
        return Landed;
      }
      ghost var held := Current(db.now.fences, s) == Some(attempt);
      if held { WriteStores(db.now, s, attempt, key, entries); }
      var inserted := db.Insert(s, attempt, key, entries);
      if inserted == |entries| {
        return Landed;
      }
      ghost var written := db.now;
      db.Interfere();
      OnwardTwice(old(db.now), written, db.now);
      TokenStays(written, db.now, s, attempt);
      if Current(db.now.fences, s) != Some(attempt) {
        fenced := true;
        return HarnessFenced;
      }
      // The token never comes back, so it was held at the insert as well.
      if !held { SupersededStays(written, db.now, s, attempt); }
      StillStored(written.rows, db.now.rows, key, entries);
      r := Landed;
    }
  }

  lemma TokenStays(db: Db, db': Db, s: nat, a: nat)
    requires Onward(db, db') && a in Tokens(db.fences, s)
    ensures a in Tokens(db'.fences, s)
  {
    var i :| 0 <= i < |db.fences[s]| && db.fences[s][i] == a;
    assert db'.fences[s][i] == a;
  }
}

// Agents and their version history (packages/configs/src/service.ts) and the pin a session takes
// (resolveAgent in packages/sessions/src/service.ts).  A label edit changes the identity row; a
// behaviour edit mints the next version; minted versions are never written again.
module Agents {
  import opened Prelude
  import opened Canonical

  // What a version pins.
  datatype Behaviour = Behaviour(systemPrompt: string, model: Json, toolPolicy: Json, runtime: Option<Json>)

  datatype Ident = Ident(name: string, description: Option<string>, metadata: Json, latestVersion: nat, archived: bool)

  // None: the field was omitted.  A nullable field may also be set to null.
  datatype Patch = Patch(
    name: Option<string>, description: Option<Option<string>>, metadata: Option<Json>,
    systemPrompt: Option<string>, model: Option<Json>, toolPolicy: Option<Json>, runtime: Option<Option<Json>>)

  datatype Input = Input(
    name: string, description: Option<string>, metadata: Option<Json>,
    systemPrompt: string, model: Json, toolPolicy: Option<Json>, runtime: Option<Json>)

  datatype Pin = Pin(agent: nat, version: nat)

  // `patches` is history: the behaviour patches each agent has received, oldest first.
  datatype Db = Db(idents: map<nat, Ident>, versions: map<Pin, Behaviour>, patches: map<nat, seq<Patch>>)

  const Empty := Db(map[], map[], map[])

  predicate TouchesBehaviour(p: Patch) {
    p.systemPrompt.Some? || p.model.Some? || p.toolPolicy.Some? || p.runtime.Some?
  }

  function Or<T>(o: Option<T>, otherwise: T): T { if o.Some? then o.value else otherwise }

  // Omitted fields carry forward; an explicit null runtime resets.
  function Patched(b: Behaviour, p: Patch): Behaviour {
    Behaviour(
      Or(p.systemPrompt, b.systemPrompt), Or(p.model, b.model),
      Or(p.toolPolicy, b.toolPolicy), Or(p.runtime, b.runtime))
  }

  function Relabelled(i: Ident, p: Patch, latest: nat): Ident {
    Ident(Or(p.name, i.name), Or(p.description, i.description), Or(p.metadata, i.metadata), latest, i.archived)
  }

  const EmptyObject := Obj([])

  function First(input: Input): Behaviour {
    Behaviour(input.systemPrompt, input.model, Or(input.toolPolicy, EmptyObject), input.runtime)
  }

  function Created(db: Db, id: nat, input: Input): Db {
    Db(db.idents[id := Ident(input.name, input.description, Or(input.metadata, EmptyObject), 1, false)],
       db.versions[Pin(id, 1) := First(input)],
       db.patches[id := []])
  }

  // The update of an existing, unarchived agent.
  function Updated(db: Db, id: nat, p: Patch): Db
    requires id in db.idents && Pin(id, db.idents[id].latestVersion) in db.versions && id in db.patches
  {
    var ident := db.idents[id];
    if TouchesBehaviour(p) then
      var next := ident.latestVersion + 1;
      Db(db.idents[id := Relabelled(ident, p, next)],
         db.versions[Pin(id, next) := Patched(db.versions[Pin(id, ident.latestVersion)], p)],
         db.patches[id := db.patches[id] + [p]])
    else db.(idents := db.idents[id := Relabelled(ident, p, ident.latestVersion)])
  }

  function ArchivedIn(db: Db, id: nat): Db
    requires id in db.idents
  {
    db.(idents := db.idents[id := db.idents[id].(archived := true)])
  }

  // -------------------------------------------------------------------- the history

  function Fold(b: Behaviour, ps: seq<Patch>): Behaviour {
    if ps == [] then b else Patched(Fold(b, ps[..|ps| - 1]), ps[|ps| - 1])
  }

  // Version n is the first one with the first n - 1 behaviour patches applied.
  ghost predicate IsFold(db: Db, pin: Pin) {
    && pin in db.versions && Pin(pin.agent, 1) in db.versions && pin.agent in db.patches
    && 1 <= pin.version <= |db.patches[pin.agent]| + 1
    && db.versions[pin] == Fold(db.versions[Pin(pin.agent, 1)], db.patches[pin.agent][..pin.version - 1])
  }

  // An agent's versions are exactly 1..latest.
  ghost predicate Counted(db: Db) {
    && (forall id :: id in db.idents <==> id in db.patches)
    && (forall id :: id in db.idents ==> db.idents[id].latestVersion == |db.patches[id]| + 1)
    && (forall pin: Pin ::
          pin in db.versions <==> pin.agent in db.idents && 1 <= pin.version <= db.idents[pin.agent].latestVersion)
  }

  ghost predicate Valid(db: Db) {
    Counted(db) && forall pin: Pin :: pin in db.versions ==> IsFold(db, pin)
  }

  // No minted version ever changes or goes away, and archiving is for good.
  ghost predicate Onward(db: Db, db': Db) {
    && (forall pin :: pin in db.versions ==> pin in db'.versions && db'.versions[pin] == db.versions[pin])
    && (forall id :: id in db.idents ==>
          && id in db'.idents && db.idents[id].latestVersion <= db'.idents[id].latestVersion
          && (db.idents[id].archived ==> db'.idents[id].archived))
  }

  // A fold reads only its own agent's first version and patches.
  lemma FoldPersists(db: Db, db': Db, pin: Pin)
    requires IsFold(db, pin) && pin in db'.versions && db'.versions[pin] == db.versions[pin]
    requires Pin(pin.agent, 1) in db'.versions && db'.versions[Pin(pin.agent, 1)] == db.versions[Pin(pin.agent, 1)]
    requires pin.agent in db'.patches && db.patches[pin.agent] <= db'.patches[pin.agent]
    ensures IsFold(db', pin)
  {
    assert db'.patches[pin.agent][..pin.version - 1] == db.patches[pin.agent][..pin.version - 1];
  }

  lemma CreateKeepsValid(db: Db, id: nat, input: Input)
    requires Valid(db) && id !in db.idents
    ensures Valid(Created(db, id, input)) && Onward(db, Created(db, id, input))
  {
    var db' := Created(db, id, input);
    forall pin: Pin | pin in db'.versions ensures IsFold(db', pin) {
      if pin.agent != id { FoldPersists(db, db', pin); }
    }
  }

  lemma MintedIsFold(db: Db, id: nat, p: Patch)
    requires Valid(db) && id in db.idents && TouchesBehaviour(p)
    ensures Pin(id, db.idents[id].latestVersion) in db.versions
    ensures IsFold(Updated(db, id, p), Pin(id, db.idents[id].latestVersion + 1))
  {
    var latest, ps := db.idents[id].latestVersion, db.patches[id];
    assert Pin(id, latest) in db.versions;
    assert IsFold(db, Pin(id, latest));
    assert (ps + [p])[..latest] == ps + [p] && (ps + [p])[..|ps|] == ps && ps[..latest - 1] == ps;
  }

  lemma UpdateCounts(db: Db, id: nat, p: Patch)
    requires Counted(db) && id in db.idents
    ensures Pin(id, db.idents[id].latestVersion) in db.versions
    ensures Counted(Updated(db, id, p))
  {
    assert Pin(id, db.idents[id].latestVersion) in db.versions;
  }

  lemma UpdateIsOnward(db: Db, id: nat, p: Patch)
    requires Counted(db) && id in db.idents
    ensures Pin(id, db.idents[id].latestVersion) in db.versions
    ensures Onward(db, Updated(db, id, p))
  {
    assert Pin(id, db.idents[id].latestVersion) in db.versions;
  }

  lemma UpdateKeepsValid(db: Db, id: nat, p: Patch)
    requires Valid(db) && id in db.idents
    ensures Pin(id, db.idents[id].latestVersion) in db.versions
    ensures Valid(Updated(db, id, p)) && Onward(db, Updated(db, id, p))
  {
    UpdateCounts(db, id, p);
    UpdateIsOnward(db, id, p);
    var db' := Updated(db, id, p);
    forall pin: Pin | pin in db'.versions ensures IsFold(db', pin) {
      if pin in db.versions { FoldPersists(db, db', pin); } else { MintedIsFold(db, id, p); }
    }
  }

  lemma ArchiveKeepsValid(db: Db, id: nat)
    requires Valid(db) && id in db.idents
    ensures Valid(ArchivedIn(db, id)) && Onward(db, ArchivedIn(db, id))
  {
    forall pin: Pin | pin in db.versions ensures IsFold(ArchivedIn(db, id), pin) {
      FoldPersists(db, ArchivedIn(db, id), pin);
    }
  }

  // ------------------------------------------------------------- what a fold comes to

  // The last patch that sets a field decides it.
  ghost predicate Decides<T>(sets: seq<Option<T>>, first: T, result: T) {
    || (result == first && forall k :: 0 <= k < |sets| ==> sets[k].None?)
    || (exists k :: LastSet(sets, k) && sets[k] == Some(result))
  }

  ghost predicate LastSet<T>(sets: seq<Option<T>>, k: int) {
    0 <= k < |sets| && sets[k].Some? && forall j :: k < j < |sets| ==> sets[j].None?
  }

  lemma DecidesMore<T>(sets: seq<Option<T>>, first: T, result: T, next: Option<T>)
    requires Decides(sets, first, result)
    ensures Decides(sets + [next], first, Or(next, result))
  {
    var sets' := sets + [next];
    if next.Some? {
      assert LastSet(sets', |sets|) && sets'[|sets|] == Some(next.value);
    } else if exists k :: LastSet(sets, k) && sets[k] == Some(result) {
      var k :| LastSet(sets, k) && sets[k] == Some(result);
      assert LastSet(sets', k) && sets'[k] == Some(result);
    }
  }

  function Prompts(ps: seq<Patch>): (s: seq<Option<string>>)
    ensures |s| == |ps| && forall i :: 0 <= i < |ps| ==> s[i] == ps[i].systemPrompt
  { seq(|ps|, i requires 0 <= i < |ps| => ps[i].systemPrompt) }

  function Models(ps: seq<Patch>): (s: seq<Option<Json>>)
    ensures |s| == |ps| && forall i :: 0 <= i < |ps| ==> s[i] == ps[i].model
  { seq(|ps|, i requires 0 <= i < |ps| => ps[i].model) }

  function Policies(ps: seq<Patch>): (s: seq<Option<Json>>)
    ensures |s| == |ps| && forall i :: 0 <= i < |ps| ==> s[i] == ps[i].toolPolicy
  { seq(|ps|, i requires 0 <= i < |ps| => ps[i].toolPolicy) }

  function Runtimes(ps: seq<Patch>): (s: seq<Option<Option<Json>>>)
    ensures |s| == |ps| && forall i :: 0 <= i < |ps| ==> s[i] == ps[i].runtime
  { seq(|ps|, i requires 0 <= i < |ps| => ps[i].runtime) }

  // Each field of the fold is the last value set for it, an explicit null included, or the first
  // version's.
  lemma {:induction false} FoldTakesTheLast(b: Behaviour, ps: seq<Patch>)
    ensures Decides(Prompts(ps), b.systemPrompt, Fold(b, ps).systemPrompt)
    ensures Decides(Models(ps), b.model, Fold(b, ps).model)
    ensures Decides(Policies(ps), b.toolPolicy, Fold(b, ps).toolPolicy)
    ensures Decides(Runtimes(ps), b.runtime, Fold(b, ps).runtime)
  {
    if ps != [] {
      var before, p := ps[..|ps| - 1], ps[|ps| - 1];
      var f := Fold(b, before);
      FoldTakesTheLast(b, before);
      DecidesMore(Prompts(before), b.systemPrompt, f.systemPrompt, p.systemPrompt);
      DecidesMore(Models(before), b.model, f.model, p.model);
      DecidesMore(Policies(before), b.toolPolicy, f.toolPolicy, p.toolPolicy);
      DecidesMore(Runtimes(before), b.runtime, f.runtime, p.runtime);
      assert Prompts(ps) == Prompts(before) + [p.systemPrompt] && Models(ps) == Models(before) + [p.model];
      assert Policies(ps) == Policies(before) + [p.toolPolicy] && Runtimes(ps) == Runtimes(before) + [p.runtime];
    }
  }

  // ------------------------------------------------------------------ any history

  datatype Op = Create(id: nat, input: Input) | Update(id: nat, p: Patch) | Archive(id: nat)

  // Refused operations change nothing.
  function Do(db: Db, op: Op): Db
    requires Valid(db)
  {
    match op
    case Create(id, input) => if id in db.idents then db else Created(db, id, input)
    case Update(id, p) => if id !in db.idents || db.idents[id].archived then db else Updated(db, id, p)
    case Archive(id) => if id !in db.idents then db else ArchivedIn(db, id)
  }

  lemma DoKeepsValid(db: Db, op: Op)
    requires Valid(db)
    ensures Valid(Do(db, op)) && Onward(db, Do(db, op))
  {
    match op
    case Create(id, input) => if id !in db.idents { CreateKeepsValid(db, id, input); }
    case Update(id, p) => if id in db.idents { UpdateKeepsValid(db, id, p); }
    case Archive(id) => if id in db.idents { ArchiveKeepsValid(db, id); }
  }

  ghost function After(db: Db, ops: seq<Op>): Db
    requires Valid(db)
    decreases |ops|
  {
    if ops == [] then db else (DoKeepsValid(db, ops[0]); After(Do(db, ops[0]), ops[1..]))
  }

  // After any sequence of creates, updates and archives: versions are exactly 1..latest, the latest
  // is the fold of every behaviour patch, and whatever was pinned before still reads the same.
  lemma {:induction false} HistoryIsImmutable(db: Db, ops: seq<Op>)
    requires Valid(db)
    ensures Valid(After(db, ops)) && Onward(db, After(db, ops))
    decreases |ops|
  {
    if ops != [] {
      DoKeepsValid(db, ops[0]);
      HistoryIsImmutable(Do(db, ops[0]), ops[1..]);
    }
  }

  lemma LatestIsTheFold(db: Db, id: nat)
    requires Valid(db) && id in db.idents
    ensures Pin(id, 1) in db.versions && Pin(id, db.idents[id].latestVersion) in db.versions
    ensures db.versions[Pin(id, db.idents[id].latestVersion)] == Fold(db.versions[Pin(id, 1)], db.patches[id])
  {
    var latest := Pin(id, db.idents[id].latestVersion);
    assert latest in db.versions && IsFold(db, latest);
    assert db.patches[id][..latest.version - 1] == db.patches[id];
  }

  // ------------------------------------------------------------------- the services

  datatype CreateResult = CreatedNow | Replayed | DifferentConfiguration

  datatype UpdateResult = UpdatedNow | NotFound | ReadOnly

  datatype Ref = Bare(id: nat) | Exact(pin: Pin)

  function AgentOf(ref: Ref): nat { if ref.Bare? then ref.id else ref.pin.agent }

  datatype Resolved = Pinned(pin: Pin) | AgentNotFound | AgentArchived | VersionNotFound

  // The agent as it stands is what the input asks for, metadata and policies up to key order.
  ghost predicate Matches(i: Ident, b: Behaviour, input: Input) {
    && i.name == input.name && i.description == input.description && b.systemPrompt == input.systemPrompt
    && Same(i.metadata, Or(input.metadata, EmptyObject))
    && Same(b.model, input.model)
    && Same(b.toolPolicy, Or(input.toolPolicy, EmptyObject))
    && Same(Or(b.runtime, Null), Or(input.runtime, Null))
  }

  // The same, where keys the comparator ties also keep their relative order.
  ghost predicate MatchesInOrder(le: KeyOrder, i: Ident, b: Behaviour, input: Input) {
    && i.name == input.name && i.description == input.description && b.systemPrompt == input.systemPrompt
    && Agree(le, i.metadata, Or(input.metadata, EmptyObject))
    && Agree(le, b.model, input.model)
    && Agree(le, b.toolPolicy, Or(input.toolPolicy, EmptyObject))
    && Agree(le, Or(b.runtime, Null), Or(input.runtime, Null))
  }

  // No object of the input has two keys the comparator ties.
  predicate TieFreeInput(le: KeyOrder, input: Input) {
    && TieFree(le, Or(input.metadata, EmptyObject)) && TieFree(le, input.model)
    && TieFree(le, Or(input.toolPolicy, EmptyObject)) && TieFree(le, Or(input.runtime, Null))
  }

  lemma MatchesWithoutTies(le: KeyOrder, print_: Printer, i: Ident, b: Behaviour, input: Input)
    requires TotalPreorder(le) && Injective(print_)
    requires WellFormed(i.metadata) && WellFormedBehaviour(b) && WellFormedInput(input)
    ensures MatchesInOrder(le, i, b, input) ==> Matches(i, b, input)
    ensures TieFreeInput(le, input) ==> (MatchesInOrder(le, i, b, input) <==> Matches(i, b, input))
  {
    AgreesWithoutTies(le, print_, i.metadata, Or(input.metadata, EmptyObject));
    AgreesWithoutTies(le, print_, b.model, input.model);
    AgreesWithoutTies(le, print_, b.toolPolicy, Or(input.toolPolicy, EmptyObject));
    AgreesWithoutTies(le, print_, Or(b.runtime, Null), Or(input.runtime, Null));
  }

  lemma AgreesWithoutTies(le: KeyOrder, print_: Printer, x: Json, y: Json)
    requires TotalPreorder(le) && Injective(print_) && WellFormed(x) && WellFormed(y)
    ensures Agree(le, x, y) ==> Same(x, y)
    ensures TieFree(le, y) ==> (Agree(le, x, y) <==> Same(x, y))
  {
    JsonEqIff(le, print_, x, y);
    if Agree(le, x, y) { AgreeIsSame(le, x, y); }
    if TieFree(le, y) { JsonEqDecides(le, print_, x, y); }
  }

  // JavaScript objects have each key once; so do all values that get here.
  predicate WellFormedInput(input: Input) {
    && WellFormed(Or(input.metadata, EmptyObject)) && WellFormed(input.model)
    && WellFormed(Or(input.toolPolicy, EmptyObject)) && WellFormed(Or(input.runtime, Null))
  }

  predicate WellFormedPatch(p: Patch) {
    && WellFormed(Or(p.metadata, Null)) && WellFormed(Or(p.model, Null)) && WellFormed(Or(p.toolPolicy, Null))
    && WellFormed(Or(Or(p.runtime, None), Null))
  }

  predicate WellFormedOp(op: Op) {
    match op
    case Create(_, input) => WellFormedInput(input)
    case Update(_, p) => WellFormedPatch(p)
    case Archive(_) => true
  }

  predicate WellFormedBehaviour(b: Behaviour) {
    WellFormed(b.model) && WellFormed(b.toolPolicy) && WellFormed(Or(b.runtime, Null))
  }

  ghost predicate HoldsJson(db: Db) {
    && (forall id :: id in db.idents ==> WellFormed(db.idents[id].metadata))
    && (forall pin :: pin in db.versions ==> WellFormedBehaviour(db.versions[pin]))
  }

  ghost predicate Consistent(db: Db) { Valid(db) && HoldsJson(db) }

  lemma UpdateKeepsJson(db: Db, id: nat, p: Patch)
    requires id in db.idents && Pin(id, db.idents[id].latestVersion) in db.versions && id in db.patches
    requires HoldsJson(db) && WellFormedPatch(p)
    ensures HoldsJson(Updated(db, id, p))
  {
    assert WellFormedBehaviour(db.versions[Pin(id, db.idents[id].latestVersion)]);
    assert WellFormed(db.idents[id].metadata);
  }

  lemma CreateKeepsJson(db: Db, id: nat, input: Input)
    requires HoldsJson(db) && WellFormedInput(input)
    ensures HoldsJson(Created(db, id, input))
  {
  }

  lemma DoKeepsJson(db: Db, op: Op)
    requires Valid(db) && HoldsJson(db) && WellFormedOp(op)
    ensures HoldsJson(Do(db, op))
  {
    match op
    case Create(id, input) => CreateKeepsJson(db, id, input);
    case Update(id, p) =>
      if id in db.idents {
        UpdateCounts(db, id, p);
        UpdateKeepsJson(db, id, p);
      }
    case Archive(id) =>
  }

  lemma DoKeepsConsistent(db: Db, op: Op)
    requires Consistent(db) && WellFormedOp(op)
    ensures Consistent(Do(db, op)) && Onward(db, Do(db, op))
  {
    DoKeepsValid(db, op);
    DoKeepsJson(db, op);
  }

  // Nothing but agent id's own rows differs.
  ghost predicate SameForOthers(db: Db, db': Db, id: nat) {
    && db'.idents.Keys == db.idents.Keys + {id}
    && (forall x :: x in db.idents && x != id ==> db'.idents[x] == db.idents[x])
    && (forall pin: Pin :: pin in db'.versions && pin.agent != id ==> pin in db.versions)
    && (forall pin: Pin :: pin in db.versions ==> pin in db'.versions && db'.versions[pin] == db.versions[pin])
  }

  // Field by field: what the patch sets is set, what it omits stays.
  ghost predicate EditsLabels(i: Ident, i': Ident, p: Patch) {
    && i'.name == (if p.name.Some? then p.name.value else i.name)
    && i'.description == (if p.description.Some? then p.description.value else i.description)
    && i'.metadata == (if p.metadata.Some? then p.metadata.value else i.metadata)
    && i'.archived == i.archived
  }

  ghost predicate EditsBehaviour(b: Behaviour, b': Behaviour, p: Patch) {
    && b'.systemPrompt == (if p.systemPrompt.Some? then p.systemPrompt.value else b.systemPrompt)
    && b'.model == (if p.model.Some? then p.model.value else b.model)
    && b'.toolPolicy == (if p.toolPolicy.Some? then p.toolPolicy.value else b.toolPolicy)
    && b'.runtime == (if p.runtime.Some? then p.runtime.value else b.runtime)
  }

  // The agent's latest version before and after; a new one is minted exactly when the patch sets behaviour.
  ghost predicate Edited(db: Db, db': Db, id: nat, p: Patch) {
    && id in db.idents && id in db'.idents && EditsLabels(db.idents[id], db'.idents[id], p)
    && var latest, latest' := db.idents[id].latestVersion, db'.idents[id].latestVersion;
    && latest' == (if p.systemPrompt.Some? || p.model.Some? || p.toolPolicy.Some? || p.runtime.Some? then latest + 1
                   else latest)
    && Pin(id, latest) in db.versions && Pin(id, latest') in db'.versions
    && EditsBehaviour(db.versions[Pin(id, latest)], db'.versions[Pin(id, latest')], p)
  }

  lemma UpdateEdits(db: Db, id: nat, p: Patch)
    requires Valid(db) && id in db.idents
    ensures Pin(id, db.idents[id].latestVersion) in db.versions
    ensures Edited(db, Updated(db, id, p), id, p) && SameForOthers(db, Updated(db, id, p), id)
  {
    assert Pin(id, db.idents[id].latestVersion) in db.versions;
  }

  class AgentsService {
    var now: Db
    const le: KeyOrder
    const print_: Printer

    constructor (le: KeyOrder, print_: Printer)
      ensures Consistent(now) && now == Empty && this.le == le && this.print_ == print_
    {
      now, this.le, this.print_ := Empty, le, print_;
    }

    // A replayed create is accepted exactly when the agent still is what it asks for: up to key order
    // and, where the input has tied keys, in their order.
    method ResolveIdempotentCreate(i: Ident, b: Behaviour, input: Input) returns (r: CreateResult)
      requires TotalPreorder(le) && Injective(print_)
      requires WellFormed(i.metadata) && WellFormedBehaviour(b) && WellFormedInput(input)
      ensures r == if MatchesInOrder(le, i, b, input) then Replayed else DifferentConfiguration
      ensures r.Replayed? ==> Matches(i, b, input)
      ensures TieFreeInput(le, input) ==> (r.Replayed? <==> Matches(i, b, input))
    {
      JsonEqIff(le, print_, i.metadata, Or(input.metadata, EmptyObject));
      JsonEqIff(le, print_, b.model, input.model);
      JsonEqIff(le, print_, b.toolPolicy, Or(input.toolPolicy, EmptyObject));
      JsonEqIff(le, print_, Or(b.runtime, Null), Or(input.runtime, Null));
      MatchesWithoutTies(le, print_, i, b, input);
      var same :=
        i.name == input.name && i.description == input.description
        && JsonEq(le, print_, i.metadata, Or(input.metadata, EmptyObject))
        && b.systemPrompt == input.systemPrompt
        && JsonEq(le, print_, b.model, input.model)
        && JsonEq(le, print_, b.toolPolicy, Or(input.toolPolicy, EmptyObject))
        && JsonEq(le, print_, Or(b.runtime, Null), Or(input.runtime, Null));
      r := if same then Replayed else DifferentConfiguration;
    }

    // Others work on the same tables between two statements.
    method Interfere()
      requires Consistent(now)
      modifies this
      ensures Consistent(now) && Onward(old(now), now)
    {
      var ops: seq<Op> := *;
      for i := 0 to |ops|
        invariant Consistent(now) && Onward(old(now), now)
      {
        if WellFormedOp(ops[i]) {
          DoKeepsConsistent(now, ops[i]);
          now := Do(now, ops[i]);
        }
      }
    }

    // create with a caller-chosen id: insert, or compare with what is there, also when another create
    // of the same id won the race for the primary key.
    method Create(id: nat, input: Input) returns (r: CreateResult)
      requires Consistent(now) && WellFormedInput(input)
      requires TotalPreorder(le) && Injective(print_)
      modifies this
      ensures Consistent(now) && Onward(old(now), now)
      ensures id in now.idents && Pin(id, now.idents[id].latestVersion) in now.versions
      ensures r.CreatedNow? ==>
        var b, i := now.versions[Pin(id, 1)], now.idents[id];
        && b.systemPrompt == input.systemPrompt && b.model == input.model && b.runtime == input.runtime
        && b.toolPolicy == (if input.toolPolicy.Some? then input.toolPolicy.value else Obj([]))
        && i.name == input.name && i.description == input.description
        && i.metadata == (if input.metadata.Some? then input.metadata.value else Obj([]))
        && i.latestVersion == 1 && !i.archived
      ensures old(id in now.idents) ==> !r.CreatedNow?
      ensures !r.CreatedNow? ==>
        (r.Replayed? <==>
           MatchesInOrder(le, now.idents[id], now.versions[Pin(id, now.idents[id].latestVersion)], input))
      ensures !r.CreatedNow? && TieFreeInput(le, input) ==>
        (r.Replayed? <==> Matches(now.idents[id], now.versions[Pin(id, now.idents[id].latestVersion)], input))
    {
      if id !in now.idents {
        Interfere();
        if id !in now.idents {
          DoKeepsConsistent(now, Op.Create(id, input));
          now := Created(now, id, input);
          return CreatedNow;
        }
      }
      LatestIsTheFold(now, id);
      r := ResolveIdempotentCreate(now.idents[id], now.versions[Pin(id, now.idents[id].latestVersion)], input);
    }

    // The row lock makes concurrent updates mint one version after the other.
    method Update(id: nat, p: Patch) returns (r: UpdateResult)
      requires Consistent(now) && WellFormedPatch(p)
      modifies this
      ensures Consistent(now) && Onward(old(now), now)
      ensures now == Do(old(now), Op.Update(id, p))
      ensures !r.UpdatedNow? ==> now == old(now)
      ensures r.UpdatedNow? ==> Edited(old(now), now, id, p) && SameForOthers(old(now), now, id)
      ensures r == if id !in old(now).idents then NotFound
                   else if old(now).idents[id].archived then ReadOnly else UpdatedNow
    {
      DoKeepsConsistent(now, Op.Update(id, p));
      if id !in now.idents { return NotFound; }
      if now.idents[id].archived { return ReadOnly; }
      UpdateEdits(now, id, p);
      now := Updated(now, id, p);
      r := UpdatedNow;
    }

    method Archive(id: nat) returns (found: bool)
      requires Consistent(now)
      modifies this
      ensures Consistent(now) && Onward(old(now), now) && now == Do(old(now), Op.Archive(id))
      ensures found <==> id in old(now).idents
      ensures now == if !found then old(now)
                     else old(now).(idents := old(now).idents[id := old(now).idents[id].(archived := true)])
    {
      DoKeepsConsistent(now, Op.Archive(id));
      found := id in now.idents;
      if found { now := ArchivedIn(now, id); }
    }

    method GetVersion(pin: Pin) returns (r: Option<Behaviour>)
      requires Valid(now)
      ensures r == if pin in now.versions then Some(now.versions[pin]) else None
    {
      r := if pin in now.versions then Some(now.versions[pin]) else None;
    }

    // A session pins a version when it is created; whatever is edited meanwhile, a later turn reads the
    // content the version had then.
    method PinAndRead(ref: Ref) returns (r: Resolved, read: Option<Behaviour>)
      requires Consistent(now)
      modifies this
      ensures Consistent(now) && Onward(old(now), now)
      ensures r.Pinned? ==> r.pin in old(now).versions && read == Some(old(now).versions[r.pin])
      ensures !r.Pinned? ==> read.None? && now == old(now)
    {
      read := None;
      r := ResolveAgent(ref);
      if r.Pinned? {
        Interfere();
        read := GetVersion(r.pin);
      }
    }

    // What a new session pins: the latest version now, or the one named, if it was ever minted.
    method ResolveAgent(ref: Ref) returns (r: Resolved)
      requires Valid(now)
      ensures r.Pinned? ==> r.pin in now.versions && r.pin.agent in now.idents && !now.idents[r.pin.agent].archived
      ensures r.Pinned? && ref.Bare? ==> r.pin.agent == ref.id && r.pin.version == now.idents[r.pin.agent].latestVersion
      ensures r.Pinned? && ref.Exact? ==> r.pin == ref.pin
      ensures r.AgentNotFound? <==> AgentOf(ref) !in now.idents
      ensures r.AgentArchived? <==> AgentOf(ref) in now.idents && now.idents[AgentOf(ref)].archived
      ensures r.VersionNotFound? <==>
        AgentOf(ref) in now.idents && !now.idents[AgentOf(ref)].archived && ref.Exact? && ref.pin !in now.versions
    {
      var id := AgentOf(ref);
      if id !in now.idents { return AgentNotFound; }
      if now.idents[id].archived { return AgentArchived; }
      if ref.Bare? { return Pinned(Pin(id, now.idents[id].latestVersion)); }
      if ref.pin !in now.versions { return VersionNotFound; }
      r := Pinned(ref.pin);
    }
  }

  // A session's pin resolves, after any later edits, to what was minted under it.
  lemma PinResolvesForever(db: Db, ops: seq<Op>, pin: Pin)
    requires Valid(db) && pin in db.versions
    ensures Valid(After(db, ops)) && pin in After(db, ops).versions && After(db, ops).versions[pin] == db.versions[pin]
    ensures IsFold(db, pin)
  {
    HistoryIsImmutable(db, ops);
  }
}

// Key-order-insensitive comparison of JSON values (packages/configs/src/util.ts,
// packages/sessions/src/service.ts): sort the keys at every depth, print, compare the texts.
module Canonical {

  // Objects list their entries in insertion order.
  datatype Json =
    | Null
    | Bool(b: bool)
    | Number(n: int)
    | Str(s: string)
    | Arr(items: seq<Json>)
    | Obj(entries: seq<Entry>)

  datatype Entry = Entry(key: string, value: Json)

  type KeyOrder = (string, string) -> bool

  type Printer = Json -> string

  predicate DistinctKeys(es: seq<Entry>) {
    forall i, j :: 0 <= i < j < |es| ==> es[i].key != es[j].key
  }

  // Every object in it has each key once.
  predicate WellFormed(x: Json) {
    match x
    case Arr(items) => forall i :: 0 <= i < |items| ==> WellFormed(items[i])
    case Obj(es) => DistinctKeys(es) && forall i :: 0 <= i < |es| ==> WellFormed(es[i].value)
    case _ => true
  }

  // ------------------------------------------------------------------- canonical form

  // Stable insertion from the right.
  function Insert(le: KeyOrder, sorted: seq<Entry>, e: Entry): seq<Entry> {
    if sorted == [] || le(sorted[|sorted| - 1].key, e.key) then sorted + [e]
    else Insert(le, sorted[..|sorted| - 1], e) + [sorted[|sorted| - 1]]
  }

  function Sort(le: KeyOrder, es: seq<Entry>): seq<Entry> {
    if es == [] then [] else Insert(le, Sort(le, es[..|es| - 1]), es[|es| - 1])
  }

  function SortKeys(le: KeyOrder, x: Json): Json {
    match x
    case Arr(items) => Arr(seq(|items|, i requires 0 <= i < |items| => SortKeys(le, items[i])))
    case Obj(es) => Obj(Sort(le, SortedValues(le, x)))
    case _ => x
  }

  function SortedValues(le: KeyOrder, x: Json): (out: seq<Entry>)
    requires x.Obj?
    ensures |out| == |x.entries|
    decreases x, 0
  {
    seq(|x.entries|, i requires 0 <= i < |x.entries| => Entry(x.entries[i].key, SortKeys(le, x.entries[i].value)))
  }

  function JsonEq(le: KeyOrder, print_: Printer, a: Json, b: Json): bool {
    print_(SortKeys(le, a)) == print_(SortKeys(le, b))
  }
  // ------------------------------------------------------------------ what it decides

  // Equal up to the order of keys, at any depth.
  ghost predicate Same(a: Json, b: Json)
    decreases a
  {
    match a
    case Arr(xs) => b.Arr? && |xs| == |b.items| && forall i :: 0 <= i < |xs| ==> Same(xs[i], b.items[i])
    case Obj(es) =>
      && b.Obj?
      && (forall i :: 0 <= i < |es| ==> SameIn(es[i], b.entries))
      && (forall j :: 0 <= j < |b.entries| ==> HasKey(es, b.entries[j].key))
    case _ => a == b
  }

  // fs has the key of x, with the same value up to key order.
  ghost predicate SameIn(x: Entry, fs: seq<Entry>)
    decreases x
  {
    exists j :: 0 <= j < |fs| && x.key == fs[j].key && Same(x.value, fs[j].value)
  }

  predicate HasKey(es: seq<Entry>, key: string) { exists i :: 0 <= i < |es| && es[i].key == key }

  ghost predicate TotalPreorder(le: KeyOrder) {
    && (forall a, b :: le(a, b) || le(b, a))
    && (forall a, b, c :: le(a, b) && le(b, c) ==> le(a, c))
  }

  // le does not tell the two keys apart.
  predicate Tied(le: KeyOrder, k: string, k': string) { k != k' && le(k, k') && le(k', k) }

  predicate Before(es: seq<Entry>, k: string, k': string) {
    exists i, j :: 0 <= i < j < |es| && es[i].key == k && es[j].key == k'
  }

  // Tied keys stand in fs in the order they have in es.
  ghost predicate TiesKept(le: KeyOrder, es: seq<Entry>, fs: seq<Entry>) {
    forall k, k' :: Tied(le, k, k') && Before(es, k, k') ==> Before(fs, k, k')
  }

  // Equal up to the order of keys, at any depth, where tied keys keep their relative order.
  ghost predicate Agree(le: KeyOrder, a: Json, b: Json)
    decreases a
  {
    match a
    case Arr(xs) => b.Arr? && |xs| == |b.items| && forall i :: 0 <= i < |xs| ==> Agree(le, xs[i], b.items[i])
    case Obj(es) =>
      && b.Obj?
      && (forall i :: 0 <= i < |es| ==> AgreeIn(le, es[i], b.entries))
      && (forall j :: 0 <= j < |b.entries| ==> HasKey(es, b.entries[j].key))
      && TiesKept(le, es, b.entries)
    case _ => a == b
  }

  ghost predicate AgreeIn(le: KeyOrder, x: Entry, fs: seq<Entry>)
    decreases x
  {
    exists j :: 0 <= j < |fs| && x.key == fs[j].key && Agree(le, x.value, fs[j].value)
  }

  // No object in x, at any depth, has two keys that le ties.
  predicate TieFree(le: KeyOrder, x: Json) {
    match x
    case Arr(items) => forall i :: 0 <= i < |items| ==> TieFree(le, items[i])
    case Obj(es) =>
      && (forall i, j :: 0 <= i < |es| && 0 <= j < |es| ==> !Tied(le, es[i].key, es[j].key))
      && forall i :: 0 <= i < |es| ==> TieFree(le, es[i].value)
    case _ => true
  }

  ghost predicate Injective(print_: Printer) { forall a, b :: print_(a) == print_(b) ==> a == b }

  // ---------------------------------------------------------------------- sorting

  lemma {:induction false} InsertPermutes(le: KeyOrder, sorted: seq<Entry>, e: Entry)
    ensures multiset(Insert(le, sorted, e)) == multiset(sorted) + multiset{e}
  {
    if !(sorted == [] || le(sorted[|sorted| - 1].key, e.key)) {
      InsertPermutes(le, sorted[..|sorted| - 1], e);
      assert sorted == sorted[..|sorted| - 1] + [sorted[|sorted| - 1]];
    }
  }

  lemma {:induction false} SortPermutes(le: KeyOrder, es: seq<Entry>)
    ensures multiset(Sort(le, es)) == multiset(es)
    ensures |Sort(le, es)| == |es|
  {
    if es != [] {
      SortPermutes(le, es[..|es| - 1]);
      InsertPermutes(le, Sort(le, es[..|es| - 1]), es[|es| - 1]);
      assert es == es[..|es| - 1] + [es[|es| - 1]];
    }
    assert |multiset(Sort(le, es))| == |Sort(le, es)|;
  }

  lemma SortHasSameEntries(le: KeyOrder, es: seq<Entry>)
    ensures forall e :: e in Sort(le, es) <==> e in es
  {
    SortPermutes(le, es);
    assert forall e :: e in Sort(le, es) <==> e in multiset(Sort(le, es));
    assert forall e :: e in es <==> e in multiset(es);
  }

  ghost predicate Sorted(le: KeyOrder, es: seq<Entry>) {
    forall i, j :: 0 <= i < j < |es| ==> le(es[i].key, es[j].key)
  }

  lemma SortedLonger(le: KeyOrder, out: seq<Entry>, e: Entry)
    requires Sorted(le, out) && forall x :: x in out ==> le(x.key, e.key)
    ensures Sorted(le, out + [e])
  {
  }

  lemma LastIsMost(le: KeyOrder, sorted: seq<Entry>)
    requires TotalPreorder(le) && Sorted(le, sorted) && sorted != []
    ensures forall x :: x in sorted ==> le(x.key, sorted[|sorted| - 1].key)
  {
    var n := |sorted| - 1;
    forall x | x in sorted ensures le(x.key, sorted[n].key) {
      var i :| 0 <= i < |sorted| && sorted[i] == x;
      assert i < n || i == n;
    }
  }

  lemma InsertMembers(le: KeyOrder, sorted: seq<Entry>, e: Entry)
    ensures forall x :: x in Insert(le, sorted, e) ==> x in sorted || x == e
  {
    InsertPermutes(le, sorted, e);
    forall x | x in Insert(le, sorted, e) ensures x in sorted || x == e {
      assert x in multiset(Insert(le, sorted, e));
    }
  }

  lemma {:induction false} InsertSorts(le: KeyOrder, sorted: seq<Entry>, e: Entry)
    requires TotalPreorder(le) && Sorted(le, sorted)
    ensures Sorted(le, Insert(le, sorted, e))
  {
    if sorted != [] {
      var n := |sorted| - 1;
      LastIsMost(le, sorted);
      if le(sorted[n].key, e.key) {
        SortedLonger(le, sorted, e);
      } else {
        InsertSorts(le, sorted[..n], e);
        InsertMembers(le, sorted[..n], e);
        SortedLonger(le, Insert(le, sorted[..n], e), sorted[n]);
      }
    }
  }

  lemma {:induction false} SortSorts(le: KeyOrder, es: seq<Entry>)
    requires TotalPreorder(le)
    ensures Sorted(le, Sort(le, es))
  {
    if es != [] {
      SortSorts(le, es[..|es| - 1]);
      InsertSorts(le, Sort(le, es[..|es| - 1]), es[|es| - 1]);
    }
  }

  // Sorted, with tied keys in the order they have in es.
  ghost predicate Stable(le: KeyOrder, es: seq<Entry>, out: seq<Entry>) {
    Sorted(le, out) &&
    forall i, j :: 0 <= i < j < |out| && Tied(le, out[i].key, out[j].key) ==> Before(es, out[i].key, out[j].key)
  }

  lemma BeforeOneWay(es: seq<Entry>, k: string, k': string)
    requires DistinctKeys(es) && Before(es, k, k')
    ensures !Before(es, k', k)
  {
  }

  lemma BeforeMore(es: seq<Entry>, e: Entry, k: string, k': string)
    requires Before(es, k, k')
    ensures Before(es + [e], k, k')
  {
    var i, j :| 0 <= i < j < |es| && es[i].key == k && es[j].key == k';
    assert (es + [e])[i] == es[i] && (es + [e])[j] == es[j];
  }

  lemma StableLonger(le: KeyOrder, es: seq<Entry>, out: seq<Entry>, e: Entry)
    requires Stable(le, es, out) && Sorted(le, out + [e])
    requires forall x :: x in out && Tied(le, x.key, e.key) ==> Before(es, x.key, e.key)
    ensures Stable(le, es, out + [e])
  {
  }

  lemma StableFront(le: KeyOrder, es: seq<Entry>, sorted: seq<Entry>)
    requires Stable(le, es, sorted) && sorted != []
    ensures Stable(le, es, sorted[..|sorted| - 1])
    ensures var last := sorted[|sorted| - 1];
      forall x :: x in sorted[..|sorted| - 1] && Tied(le, x.key, last.key) ==> Before(es, x.key, last.key)
  {
  }

  // Insertion puts the new last entry behind everything tied with it.
  lemma {:induction false} InsertIsStable(le: KeyOrder, es: seq<Entry>, sorted: seq<Entry>, e: Entry)
    requires TotalPreorder(le) && Stable(le, es, sorted)
    requires forall x :: x in sorted ==> Before(es, x.key, e.key)
    ensures Stable(le, es, Insert(le, sorted, e))
  {
    InsertSorts(le, sorted, e);
    if sorted != [] {
      var n := |sorted| - 1;
      if le(sorted[n].key, e.key) {
        StableLonger(le, es, sorted, e);
      } else {
        StableFront(le, es, sorted);
        InsertIsStable(le, es, sorted[..n], e);
        InsertMembers(le, sorted[..n], e);
        StableLonger(le, es, Insert(le, sorted[..n], e), sorted[n]);
      }
    }
  }

  lemma StableMore(le: KeyOrder, es: seq<Entry>, e: Entry, out: seq<Entry>)
    requires Stable(le, es, out)
    ensures Stable(le, es + [e], out)
  {
    forall i, j | 0 <= i < j < |out| && Tied(le, out[i].key, out[j].key)
      ensures Before(es + [e], out[i].key, out[j].key)
    {
      BeforeMore(es, e, out[i].key, out[j].key);
    }
  }

  lemma {:induction false} SortIsStable(le: KeyOrder, es: seq<Entry>)
    requires TotalPreorder(le)
    ensures Stable(le, es, Sort(le, es))
  {
    if es != [] {
      var front, last := es[..|es| - 1], es[|es| - 1];
      SortIsStable(le, front);
      SortHasSameEntries(le, front);
      assert es == front + [last];
      StableMore(le, front, last, Sort(le, front));
      forall x | x in Sort(le, front) ensures Before(es, x.key, last.key) {
        var k :| 0 <= k < |front| && front[k] == x;
        assert es[k] == x && es[|es| - 1] == last;
      }
      InsertIsStable(le, es, Sort(le, front), last);
    }
  }

  lemma FirstAgrees(le: KeyOrder, es: seq<Entry>, a: seq<Entry>, b: seq<Entry>)
    requires TotalPreorder(le) && DistinctKeys(es) && a != [] && b != []
    requires Stable(le, es, a) && Stable(le, es, b) && DistinctKeys(a) && (forall e :: e in a <==> e in b)
    ensures a[0] == b[0]
  {
    assert a[0] in b && b[0] in a;
    var i :| 0 <= i < |b| && b[i] == a[0];
    var j :| 0 <= j < |a| && a[j] == b[0];
    if a[0] != b[0] {
      assert a[0].key != a[j].key;
      assert Tied(le, a[0].key, a[j].key) && Tied(le, b[0].key, b[i].key);
      BeforeOneWay(es, a[0].key, b[0].key);
    }
  }

  // Entries with distinct keys have one listing that is stable for a given order of arrival.
  lemma {:induction false} StableIsUnique(le: KeyOrder, es: seq<Entry>, a: seq<Entry>, b: seq<Entry>)
    requires TotalPreorder(le) && DistinctKeys(es)
    requires Stable(le, es, a) && Stable(le, es, b) && DistinctKeys(a) && DistinctKeys(b)
    requires forall e :: e in a <==> e in b
    ensures a == b
  {
    if a == [] || b == [] {
      if a != [] { IsIn(a); }
      if b != [] { IsIn(b); }
    } else {
      FirstAgrees(le, es, a, b);
      assert forall e :: e in a[1..] <==> e in a && e != a[0];
      assert forall e :: e in b[1..] <==> e in b && e != b[0];
      StableIsUnique(le, es, a[1..], b[1..]);
    }
  }

  lemma IsIn(a: seq<Entry>)
    requires a != []
    ensures exists e :: e in a
  {
    assert a[0] in a;
  }

  lemma {:induction false} SortKeepsDistinct(le: KeyOrder, es: seq<Entry>)
    requires DistinctKeys(es)
    ensures DistinctKeys(Sort(le, es))
  {
    if es != [] {
      var front, last := es[..|es| - 1], es[|es| - 1];
      SortKeepsDistinct(le, front);
      SortHasSameEntries(le, front);
      InsertKeepsDistinct(le, Sort(le, front), last);
    }
  }

  lemma {:induction false} InsertKeepsDistinct(le: KeyOrder, sorted: seq<Entry>, e: Entry)
    requires DistinctKeys(sorted) && forall x :: x in sorted ==> x.key != e.key
    ensures DistinctKeys(Insert(le, sorted, e))
  {
    if !(sorted == [] || le(sorted[|sorted| - 1].key, e.key)) {
      var front, last := sorted[..|sorted| - 1], sorted[|sorted| - 1];
      InsertKeepsDistinct(le, front, e);
      InsertPermutes(le, front, e);
      var out := Insert(le, front, e);
      forall i | 0 <= i < |out| ensures out[i].key != last.key {
        assert out[i] in multiset(out);
        if out[i] != e {
          var k :| 0 <= k < |front| && front[k] == out[i];
        } else {
          assert last in sorted;
        }
      }
    }
  }
  // ------------------------------------------------------------------- the decision

  lemma SortedEntry(le: KeyOrder, x: Json, i: nat)
    requires x.Obj? && i < |x.entries|
    ensures SortKeys(le, x).Obj? && SortedValues(le, x)[i] == Entry(x.entries[i].key, SortKeys(le, x.entries[i].value))
    ensures SortedValues(le, x)[i] in SortKeys(le, x).entries
  {
    SortHasSameEntries(le, SortedValues(le, x));
  }

  // Where an entry of the canonical form comes from.
  lemma SortedFrom(le: KeyOrder, x: Json, e: Entry) returns (i: nat)
    requires x.Obj? && e in SortKeys(le, x).entries
    ensures i < |x.entries| && e == Entry(x.entries[i].key, SortKeys(le, x.entries[i].value))
  {
    SortHasSameEntries(le, SortedValues(le, x));
    i :| 0 <= i < |x.entries| && SortedValues(le, x)[i] == e;
  }

  lemma ValuesKeepOrder(le: KeyOrder, x: Json, k: string, k': string)
    requires x.Obj?
    ensures Before(SortedValues(le, x), k, k') <==> Before(x.entries, k, k')
  {
    var es, vs := x.entries, SortedValues(le, x);
    assert forall i :: 0 <= i < |es| ==> vs[i].key == es[i].key;
    if Before(es, k, k') {
      var i, j :| 0 <= i < j < |es| && es[i].key == k && es[j].key == k';
      assert vs[i].key == k && vs[j].key == k';
    }
    if Before(vs, k, k') {
      var i, j :| 0 <= i < j < |vs| && vs[i].key == k && vs[j].key == k';
      assert es[i].key == k && es[j].key == k';
    }
  }

  lemma ValuesKeepDistinct(le: KeyOrder, x: Json)
    requires x.Obj? && DistinctKeys(x.entries)
    ensures DistinctKeys(SortedValues(le, x)) && DistinctKeys(SortKeys(le, x).entries)
  {
    SortKeepsDistinct(le, SortedValues(le, x));
  }

  // Of two keys of one object, one stands before the other.
  lemma OneIsFirst(es: seq<Entry>, k: string, k': string)
    requires HasKey(es, k) && HasKey(es, k') && k != k'
    ensures Before(es, k, k') || Before(es, k', k)
  {
    var i :| 0 <= i < |es| && es[i].key == k;
    var j :| 0 <= j < |es| && es[j].key == k';
    assert i < j || j < i;
  }

  lemma StableKeeps(le: KeyOrder, es: seq<Entry>, out: seq<Entry>, k: string, k': string)
    requires DistinctKeys(es) && Stable(le, es, out) && Tied(le, k, k')
    requires Before(es, k, k') && HasKey(out, k) && HasKey(out, k')
    ensures Before(out, k, k')
  {
    OneIsFirst(out, k, k');
    BeforeOneWay(es, k, k');
    if Before(out, k', k) { StableOrder(le, es, out, k', k); }
  }

  lemma StableOrder(le: KeyOrder, es: seq<Entry>, out: seq<Entry>, k: string, k': string)
    requires Stable(le, es, out) && Tied(le, k, k') && Before(out, k, k')
    ensures Before(es, k, k')
  {
    var i, j :| 0 <= i < j < |out| && out[i].key == k && out[j].key == k';
    assert Tied(le, out[i].key, out[j].key);
  }

  lemma SortedHasKey(le: KeyOrder, es: seq<Entry>, k: string)
    requires HasKey(es, k)
    ensures HasKey(Sort(le, es), k)
  {
    var i :| 0 <= i < |es| && es[i].key == k;
    SortHasSameEntries(le, es);
    assert es[i] in Sort(le, es);
    var j :| 0 <= j < |Sort(le, es)| && Sort(le, es)[j] == es[i];
  }

  lemma BeforeHasBoth(es: seq<Entry>, k: string, k': string)
    requires Before(es, k, k')
    ensures HasKey(es, k) && HasKey(es, k')
  {
    var i, j :| 0 <= i < j < |es| && es[i].key == k && es[j].key == k';
  }

  // Equal sorted listings keep the order of tied keys.
  lemma EqualSortsKeepTies(le: KeyOrder, es: seq<Entry>, fs: seq<Entry>)
    requires TotalPreorder(le) && DistinctKeys(es) && DistinctKeys(fs) && Sort(le, es) == Sort(le, fs)
    ensures TiesKept(le, es, fs)
  {
    SortIsStable(le, es);
    SortIsStable(le, fs);
    var out := Sort(le, es);
    forall k, k' | Tied(le, k, k') && Before(es, k, k') ensures Before(fs, k, k') {
      BeforeHasBoth(es, k, k');
      SortedHasKey(le, es, k);
      SortedHasKey(le, es, k');
      StableKeeps(le, es, out, k, k');
      StableOrder(le, fs, out, k, k');
    }
  }

  // Kept ties and equal entries make equal sorted listings.
  lemma KeptTiesEqualSorts(le: KeyOrder, es: seq<Entry>, fs: seq<Entry>)
    requires TotalPreorder(le) && DistinctKeys(es) && DistinctKeys(fs)
    requires (forall e :: e in es <==> e in fs) && TiesKept(le, es, fs)
    ensures Sort(le, es) == Sort(le, fs)
  {
    SortIsStable(le, es);
    SortIsStable(le, fs);
    SortHasSameEntries(le, es);
    SortHasSameEntries(le, fs);
    SortKeepsDistinct(le, es);
    SortKeepsDistinct(le, fs);
    var out := Sort(le, es);
    forall i, j | 0 <= i < j < |out| && Tied(le, out[i].key, out[j].key) ensures Before(fs, out[i].key, out[j].key) {
      assert Before(es, out[i].key, out[j].key);
    }
    StableIsUnique(le, fs, out, Sort(le, fs));
  }

  // ------------------------------------------------------------------- the decision

  // Equal canonical forms differ by key order only, and keep the order of tied keys.
  lemma {:induction false} Sound(le: KeyOrder, a: Json, b: Json)
    requires TotalPreorder(le) && WellFormed(a) && WellFormed(b) && SortKeys(le, a) == SortKeys(le, b)
    ensures Agree(le, a, b)
    decreases a
  {
    match a
    case Arr(xs) =>
      forall i | 0 <= i < |xs| ensures Agree(le, xs[i], b.items[i]) {
        assert SortKeys(le, a).items[i] == SortKeys(le, b).items[i];
        Sound(le, xs[i], b.items[i]);
      }
    case Obj(es) =>
      forall i | 0 <= i < |es| ensures AgreeIn(le, es[i], b.entries) {
        SortedEntry(le, a, i);
        var j := SortedFrom(le, b, SortedValues(le, a)[i]);
        Sound(le, es[i].value, b.entries[j].value);
      }
      forall j | 0 <= j < |b.entries| ensures HasKey(es, b.entries[j].key) {
        SortedEntry(le, b, j);
        var i := SortedFrom(le, a, SortedValues(le, b)[j]);
        assert es[i].key == b.entries[j].key;
      }
      EqualFormsKeepTies(le, a, b);
    case _ =>
  }

  lemma EqualFormsKeepTies(le: KeyOrder, a: Json, b: Json)
    requires TotalPreorder(le) && a.Obj? && b.Obj? && DistinctKeys(a.entries) && DistinctKeys(b.entries)
    requires SortKeys(le, a) == SortKeys(le, b)
    ensures TiesKept(le, a.entries, b.entries)
  {
    ValuesKeepDistinct(le, a);
    ValuesKeepDistinct(le, b);
    EqualSortsKeepTies(le, SortedValues(le, a), SortedValues(le, b));
    forall k, k' | Tied(le, k, k') && Before(a.entries, k, k') ensures Before(b.entries, k, k') {
      ValuesKeepOrder(le, a, k, k');
      ValuesKeepOrder(le, b, k, k');
    }
  }

  lemma KeptTiesEqualForms(le: KeyOrder, a: Json, b: Json)
    requires TotalPreorder(le) && a.Obj? && b.Obj? && DistinctKeys(a.entries) && DistinctKeys(b.entries)
    requires TiesKept(le, a.entries, b.entries)
    requires forall e :: e in SortedValues(le, a) <==> e in SortedValues(le, b)
    ensures SortKeys(le, a) == SortKeys(le, b)
  {
    ValuesKeepDistinct(le, a);
    ValuesKeepDistinct(le, b);
    forall k, k' | Tied(le, k, k') && Before(SortedValues(le, a), k, k') ensures Before(SortedValues(le, b), k, k') {
      ValuesKeepOrder(le, a, k, k');
      ValuesKeepOrder(le, b, k, k');
    }
    KeptTiesEqualSorts(le, SortedValues(le, a), SortedValues(le, b));
  }

  // Values that agree have one canonical form.
  lemma {:induction false} Complete(le: KeyOrder, a: Json, b: Json)
    requires TotalPreorder(le) && WellFormed(a) && WellFormed(b) && Agree(le, a, b)
    ensures SortKeys(le, a) == SortKeys(le, b)
    decreases a
  {
    match a
    case Arr(xs) =>
      forall i | 0 <= i < |xs| ensures SortKeys(le, xs[i]) == SortKeys(le, b.items[i]) {
        Complete(le, xs[i], b.items[i]);
      }
    case Obj(es) =>
      forall e | e in SortedValues(le, a) ensures e in SortedValues(le, b) {
        var i: nat :| 0 <= i < |es| && SortedValues(le, a)[i] == e;
        var j := Partner(le, a, b, i);
        assert SortedValues(le, b)[j] == e;
      }
      forall e | e in SortedValues(le, b) ensures e in SortedValues(le, a) {
        var j: nat :| 0 <= j < |b.entries| && SortedValues(le, b)[j] == e;
        assert HasKey(es, b.entries[j].key);
        var i: nat :| 0 <= i < |es| && es[i].key == b.entries[j].key;
        var j' := Partner(le, a, b, i);
        assert j' == j;
        assert SortedValues(le, a)[i] == e;
      }
      KeptTiesEqualForms(le, a, b);
    case _ =>
  }

  lemma Partner(le: KeyOrder, a: Json, b: Json, i: nat) returns (j: nat)
    requires TotalPreorder(le) && WellFormed(a) && WellFormed(b) && Agree(le, a, b)
    requires a.Obj? && i < |a.entries|
    ensures j < |b.entries| && b.entries[j].key == a.entries[i].key
    ensures SortKeys(le, a.entries[i].value) == SortKeys(le, b.entries[j].value)
    decreases a, 0
  {
    match a
    case Obj(es) =>
      assert AgreeIn(le, es[i], b.entries);
      j :| 0 <= j < |b.entries| && es[i].key == b.entries[j].key && Agree(le, es[i].value, b.entries[j].value);
      Complete(le, es[i].value, b.entries[j].value);
  }

  // jsonEq under any comparator: it holds exactly when the values differ by key order only and keys the
  // comparator ties keep their relative order, at any depth.
  lemma JsonEqIff(le: KeyOrder, print_: Printer, a: Json, b: Json)
    requires TotalPreorder(le) && Injective(print_) && WellFormed(a) && WellFormed(b)
    ensures JsonEq(le, print_, a, b) <==> Agree(le, a, b)
  {
    if JsonEq(le, print_, a, b) { Sound(le, a, b); }
    if Agree(le, a, b) { Complete(le, a, b); }
  }

  // ------------------------------------------------------- when ties do not matter

  lemma {:induction false} AgreeIsSame(le: KeyOrder, a: Json, b: Json)
    requires Agree(le, a, b)
    ensures Same(a, b)
    decreases a
  {
    match a
    case Arr(xs) =>
      forall i | 0 <= i < |xs| ensures Same(xs[i], b.items[i]) { AgreeIsSame(le, xs[i], b.items[i]); }
    case Obj(es) =>
      forall i | 0 <= i < |es| ensures SameIn(es[i], b.entries) {
        assert AgreeIn(le, es[i], b.entries);
        var j :| 0 <= j < |b.entries| && es[i].key == b.entries[j].key && Agree(le, es[i].value, b.entries[j].value);
        AgreeIsSame(le, es[i].value, b.entries[j].value);
      }
    case _ =>
  }

  lemma NothingTied(le: KeyOrder, es: seq<Entry>, fs: seq<Entry>)
    requires forall i, j :: 0 <= i < |es| && 0 <= j < |es| ==> !Tied(le, es[i].key, es[j].key)
    ensures TiesKept(le, es, fs)
  {
    forall k, k' | Before(es, k, k') ensures !Tied(le, k, k') {
      var i, j :| 0 <= i < j < |es| && es[i].key == k && es[j].key == k';
      assert !Tied(le, es[i].key, es[j].key);
    }
  }

  lemma {:induction false} SameIsAgree(le: KeyOrder, a: Json, b: Json)
    requires TieFree(le, a) && Same(a, b)
    ensures Agree(le, a, b)
    decreases a
  {
    match a
    case Arr(xs) =>
      forall i | 0 <= i < |xs| ensures Agree(le, xs[i], b.items[i]) { SameIsAgree(le, xs[i], b.items[i]); }
    case Obj(es) =>
      forall i | 0 <= i < |es| ensures AgreeIn(le, es[i], b.entries) {
        assert SameIn(es[i], b.entries);
        var j :| 0 <= j < |b.entries| && es[i].key == b.entries[j].key && Same(es[i].value, b.entries[j].value);
        SameIsAgree(le, es[i].value, b.entries[j].value);
      }
      NothingTied(le, es, b.entries);
    case _ =>
  }

  // ------------------------------------------------- being equal up to key order

  lemma {:induction false} SameRefl(a: Json)
    ensures Same(a, a)
  {
    match a
    case Arr(xs) => forall i | 0 <= i < |xs| ensures Same(xs[i], xs[i]) { SameRefl(xs[i]); }
    case Obj(es) =>
      forall i | 0 <= i < |es| ensures SameIn(es[i], es) {
        SameRefl(es[i].value);
      }
      forall j | 0 <= j < |es| ensures HasKey(es, es[j].key) { }
    case _ =>
  }

  lemma {:induction false} SameSym(a: Json, b: Json)
    requires WellFormed(b) && Same(a, b)
    ensures Same(b, a)
    decreases a
  {
    match a
    case Arr(xs) => forall i | 0 <= i < |xs| ensures Same(b.items[i], xs[i]) { SameSym(xs[i], b.items[i]); }
    case Obj(es) =>
      var fs := b.entries;
      forall j | 0 <= j < |fs| ensures SameIn(fs[j], es) {
        assert HasKey(es, fs[j].key);
        var i :| 0 <= i < |es| && es[i].key == fs[j].key;
        assert SameIn(es[i], fs);
        var j' :| 0 <= j' < |fs| && es[i].key == fs[j'].key && Same(es[i].value, fs[j'].value);
        assert j' == j;
        SameSym(es[i].value, fs[j].value);
      }
      forall i | 0 <= i < |es| ensures HasKey(fs, es[i].key) {
        assert SameIn(es[i], fs);
        var j :| 0 <= j < |fs| && es[i].key == fs[j].key && Same(es[i].value, fs[j].value);
      }
    case _ =>
  }

  lemma {:induction false} SameTrans(a: Json, b: Json, c: Json)
    requires Same(a, b) && Same(b, c)
    ensures Same(a, c)
    decreases a
  {
    match a
    case Arr(xs) =>
      forall i | 0 <= i < |xs| ensures Same(xs[i], c.items[i]) { SameTrans(xs[i], b.items[i], c.items[i]); }
    case Obj(es) =>
      var fs, gs := b.entries, c.entries;
      forall i | 0 <= i < |es|
        ensures SameIn(es[i], gs)
      {
        assert SameIn(es[i], fs);
        var j :| 0 <= j < |fs| && es[i].key == fs[j].key && Same(es[i].value, fs[j].value);
        assert SameIn(fs[j], gs);
        var k :| 0 <= k < |gs| && fs[j].key == gs[k].key && Same(fs[j].value, gs[k].value);
        SameTrans(es[i].value, fs[j].value, gs[k].value);
      }
      forall k | 0 <= k < |gs| ensures HasKey(es, gs[k].key) {
        assert HasKey(fs, gs[k].key);
        var j :| 0 <= j < |fs| && fs[j].key == gs[k].key;
        assert HasKey(es, fs[j].key);
      }
    case _ =>
  }

  // An equivalence, whatever the comparator.
  lemma SameIsEquivalence(a: Json, b: Json, c: Json)
    requires WellFormed(a) && WellFormed(b) && WellFormed(c)
    ensures Same(a, a)
    ensures Same(a, b) <==> Same(b, a)
    ensures Same(a, b) && Same(b, c) ==> Same(a, c)
  {
    SameRefl(a);
    if Same(a, b) { SameSym(a, b); }
    if Same(b, a) { SameSym(b, a); }
    if Same(a, b) && Same(b, c) { SameTrans(a, b, c); }
  }

  // jsonEq holds exactly when two values differ by key order only, if either has no tied keys.
  lemma JsonEqDecides(le: KeyOrder, print_: Printer, a: Json, b: Json)
    requires TotalPreorder(le) && Injective(print_) && WellFormed(a) && WellFormed(b)
    requires TieFree(le, a) || TieFree(le, b)
    ensures JsonEq(le, print_, a, b) <==> Same(a, b)
  {
    JsonEqIff(le, print_, a, b);
    JsonEqIff(le, print_, b, a);
    if Same(a, b) {
      SameSym(a, b);
      if TieFree(le, a) { SameIsAgree(le, a, b); } else { SameIsAgree(le, b, a); }
    }
    if Agree(le, a, b) { AgreeIsSame(le, a, b); }
  }
  // ---------------------------------------------------------- when ties do matter

  ghost predicate Told(le: KeyOrder, a: Json, b: Json) { WellFormed(b) && Same(a, b) && !Agree(le, a, b) }

  lemma NotBefore(es: seq<Entry>, p: nat, q: nat)
    requires DistinctKeys(es) && p < q < |es|
    ensures Before(es, es[p].key, es[q].key) && !Before(es, es[q].key, es[p].key)
  {
    BeforeOneWay(es, es[p].key, es[q].key);
  }

  function Swapped(es: seq<Entry>, p: nat, q: nat): (fs: seq<Entry>)
    requires p < q < |es|
    ensures |fs| == |es| && fs[p] == es[q] && fs[q] == es[p]
    ensures forall i :: 0 <= i < |es| && i != p && i != q ==> fs[i] == es[i]
  {
    es[p := es[q]][q := es[p]]
  }

  lemma SwapIsSame(a: Json, p: nat, q: nat)
    requires WellFormed(a) && a.Obj? && p < q < |a.entries|
    ensures var b := Obj(Swapped(a.entries, p, q)); WellFormed(b) && Same(a, b)
  {
    var es, fs := a.entries, Swapped(a.entries, p, q);
    forall i | 0 <= i < |es| ensures SameIn(es[i], fs) {
      SameRefl(es[i].value);
      var j := if i == p then q else if i == q then p else i;
      assert fs[j] == es[i];
    }
    forall i | 0 <= i < |es| ensures HasKey(es, fs[i].key) {
      var j := if i == p then q else if i == q then p else i;
      assert es[j] == fs[i];
    }
  }

  // Two tied keys exchanged.
  lemma SwapIsTold(le: KeyOrder, a: Json, p: nat, q: nat)
    requires WellFormed(a) && a.Obj? && p < q < |a.entries| && Tied(le, a.entries[p].key, a.entries[q].key)
    ensures Told(le, a, Obj(Swapped(a.entries, p, q)))
  {
    SwapIsSame(a, p, q);
    NotBefore(a.entries, p, q);
    NotBefore(Swapped(a.entries, p, q), p, q);
    assert !TiesKept(le, a.entries, Swapped(a.entries, p, q));
  }

  // One value inside replaced by one that is told apart.
  lemma EntryIsTold(le: KeyOrder, a: Json, i: nat, v: Json)
    requires WellFormed(a) && a.Obj? && i < |a.entries| && Told(le, a.entries[i].value, v)
    ensures Told(le, a, Obj(a.entries[i := Entry(a.entries[i].key, v)]))
  {
    var es := a.entries;
    var fs := es[i := Entry(es[i].key, v)];
    forall j | 0 <= j < |es| ensures SameIn(es[j], fs) && HasKey(es, fs[j].key) {
      SameRefl(es[j].value);
      assert fs[j].key == es[j].key;
    }
    assert !AgreeIn(le, es[i], fs);
  }

  lemma ItemIsTold(le: KeyOrder, a: Json, i: nat, v: Json)
    requires WellFormed(a) && a.Arr? && i < |a.items| && Told(le, a.items[i], v)
    ensures Told(le, a, Arr(a.items[i := v]))
  {
    forall j | 0 <= j < |a.items| ensures Same(a.items[j], a.items[i := v][j]) { SameRefl(a.items[j]); }
    assert !Agree(le, a.items[i], a.items[i := v][i]);
  }

  // A value with tied keys anywhere inside has a twin that differs by key order only and is told apart.
  lemma {:induction false} TiedHasTwin(le: KeyOrder, a: Json) returns (b: Json)
    requires WellFormed(a) && !TieFree(le, a)
    ensures Told(le, a, b)
    decreases a
  {
    match a
    case Arr(items) =>
      var i: nat :| 0 <= i < |items| && !TieFree(le, items[i]);
      var v := TiedHasTwin(le, items[i]);
      ItemIsTold(le, a, i, v);
      b := Arr(items[i := v]);
    case Obj(es) =>
      if i: nat, j: nat :| i < |es| && j < |es| && Tied(le, es[i].key, es[j].key) {
        var p, q := if i < j then i else j, if i < j then j else i;
        SwapIsTold(le, a, p, q);
        b := Obj(Swapped(es, p, q));
      } else {
        var i: nat :| 0 <= i < |es| && !TieFree(le, es[i].value);
        var v := TiedHasTwin(le, es[i].value);
        EntryIsTold(le, a, i, v);
        b := Obj(es[i := Entry(es[i].key, v)]);
      }
  }

  // The condition is exact: jsonEq decides equality up to key order against every value exactly when
  // no object of this one has two tied keys.
  lemma TieFreeIsExact(le: KeyOrder, print_: Printer, a: Json)
    requires TotalPreorder(le) && Injective(print_) && WellFormed(a)
    ensures (forall b :: WellFormed(b) ==> (JsonEq(le, print_, a, b) <==> Same(a, b))) <==> TieFree(le, a)
  {
    if TieFree(le, a) {
      forall b | WellFormed(b) ensures JsonEq(le, print_, a, b) <==> Same(a, b) { JsonEqDecides(le, print_, a, b); }
    } else {
      var b := TiedHasTwin(le, a);
      JsonEqIff(le, print_, a, b);
    }
  }

  // At its smallest: two tied keys in either order.
  lemma TiedKeysAreTold(le: KeyOrder, print_: Printer, k: string, k': string)
    requires TotalPreorder(le) && Injective(print_) && Tied(le, k, k')
    ensures var a, b := Obj([Entry(k, Null), Entry(k', Null)]), Obj([Entry(k', Null), Entry(k, Null)]);
      WellFormed(a) && WellFormed(b) && Same(a, b) && !JsonEq(le, print_, a, b)
  {
    var a, b := Obj([Entry(k, Null), Entry(k', Null)]), Obj([Entry(k', Null), Entry(k, Null)]);
    SwapIsTold(le, a, 0, 1);
    assert Swapped(a.entries, 0, 1) == b.entries;
    JsonEqIff(le, print_, a, b);
  }
}

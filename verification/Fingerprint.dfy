/**
  The stable fingerprint of a JSON value: every object is re-entered in collation order and the
  result is printed. Fingerprints never confuse two values that differ by more than the order of
  their keys; they identify all key orders of a value exactly when no two of its keys collate alike.
*/
module Fingerprint {
  import opened Wrappers
  import opened JsonText
  import JsonReader
  import Texts

  /** Whether the first key does not come after the second. */
  type KeyOrder = (Text, Text) -> bool

  /** What is known of the platform's collation: it is total and transitive, but different keys may tie. */
  ghost predicate IsCollation(le: KeyOrder) {
    && (forall a, b :: le(a, b) || le(b, a))
    && (forall a, b, c :: le(a, b) && le(b, c) ==> le(a, c))
  }

  // ----- ordering the entries of an object -----

  function Insert(le: KeyOrder, e: Entry, es: seq<Entry>): seq<Entry> {
    if es == [] then [e]
    else if le(e.key, es[0].key) then [e] + es
    else [es[0]] + Insert(le, e, es[1..])
  }

  /** Stable sorting by key. */
  function SortBy(le: KeyOrder, es: seq<Entry>): seq<Entry> {
    if es == [] then [] else Insert(le, es[0], SortBy(le, es[1..]))
  }

  function Value(k: Text): int {
    if k == [] then 0 else Value(k[..|k| - 1]) * 10 + (k[|k| - 1] as int - 48)
  }

  predicate AllDigits(k: Text) {
    forall i :: 0 <= i < |k| ==> IsDigit(k[i])
  }

  /** A key that objects treat as an array index: the plain numeral of a number below 2^32 - 1. */
  predicate IsIndex(k: Text) {
    k != [] && AllDigits(k) && (|k| > 1 ==> k[0] != 48) && Value(k) < 0xFFFF_FFFF
  }

  /** Index keys come first and by value; the others keep the order in which they were entered. */
  predicate IndexOrder(a: Text, b: Text) {
    if IsIndex(a) then IsIndex(b) ==> Value(a) <= Value(b) else !IsIndex(b)
  }

  /** The order in which an object rebuilt from sorted entries enumerates them. */
  function OwnOrder(le: KeyOrder, es: seq<Entry>): seq<Entry> {
    SortBy(IndexOrder, SortBy(le, es))
  }

  function Canon(le: KeyOrder, v: Json): Json {
    match v
    case Arr(items) => Arr(seq(|items|, i requires 0 <= i < |items| => Canon(le, items[i])))
    case Obj(es) =>
      Obj(OwnOrder(le, seq(|es|, i requires 0 <= i < |es| => Entry(es[i].key, Canon(le, es[i].value)))))
    case _ => v
  }

  function Fingerprint(le: KeyOrder, v: Json): Text {
    Print(Canon(le, v))
  }

  /** The entries of an object with their values made canonical, in the order they had. */
  function CanonEntries(le: KeyOrder, es: seq<Entry>): seq<Entry> {
    seq(|es|, i requires 0 <= i < |es| => Entry(es[i].key, Canon(le, es[i].value)))
  }

  // ----- what a value means -----

  /** A value in which an object is a map, so that key order is gone at every depth. */
  datatype Meaning = Atom(atom: Json) | List(items: seq<Meaning>) | Record(fields: map<Text, Meaning>)

  function Denote(v: Json): Meaning {
    match v
    case Arr(items) => List(seq(|items|, i requires 0 <= i < |items| => Denote(items[i])))
    case Obj(entries) => Record(Fields(entries))
    case _ => Atom(v)
  }

  function Fields(es: seq<Entry>): map<Text, Meaning> {
    if es == [] then map[] else Fields(es[..|es| - 1])[es[|es| - 1].key := Denote(es[|es| - 1].value)]
  }

  /** Two different keys that are no index and that the collation does not tell apart. */
  predicate Collide(le: KeyOrder, a: Text, b: Text) {
    a != b && !IsIndex(a) && !IsIndex(b) && le(a, b) && le(b, a)
  }

  /** No object of the value, at any depth, has two colliding keys. */
  predicate NoCollision(le: KeyOrder, v: Json) {
    match v
    case Arr(items) => forall i :: 0 <= i < |items| ==> NoCollision(le, items[i])
    case Obj(entries) =>
      && (forall i, j :: 0 <= i < j < |entries| ==> !Collide(le, entries[i].key, entries[j].key))
      && (forall i :: 0 <= i < |entries| ==> NoCollision(le, entries[i].value))
    case _ => true
  }

  // ----- sorting permutes -----

  ghost predicate SameMembers(a: seq<Entry>, b: seq<Entry>) {
    forall x :: x in a <==> x in b
  }

  predicate Lacks(es: seq<Entry>, key: Text) {
    forall i :: 0 <= i < |es| ==> es[i].key != key
  }

  lemma {:induction false} InsertMembers(le: KeyOrder, e: Entry, es: seq<Entry>)
    ensures forall x :: x in Insert(le, e, es) <==> x == e || x in es
    ensures forall key :: Lacks(Insert(le, e, es), key) <==> e.key != key && Lacks(es, key)
  {
    if es != [] && !le(e.key, es[0].key) {
      InsertMembers(le, e, es[1..]);
      assert es == [es[0]] + es[1..];
      LacksCons(es[0], es[1..]);
      LacksCons(es[0], Insert(le, e, es[1..]));
    } else {
      LacksCons(e, es);
      assert [e] + es == Insert(le, e, es);
    }
  }

  lemma LacksCons(e: Entry, es: seq<Entry>)
    ensures forall key :: Lacks([e] + es, key) <==> e.key != key && Lacks(es, key)
  {
    forall key ensures Lacks([e] + es, key) <==> e.key != key && Lacks(es, key) {
      if Lacks([e] + es, key) {
        assert ([e] + es)[0] == e;
        assert forall i :: 0 <= i < |es| ==> es[i] == ([e] + es)[i + 1];
      }
    }
  }

  lemma DistinctCons(e: Entry, es: seq<Entry>)
    ensures DistinctKeys([e] + es) <==> Lacks(es, e.key) && DistinctKeys(es)
  {
    var all := [e] + es;
    if DistinctKeys(all) {
      assert forall i :: 0 <= i < |es| ==> es[i] == all[i + 1] && all[0].key != all[i + 1].key;
    }
  }

  lemma {:induction false} InsertDistinct(le: KeyOrder, e: Entry, es: seq<Entry>)
    requires DistinctKeys(es) && Lacks(es, e.key)
    ensures DistinctKeys(Insert(le, e, es))
  {
    if es != [] && !le(e.key, es[0].key) {
      assert es == [es[0]] + es[1..];
      DistinctCons(es[0], es[1..]);
      LacksCons(es[0], es[1..]);
      InsertDistinct(le, e, es[1..]);
      InsertMembers(le, e, es[1..]);
      DistinctCons(es[0], Insert(le, e, es[1..]));
    } else {
      DistinctCons(e, es);
      assert [e] + es == Insert(le, e, es);
    }
  }

  /** Sorting keeps the entries and their keys. */
  lemma {:induction false} SortPermutes(le: KeyOrder, es: seq<Entry>)
    ensures SameMembers(SortBy(le, es), es)
    ensures forall key :: Lacks(SortBy(le, es), key) <==> Lacks(es, key)
    ensures DistinctKeys(es) ==> DistinctKeys(SortBy(le, es))
  {
    if es != [] {
      SortPermutes(le, es[1..]);
      assert es == [es[0]] + es[1..];
      LacksCons(es[0], es[1..]);
      DistinctCons(es[0], es[1..]);
      InsertMembers(le, es[0], SortBy(le, es[1..]));
      if DistinctKeys(es) { InsertDistinct(le, es[0], SortBy(le, es[1..])); }
    }
  }

  lemma OwnOrderPermutes(le: KeyOrder, es: seq<Entry>)
    ensures SameMembers(OwnOrder(le, es), es)
    ensures DistinctKeys(es) ==> DistinctKeys(OwnOrder(le, es))
  {
    SortPermutes(le, es);
    SortPermutes(IndexOrder, SortBy(le, es));
  }

  // ----- sorting sorts -----

  ghost predicate Sorted(le: KeyOrder, es: seq<Entry>) {
    forall i, j :: 0 <= i < j < |es| ==> le(es[i].key, es[j].key)
  }

  /** By `first`, and by `second` where `first` ties. */
  function Then(first: KeyOrder, second: KeyOrder): KeyOrder {
    (a, b) => first(a, b) && (first(b, a) ==> second(a, b))
  }

  ghost predicate Below(le: KeyOrder, key: Text, es: seq<Entry>) {
    forall x :: x in es ==> le(key, x.key)
  }

  lemma SortedCons(le: KeyOrder, e: Entry, es: seq<Entry>)
    ensures Sorted(le, [e] + es) <==> Below(le, e.key, es) && Sorted(le, es)
  {
    var all := [e] + es;
    if Sorted(le, all) {
      forall x | x in es ensures le(e.key, x.key) {
        var i :| 0 <= i < |es| && es[i] == x;
        assert all[0] == e && all[i + 1] == x;
      }
      assert forall i :: 0 <= i < |es| ==> es[i] == all[i + 1];
    }
  }

  lemma {:induction false} InsertSorts(first: KeyOrder, second: KeyOrder, e: Entry, es: seq<Entry>)
    requires IsCollation(first) && Sorted(Then(first, second), es) && Below(second, e.key, es)
    ensures Sorted(Then(first, second), Insert(first, e, es))
  {
    var le := Then(first, second);
    if es != [] {
      assert es == [es[0]] + es[1..];
      SortedCons(le, es[0], es[1..]);
    }
    if es != [] && !first(e.key, es[0].key) {
      InsertSorts(first, second, e, es[1..]);
      InsertMembers(first, e, es[1..]);
      SortedCons(le, es[0], Insert(first, e, es[1..]));
    } else {
      SortedCons(le, e, es);
      assert [e] + es == Insert(first, e, es);
    }
  }

  /** A stable sort by one order leaves ties in the order they had. */
  lemma {:induction false} SortSorts(first: KeyOrder, second: KeyOrder, es: seq<Entry>)
    requires IsCollation(first) && Sorted(second, es)
    ensures Sorted(Then(first, second), SortBy(first, es))
  {
    if es != [] {
      assert es == [es[0]] + es[1..];
      SortedCons(second, es[0], es[1..]);
      SortSorts(first, second, es[1..]);
      SortPermutes(first, es[1..]);
      InsertSorts(first, second, es[0], SortBy(first, es[1..]));
    }
  }

  lemma IndexOrderIsCollation()
    ensures IsCollation(IndexOrder)
  {
  }

  lemma OwnOrderSorts(le: KeyOrder, es: seq<Entry>)
    requires IsCollation(le)
    ensures Sorted(Then(IndexOrder, le), OwnOrder(le, es))
  {
    var any: KeyOrder := (a, b) => true;
    SortSorts(le, any, es);
    assert Sorted(le, SortBy(le, es));
    IndexOrderIsCollation();
    SortSorts(IndexOrder, le, SortBy(le, es));
  }

  // ----- without collisions the sorted order is the only one -----

  lemma {:induction false} ValuePositive(k: Text)
    requires k != [] && AllDigits(k) && k[0] != 48
    ensures Value(k) > 0
  {
    if |k| > 1 { ValuePositive(k[..|k| - 1]); }
  }

  lemma {:induction false} ValueIsInjective(a: Text, b: Text)
    requires AllDigits(a) && AllDigits(b) && Value(a) == Value(b)
    requires (a != [] ==> a[0] != 48) && (b != [] ==> b[0] != 48)
    ensures a == b
  {
    if a != [] { ValuePositive(a); }
    if b != [] { ValuePositive(b); }
    if a != [] && b != [] {
      var p, q := a[..|a| - 1], b[..|b| - 1];
      assert Value(p) == Value(q) && a[|a| - 1] == b[|b| - 1];
      ValueIsInjective(p, q);
      assert a == p + [a[|a| - 1]] && b == q + [b[|b| - 1]];
    }
  }

  lemma IndexesDiffer(a: Text, b: Text)
    requires IsIndex(a) && IsIndex(b) && Value(a) == Value(b)
    ensures a == b
  {
    if a[0] == 48 {
      assert a == [48] && Value(a) == 0;
      if b[0] != 48 { ValuePositive(b); }
    } else if b[0] == 48 {
      assert b == [48] && Value(b) == 0;
      ValuePositive(a);
    } else {
      ValueIsInjective(a, b);
    }
  }

  lemma {:induction false} DecimalKey(n: nat)
    ensures var k := Units(Texts.Decimal(n));
            && k != [] && AllDigits(k) && Value(k) == n && (n > 0 ==> k[0] != 48) && (n == 0 ==> k == [48])
  {
    var s := Texts.Decimal(n);
    Texts.DecimalIsRead(n);
    assert Texts.Digit(n % 10) as int == 48 + n % 10;
    if n < 10 {
      assert Units(s)[..0] == [];
    } else {
      DecimalKey(n / 10);
      assert Units(s)[..|s| - 1] == Units(Texts.Decimal(n / 10));
    }
  }

  lemma {:induction false} ValueIsNatural(k: Text)
    requires AllDigits(k)
    ensures Value(k) >= 0
  {
    if k != [] { ValueIsNatural(k[..|k| - 1]); }
  }

  /** The index keys are the plain decimal numerals of the numbers below 2^32 - 1. */
  lemma IndexKeysAreNumerals(k: Text)
    ensures IsIndex(k) <==> exists n: nat :: n < 4294967295 && k == Units(Texts.Decimal(n))
  {
    if IsIndex(k) {
      ValueIsNatural(k);
      DecimalKey(Value(k));
      IndexesDiffer(k, Units(Texts.Decimal(Value(k))));
    }
    if n: nat :| n < 4294967295 && k == Units(Texts.Decimal(n)) {
      DecimalKey(n);
    }
  }

  /**
    The order in which a rebuilt object enumerates its keys: numerals by their number, then all others
    in collation order.
  */
  lemma EnumerationOrder(le: KeyOrder, es: seq<Entry>, i: nat, j: nat)
    requires IsCollation(le) && i < j < |OwnOrder(le, es)|
    ensures var a, b := OwnOrder(le, es)[i].key, OwnOrder(le, es)[j].key;
            && (forall n: nat, m: nat ::
                  n < 4294967295 && m < 4294967295 && a == Units(Texts.Decimal(n)) && b == Units(Texts.Decimal(m)) ==>
                    n <= m)
            && (IsIndex(b) ==> IsIndex(a))
            && (!IsIndex(a) && !IsIndex(b) ==> le(a, b))
  {
    hide OwnOrder, Value;
    OwnOrderSorts(le, es);
    var a, b := OwnOrder(le, es)[i].key, OwnOrder(le, es)[j].key;
    assert Then(IndexOrder, le)(a, b);
    forall n: nat, m: nat
      | n < 4294967295 && m < 4294967295 && a == Units(Texts.Decimal(n)) && b == Units(Texts.Decimal(m))
      ensures n <= m
    {
      DecimalKey(n);
      DecimalKey(m);
      IndexKeysAreNumerals(a);
      IndexKeysAreNumerals(b);
    }
  }

  /** Two keys are tied in the enumeration order exactly when they are equal or collide. */
  lemma TiesCollide(le: KeyOrder, a: Text, b: Text)
    requires IsCollation(le)
    ensures Then(IndexOrder, le)(a, b) && Then(IndexOrder, le)(b, a) <==> a == b || Collide(le, a, b)
  {
    if IsIndex(a) && IsIndex(b) && Value(a) == Value(b) { IndexesDiffer(a, b); }
    assert le(a, a) || a != b;
  }

  /** No two members are tied. */
  ghost predicate Strict(le: KeyOrder, es: seq<Entry>) {
    forall x, y :: x in es && y in es && le(x.key, y.key) && le(y.key, x.key) ==> x == y
  }

  lemma HeadsAgree(le: KeyOrder, a: seq<Entry>, b: seq<Entry>)
    requires a != [] && b != [] && Sorted(le, a) && Sorted(le, b) && SameMembers(a, b) && Strict(le, a)
    ensures a[0] == b[0]
  {
    assert a[0] in b && b[0] in a;
    var p :| 0 <= p < |b| && b[p] == a[0];
    var q :| 0 <= q < |a| && a[q] == b[0];
  }

  lemma DistinctHead(es: seq<Entry>)
    requires es != [] && DistinctKeys(es)
    ensures DistinctKeys(es[1..]) && forall x :: x in es[1..] <==> x in es && x != es[0]
  {
    assert es == [es[0]] + es[1..];
    DistinctCons(es[0], es[1..]);
  }

  lemma TailMembers(a: seq<Entry>, b: seq<Entry>)
    requires a != [] && b != [] && a[0] == b[0] && SameMembers(a, b) && DistinctKeys(a) && DistinctKeys(b)
    ensures SameMembers(a[1..], b[1..]) && DistinctKeys(a[1..]) && DistinctKeys(b[1..])
    ensures a == [a[0]] + a[1..] && b == [b[0]] + b[1..]
  {
    hide DistinctKeys;
    DistinctHead(a);
    DistinctHead(b);
  }

  lemma SortedTail(le: KeyOrder, es: seq<Entry>)
    requires es != [] && Sorted(le, es)
    ensures Sorted(le, es[1..])
  {
  }

  lemma StrictTail(le: KeyOrder, es: seq<Entry>)
    requires es != [] && Strict(le, es)
    ensures Strict(le, es[1..])
  {
  }

  lemma BothEmpty(a: seq<Entry>, b: seq<Entry>)
    requires SameMembers(a, b)
    ensures a == [] <==> b == []
  {
    assert (a != [] ==> a[0] in b) && (b != [] ==> b[0] in a);
  }

  lemma {:induction false} SortedIsUnique(le: KeyOrder, a: seq<Entry>, b: seq<Entry>)
    requires Sorted(le, a) && Sorted(le, b) && SameMembers(a, b) && Strict(le, a)
    requires DistinctKeys(a) && DistinctKeys(b)
    ensures a == b
    decreases |a|
  {
    hide *;
    BothEmpty(a, b);
    if a != [] {
      HeadsAgree(le, a, b);
      TailMembers(a, b);
      SortedTail(le, a);
      SortedTail(le, b);
      StrictTail(le, a);
      SortedIsUnique(le, a[1..], b[1..]);
    }
  }

  /** Colliding keys apart, the enumeration order does not depend on the order of entry. */
  lemma OwnOrderIsUnique(le: KeyOrder, a: seq<Entry>, b: seq<Entry>)
    requires IsCollation(le) && SameMembers(a, b) && DistinctKeys(a) && DistinctKeys(b)
    requires forall i, j :: 0 <= i < j < |a| ==> !Collide(le, a[i].key, a[j].key)
    ensures OwnOrder(le, a) == OwnOrder(le, b)
  {
    var order, s, t := Then(IndexOrder, le), OwnOrder(le, a), OwnOrder(le, b);
    OwnOrderPermutes(le, a);
    OwnOrderPermutes(le, b);
    OwnOrderSorts(le, a);
    OwnOrderSorts(le, b);
    forall x, y | x in s && y in s && order(x.key, y.key) && order(y.key, x.key) ensures x == y {
      TiesCollide(le, x.key, y.key);
      var i :| 0 <= i < |a| && a[i] == x;
      var j :| 0 <= j < |a| && a[j] == y;
    }
    SortedIsUnique(order, s, t);
  }

  /** Sorting looks at keys only: the values may be made canonical before it or after it. */
  lemma {:induction false} SortThenRecurse(le: KeyOrder, es: seq<Entry>)
    ensures SortBy(le, CanonEntries(le, es)) == CanonEntries(le, SortBy(le, es))
  {
    hide Canon;
    if es != [] {
      SortThenRecurse(le, es[1..]);
      assert CanonEntries(le, es)[1..] == CanonEntries(le, es[1..]);
      InsertThenRecurse(le, es[0], SortBy(le, es[1..]));
    }
  }

  lemma {:induction false} InsertThenRecurse(le: KeyOrder, e: Entry, es: seq<Entry>)
    ensures Insert(le, Entry(e.key, Canon(le, e.value)), CanonEntries(le, es)) == CanonEntries(le, Insert(le, e, es))
  {
    hide Canon;
    if es != [] && !le(e.key, es[0].key) {
      InsertThenRecurse(le, e, es[1..]);
      assert CanonEntries(le, es)[1..] == CanonEntries(le, es[1..]);
    }
  }

  // ----- meaning -----

  lemma {:induction false} FieldsHold(es: seq<Entry>)
    requires DistinctKeys(es)
    ensures forall i :: 0 <= i < |es| ==> es[i].key in Fields(es) && Fields(es)[es[i].key] == Denote(es[i].value)
    ensures forall key :: key in Fields(es) ==> !Lacks(es, key)
  {
    hide Denote;
    if es != [] {
      var front, last := es[..|es| - 1], es[|es| - 1];
      FieldsHold(front);
      forall key | key in Fields(es) ensures !Lacks(es, key) {
        if key in Fields(front) {
          var i :| 0 <= i < |front| && front[i].key == key;
          assert es[i].key == key;
        }
      }
      assert forall i :: 0 <= i < |front| ==> front[i] == es[i];
    }
  }

  lemma FieldsDetermined(a: seq<Entry>, b: seq<Entry>)
    requires DistinctKeys(a) && DistinctKeys(b)
    requires forall i :: 0 <= i < |a| ==> Represented(a[i], b)
    requires forall j :: 0 <= j < |b| ==> Represented(b[j], a)
    ensures Fields(a) == Fields(b)
  {
    hide *;
    forall key | key in Fields(a) ensures key in Fields(b) && Fields(b)[key] == Fields(a)[key] {
      FieldCarries(a, b, key);
    }
    forall key | key in Fields(b) ensures key in Fields(a) { FieldCarries(b, a, key); }
  }

  lemma FieldCarries(a: seq<Entry>, b: seq<Entry>, key: Text)
    requires DistinctKeys(a) && DistinctKeys(b) && key in Fields(a)
    requires forall i :: 0 <= i < |a| ==> Represented(a[i], b)
    ensures key in Fields(b) && Fields(b)[key] == Fields(a)[key]
  {
    hide Denote, Fields, DistinctKeys;
    FieldsHold(a);
    FieldsHold(b);
    var i :| 0 <= i < |a| && a[i].key == key;
    assert Represented(a[i], b);
  }

  /** Some entry has this entry's key and a value that means the same. */
  ghost predicate Represented(e: Entry, es: seq<Entry>) {
    exists j :: 0 <= j < |es| && es[j].key == e.key && Denote(es[j].value) == Denote(e.value)
  }

  /** Equal fields represent one another. */
  lemma FieldsRepresent(a: seq<Entry>, b: seq<Entry>, i: nat) returns (j: nat)
    requires DistinctKeys(a) && DistinctKeys(b) && Fields(a) == Fields(b) && i < |a|
    ensures j < |b| && b[j].key == a[i].key && Denote(b[j].value) == Denote(a[i].value)
  {
    FieldsHold(a);
    FieldsHold(b);
    assert a[i].key in Fields(b);
    j :| 0 <= j < |b| && b[j].key == a[i].key;
  }

  lemma CanonObject(le: KeyOrder, es: seq<Entry>)
    ensures Canon(le, Obj(es)) == Obj(OwnOrder(le, CanonEntries(le, es)))
    ensures DistinctKeys(es) ==> DistinctKeys(CanonEntries(le, es)) && DistinctKeys(OwnOrder(le, CanonEntries(le, es)))
  {
    OwnOrderPermutes(le, CanonEntries(le, es));
  }

  /** The canonical form is a value with the same meaning. */
  lemma {:induction false} CanonKeepsMeaning(le: KeyOrder, v: Json)
    requires Valid(v)
    ensures Valid(Canon(le, v)) && Denote(Canon(le, v)) == Denote(v)
  {
    match v
    case Arr(items) =>
      forall i | 0 <= i < |items|
        ensures Valid(Canon(le, items[i])) && Denote(Canon(le, items[i])) == Denote(items[i])
      {
        CanonKeepsMeaning(le, items[i]);
      }
      assert Denote(Canon(le, v)) == Denote(v);
    case Obj(es) =>
      forall i | 0 <= i < |es|
        ensures Valid(Canon(le, es[i].value)) && Denote(Canon(le, es[i].value)) == Denote(es[i].value)
      {
        CanonKeepsMeaning(le, es[i].value);
      }
      EntriesKeepMeaning(le, es);
    case _ =>
  }

  lemma EntriesKeepMeaning(le: KeyOrder, es: seq<Entry>)
    requires DistinctKeys(es)
    requires forall i :: 0 <= i < |es| ==>
               Valid(Canon(le, es[i].value)) && Denote(Canon(le, es[i].value)) == Denote(es[i].value)
    ensures Valid(Canon(le, Obj(es))) && Fields(OwnOrder(le, CanonEntries(le, es))) == Fields(es)
  {
    var c := CanonEntries(le, es);
    var s := OwnOrder(le, c);
    CanonObject(le, es);
    OwnOrderPermutes(le, c);
    forall j | 0 <= j < |s| ensures Valid(s[j].value) && Represented(s[j], es) {
      assert s[j] in c;
      var i :| 0 <= i < |c| && c[i] == s[j];
      assert es[i].key == s[j].key && s[j].value == Canon(le, es[i].value);
    }
    forall i | 0 <= i < |es| ensures Represented(es[i], s) {
      assert c[i] in s;
      var j :| 0 <= j < |s| && s[j] == c[i];
      assert s[j].key == es[i].key && s[j].value == Canon(le, es[i].value);
    }
    FieldsDetermined(s, es);
  }

  /** A fingerprint is JSON text: read as such, it is the value it was made of, up to the order of keys. */
  lemma FingerprintIsReadable(le: KeyOrder, v: Json)
    requires Valid(v)
    ensures JsonReader.Read(Fingerprint(le, v)).Some?
    ensures Denote(JsonReader.Read(Fingerprint(le, v)).value) == Denote(v)
  {
    CanonKeepsMeaning(le, v);
    JsonReader.PrintedIsRead(Canon(le, v));
  }

  /** Equal fingerprints: the values are equal up to the order of keys, whatever the collation. */
  lemma EqualFingerprintsAgree(le: KeyOrder, v: Json, w: Json)
    requires Valid(v) && Valid(w) && Fingerprint(le, v) == Fingerprint(le, w)
    ensures Denote(v) == Denote(w)
  {
    CanonKeepsMeaning(le, v);
    CanonKeepsMeaning(le, w);
    PrintIsInjective(Canon(le, v), Canon(le, w));
  }

  // ----- without collisions a fingerprint is canonical -----

  lemma CanonMembers(le: KeyOrder, a: seq<Entry>, b: seq<Entry>, x: Entry)
    requires forall i :: 0 <= i < |a| ==> CanonIn(le, a[i], b)
    requires x in CanonEntries(le, a)
    ensures x in CanonEntries(le, b)
  {
    hide Canon;
    var c, d := CanonEntries(le, a), CanonEntries(le, b);
    var i :| 0 <= i < |c| && c[i] == x;
    assert CanonIn(le, a[i], b);
    var j :| 0 <= j < |b| && b[j].key == a[i].key && Canon(le, b[j].value) == Canon(le, a[i].value);
    assert d[j] == x;
  }

  ghost predicate CanonIn(le: KeyOrder, e: Entry, es: seq<Entry>) {
    exists j :: 0 <= j < |es| && es[j].key == e.key && Canon(le, es[j].value) == Canon(le, e.value)
  }

  lemma {:induction false} SameMeaningSameCanon(le: KeyOrder, v: Json, w: Json)
    requires IsCollation(le) && Valid(v) && Valid(w) && NoCollision(le, v) && Denote(v) == Denote(w)
    ensures Canon(le, v) == Canon(le, w)
    decreases v
  {
    match v
    case Arr(items) =>
      assert |Denote(v).items| == |Denote(w).items|;
      forall i | 0 <= i < |items| ensures Canon(le, items[i]) == Canon(le, w.items[i]) {
        assert Denote(v).items[i] == Denote(w).items[i];
        SameMeaningSameCanon(le, items[i], w.items[i]);
      }
    case Obj(es) =>
      var fs := w.entries;
      forall i | 0 <= i < |es| ensures CanonIn(le, es[i], fs) {
        var j := FieldsRepresent(es, fs, i);
        SameMeaningSameCanon(le, es[i].value, fs[j].value);
      }
      forall j | 0 <= j < |fs| ensures CanonIn(le, fs[j], es) {
        var i := FieldsRepresent(fs, es, j);
        SameMeaningSameCanon(le, es[i].value, fs[j].value);
      }
      SameCanonObject(le, es, fs);
    case _ =>
  }

  lemma SameCanonObject(le: KeyOrder, es: seq<Entry>, fs: seq<Entry>)
    requires IsCollation(le) && DistinctKeys(es) && DistinctKeys(fs)
    requires forall i, j :: 0 <= i < j < |es| ==> !Collide(le, es[i].key, es[j].key)
    requires forall i :: 0 <= i < |es| ==> CanonIn(le, es[i], fs)
    requires forall j :: 0 <= j < |fs| ==> CanonIn(le, fs[j], es)
    ensures Canon(le, Obj(es)) == Canon(le, Obj(fs))
  {
    hide Canon, OwnOrder, CanonIn, IsCollation;
    forall x ensures x in CanonEntries(le, es) <==> x in CanonEntries(le, fs) {
      if x in CanonEntries(le, es) { CanonMembers(le, es, fs, x); }
      if x in CanonEntries(le, fs) { CanonMembers(le, fs, es, x); }
    }
    CanonObject(le, es);
    CanonObject(le, fs);
    OwnOrderIsUnique(le, CanonEntries(le, es), CanonEntries(le, fs));
  }

  // ----- a collision makes the fingerprint depend on key order -----

  ghost predicate Precedes(es: seq<Entry>, x: Entry, y: Entry) {
    exists i, j :: 0 <= i < j < |es| && es[i] == x && es[j] == y
  }

  lemma PrecedesCons(e: Entry, es: seq<Entry>, x: Entry, y: Entry)
    ensures Precedes([e] + es, x, y) <==> (x == e && y in es) || Precedes(es, x, y)
  {
    var all := [e] + es;
    if Precedes(all, x, y) {
      var i, j :| 0 <= i < j < |all| && all[i] == x && all[j] == y;
      assert es[j - 1] == y;
      if i > 0 { assert es[i - 1] == x; }
    }
    if x == e && y in es {
      var j :| 0 <= j < |es| && es[j] == y;
      assert all[0] == x && all[j + 1] == y;
    }
    if Precedes(es, x, y) {
      var i, j :| 0 <= i < j < |es| && es[i] == x && es[j] == y;
      assert all[i + 1] == x && all[j + 1] == y;
    }
  }

  lemma {:induction false} InsertKeepsOrder(le: KeyOrder, e: Entry, es: seq<Entry>, x: Entry, y: Entry)
    requires Precedes(es, x, y) || (x == e && y in es && le(x.key, y.key))
    ensures Precedes(Insert(le, e, es), x, y)
  {
    if es != [] && !le(e.key, es[0].key) {
      var rest := Insert(le, e, es[1..]);
      assert es == [es[0]] + es[1..];
      PrecedesCons(es[0], es[1..], x, y);
      PrecedesCons(es[0], rest, x, y);
      InsertMembers(le, e, es[1..]);
      if Precedes(es[1..], x, y) || (x == e && y in es[1..] && le(x.key, y.key)) {
        InsertKeepsOrder(le, e, es[1..], x, y);
      }
    } else {
      PrecedesCons(e, es, x, y);
      assert [e] + es == Insert(le, e, es);
    }
  }

  /** A stable sort leaves one entry before another that it does not come after. */
  lemma {:induction false} SortIsStable(le: KeyOrder, es: seq<Entry>, x: Entry, y: Entry)
    requires Precedes(es, x, y) && le(x.key, y.key)
    ensures Precedes(SortBy(le, es), x, y)
  {
    assert es == [es[0]] + es[1..];
    PrecedesCons(es[0], es[1..], x, y);
    SortPermutes(le, es[1..]);
    if Precedes(es[1..], x, y) { SortIsStable(le, es[1..], x, y); }
    InsertKeepsOrder(le, es[0], SortBy(le, es[1..]), x, y);
  }

  lemma CollidingKeepOrder(le: KeyOrder, es: seq<Entry>, x: Entry, y: Entry)
    requires Precedes(es, x, y) && Collide(le, x.key, y.key)
    ensures Precedes(OwnOrder(le, es), x, y)
  {
    SortIsStable(le, es, x, y);
    SortIsStable(IndexOrder, SortBy(le, es), x, y);
  }

  lemma OneOrder(es: seq<Entry>, x: Entry, y: Entry)
    requires DistinctKeys(es) && Precedes(es, x, y)
    ensures !Precedes(es, y, x)
  {
    var i, j :| 0 <= i < j < |es| && es[i] == x && es[j] == y;
    assert forall p :: 0 <= p < |es| && es[p] == y ==> p == j;
    assert forall q :: 0 <= q < |es| && es[q] == x ==> q == i;
  }

  function Swap(es: seq<Entry>, i: nat, j: nat): seq<Entry>
    requires i < j < |es|
  {
    es[i := es[j]][j := es[i]]
  }

  lemma SwapIsReordering(es: seq<Entry>, i: nat, j: nat)
    requires i < j < |es| && DistinctKeys(es)
    ensures DistinctKeys(Swap(es, i, j)) && Fields(Swap(es, i, j)) == Fields(es)
  {
    hide Fields, Denote, Represented, DistinctKeys;
    var fs := Swap(es, i, j);
    forall k | 0 <= k < |es| ensures Represented(es[k], fs) && Represented(fs[k], es) {
      var at := if k == i then j else if k == j then i else k;
      RepresentedAt(es[k], fs, at);
      RepresentedAt(fs[k], es, at);
    }
    SwapKeepsKeys(es, i, j);
    FieldsDetermined(es, fs);
  }

  lemma SwapKeepsKeys(es: seq<Entry>, i: nat, j: nat)
    requires i < j < |es| && DistinctKeys(es)
    ensures DistinctKeys(Swap(es, i, j))
  {
  }

  lemma RepresentedAt(e: Entry, es: seq<Entry>, j: nat)
    requires j < |es| && es[j].key == e.key && Denote(es[j].value) == Denote(e.value)
    ensures Represented(e, es)
  {
  }

  lemma SwapChangesCanon(le: KeyOrder, es: seq<Entry>, i: nat, j: nat)
    requires i < j < |es| && DistinctKeys(es) && Collide(le, es[i].key, es[j].key)
    ensures Canon(le, Obj(Swap(es, i, j))) != Canon(le, Obj(es))
  {
    var fs := Swap(es, i, j);
    var c, d := CanonEntries(le, es), CanonEntries(le, fs);
    assert d[i] == c[j] && d[j] == c[i];
    assert Precedes(c, c[i], c[j]) && Precedes(d, c[j], c[i]);
    CollidingKeepOrder(le, c, c[i], c[j]);
    CollidingKeepOrder(le, d, c[j], c[i]);
    CanonObject(le, es);
    CanonObject(le, fs);
    OneOrder(OwnOrder(le, c), c[i], c[j]);
  }

  lemma ItemChangesCanon(le: KeyOrder, items: seq<Json>, i: nat, w: Json)
    requires i < |items| && Denote(w) == Denote(items[i]) && Canon(le, w) != Canon(le, items[i])
    ensures Denote(Arr(items[i := w])) == Denote(Arr(items))
    ensures Canon(le, Arr(items[i := w])) != Canon(le, Arr(items))
  {
    var a, b := Canon(le, Arr(items)), Canon(le, Arr(items[i := w]));
    assert a.items[i] == Canon(le, items[i]) && b.items[i] == Canon(le, w);
    var x, y := Denote(Arr(items)).items, Denote(Arr(items[i := w])).items;
    assert |x| == |y| && forall k :: 0 <= k < |x| ==> x[k] == y[k];
  }

  lemma EntryKeepsFields(es: seq<Entry>, i: nat, w: Json)
    requires i < |es| && DistinctKeys(es) && Denote(w) == Denote(es[i].value)
    ensures var fs := es[i := Entry(es[i].key, w)];
            DistinctKeys(fs) && Fields(fs) == Fields(es)
  {
    hide Denote, Fields, Represented;
    var fs := es[i := Entry(es[i].key, w)];
    forall k | 0 <= k < |es| ensures Represented(es[k], fs) && Represented(fs[k], es) {
      RepresentedAt(es[k], fs, k);
      RepresentedAt(fs[k], es, k);
    }
    FieldsDetermined(es, fs);
  }

  lemma EntryChangesCanon(le: KeyOrder, es: seq<Entry>, i: nat, w: Json)
    requires i < |es| && DistinctKeys(es) && Canon(le, w) != Canon(le, es[i].value)
    requires DistinctKeys(es[i := Entry(es[i].key, w)])
    ensures Canon(le, Obj(es[i := Entry(es[i].key, w)])) != Canon(le, Obj(es))
  {
    hide Canon, OwnOrder, DistinctKeys;
    var fs := es[i := Entry(es[i].key, w)];
    var c, d := CanonEntries(le, es), CanonEntries(le, fs);
    CanonObject(le, es);
    CanonObject(le, fs);
    OwnOrderPermutes(le, c);
    OwnOrderPermutes(le, d);
    assert c[i] in OwnOrder(le, c) && d[i] in OwnOrder(le, d);
    NotBoth(OwnOrder(le, d), c[i], d[i]);
  }

  lemma NotBoth(es: seq<Entry>, x: Entry, y: Entry)
    requires DistinctKeys(es) && x.key == y.key && x != y && y in es
    ensures x !in es
  {
  }

  /** `w` is a reordering of `v` with another canonical form. */
  ghost predicate Breaks(le: KeyOrder, v: Json, w: Json) {
    Valid(w) && Denote(w) == Denote(v) && Canon(le, w) != Canon(le, v)
  }

  lemma ItemBreaks(le: KeyOrder, items: seq<Json>, i: nat, w: Json)
    requires i < |items| && Valid(Arr(items)) && Breaks(le, items[i], w)
    ensures Breaks(le, Arr(items), Arr(items[i := w]))
  {
    hide Denote, Canon;
    ItemChangesCanon(le, items, i, w);
  }

  lemma SwapBreaks(le: KeyOrder, es: seq<Entry>, i: nat, j: nat)
    requires i < j < |es| && Valid(Obj(es)) && Collide(le, es[i].key, es[j].key)
    ensures Breaks(le, Obj(es), Obj(Swap(es, i, j)))
  {
    hide Fields, Canon;
    SwapIsReordering(es, i, j);
    SwapChangesCanon(le, es, i, j);
  }

  lemma EntryBreaks(le: KeyOrder, es: seq<Entry>, i: nat, w: Json)
    requires i < |es| && Valid(Obj(es)) && Breaks(le, es[i].value, w)
    ensures Breaks(le, Obj(es), Obj(es[i := Entry(es[i].key, w)]))
  {
    hide Fields, Canon;
    EntryKeepsFields(es, i, w);
    EntryChangesCanon(le, es, i, w);
  }

  /** A value with a collision anywhere inside has a reordering with another canonical form. */
  lemma {:induction false} CollisionBreaks(le: KeyOrder, v: Json) returns (w: Json)
    requires Valid(v) && !NoCollision(le, v)
    ensures Breaks(le, v, w)
  {
    hide Breaks, Collide, DistinctKeys;
    match v
    case Arr(items) =>
      var i :| 0 <= i < |items| && !NoCollision(le, items[i]);
      var x := CollisionBreaks(le, items[i]);
      ItemBreaks(le, items, i, x);
      w := Arr(items[i := x]);
    case Obj(es) =>
      if i, j :| 0 <= i < j < |es| && Collide(le, es[i].key, es[j].key) {
        SwapBreaks(le, es, i, j);
        w := Obj(Swap(es, i, j));
      } else {
        var i :| 0 <= i < |es| && !NoCollision(le, es[i].value);
        var x := CollisionBreaks(le, es[i].value);
        EntryBreaks(le, es, i, x);
        w := Obj(es[i := Entry(es[i].key, x)]);
      }
  }

  /** All key orders of a value share its fingerprint exactly when no two of its keys collide. */
  lemma CanonicalIffNoCollision(le: KeyOrder, v: Json)
    requires IsCollation(le) && Valid(v)
    ensures NoCollision(le, v)
            <==> forall w :: Valid(w) && Denote(w) == Denote(v) ==> Fingerprint(le, w) == Fingerprint(le, v)
  {
    if NoCollision(le, v) {
      forall w | Valid(w) && Denote(w) == Denote(v) ensures Fingerprint(le, w) == Fingerprint(le, v) {
        SameMeaningSameCanon(le, v, w);
      }
    } else {
      var w := CollisionBreaks(le, v);
      CanonKeepsMeaning(le, v);
      CanonKeepsMeaning(le, w);
      PrintIsInjective(Canon(le, w), Canon(le, v));
    }
  }

  /** Under a collation without ties, fingerprints are equal exactly when the values are equal up to key order. */
  lemma FingerprintDecides(le: KeyOrder, v: Json, w: Json)
    requires IsCollation(le) && Valid(v) && Valid(w)
    requires forall a, b :: le(a, b) && le(b, a) ==> a == b
    ensures Fingerprint(le, v) == Fingerprint(le, w) <==> Denote(v) == Denote(w)
  {
    if Denote(v) == Denote(w) {
      StrictNeverCollides(le, v);
      SameMeaningSameCanon(le, v, w);
    } else if Fingerprint(le, v) == Fingerprint(le, w) {
      EqualFingerprintsAgree(le, v, w);
    }
  }

  lemma {:induction false} StrictNeverCollides(le: KeyOrder, v: Json)
    requires forall a, b :: le(a, b) && le(b, a) ==> a == b
    ensures NoCollision(le, v)
  {
    match v
    case Arr(items) =>
      forall i | 0 <= i < |items| ensures NoCollision(le, items[i]) { StrictNeverCollides(le, items[i]); }
    case Obj(es) =>
      forall i | 0 <= i < |es| ensures NoCollision(le, es[i].value) { StrictNeverCollides(le, es[i].value); }
    case _ =>
  }

  /** The smallest failure: two colliding keys, entered in either order. */
  lemma TwoCollidingKeys(le: KeyOrder, a: Text, b: Text, x: Json, y: Json)
    requires Collide(le, a, b) && Valid(x) && Valid(y)
    ensures var v, w := Obj([Entry(a, x), Entry(b, y)]), Obj([Entry(b, y), Entry(a, x)]);
            Denote(v) == Denote(w) && Fingerprint(le, v) != Fingerprint(le, w)
  {
    var es := [Entry(a, x), Entry(b, y)];
    var v, w := Obj(es), Obj([Entry(b, y), Entry(a, x)]);
    assert Swap(es, 0, 1) == w.entries;
    SwapIsReordering(es, 0, 1);
    SwapChangesCanon(le, es, 0, 1);
    CanonKeepsMeaning(le, v);
    CanonKeepsMeaning(le, w);
    PrintIsInjective(Canon(le, w), Canon(le, v));
  }
}

/** Aurora's recursive merge of one JSON tree into another (contrib/aurora/crypto.py). */
module AuroraMerge {
  import opened Common

  datatype Json = Null | Bool(b: bool) | Number(r: real) | Text(s: string) | Object(fields: Fields) | Array(items: Items)

  /** The entries of a dict in insertion order. */
  datatype Fields = NoFields | Field(key: string, value: Json, rest: Fields)

  datatype Items = NoItems | Item(head: Json, tail: Items)

  function Get(f: Fields, key: string): Option<Json> {
    if f == NoFields then None else if f.key == key then Some(f.value) else Get(f.rest, key)
  }

  /** `d[key] = value`: in place for a present key, at the end for a new one. */
  function Set(f: Fields, key: string, value: Json): Fields {
    if f == NoFields then Field(key, value, NoFields)
    else if f.key == key then Field(key, value, f.rest)
    else Field(f.key, f.value, Set(f.rest, key, value))
  }

  function Size(f: Fields): nat {
    if f == NoFields then 0 else 1 + Size(f.rest)
  }

  // ----- Python's equality of JSON values -----

  /** True and 1 are equal. */
  function AsNumber(v: Json): Option<real> {
    match v
    case Bool(b) => Some(if b then 1.0 else 0.0)
    case Number(r) => Some(r)
    case _ => None
  }

  predicate PyEq(x: Json, y: Json) {
    match x
    case Object(f) => y.Object? && Size(f) == Size(y.fields) && FieldsEq(f, y.fields)
    case Array(l) => y.Array? && ItemsEq(l, y.items)
    case Null => y.Null?
    case Text(s) => y.Text? && y.s == s
    case _ => AsNumber(x) == AsNumber(y)
  }

  /** Every entry of f is in g; the order of entries does not matter. */
  predicate FieldsEq(f: Fields, g: Fields) {
    f == NoFields || (Get(g, f.key).Some? && PyEq(f.value, Get(g, f.key).value) && FieldsEq(f.rest, g))
  }

  predicate ItemsEq(l: Items, m: Items) {
    if l == NoItems then m == NoItems else m != NoItems && PyEq(l.head, m.head) && ItemsEq(l.tail, m.tail)
  }

  /** No dict has a key twice. */
  predicate Wf(v: Json) {
    match v
    case Object(f) => WfFields(f)
    case Array(l) => WfItems(l)
    case _ => true
  }

  predicate WfFields(f: Fields) {
    f == NoFields || (Wf(f.value) && Get(f.rest, f.key).None? && WfFields(f.rest))
  }

  predicate WfItems(l: Items) {
    l == NoItems || (Wf(l.head) && WfItems(l.tail))
  }

  // ----- the merge; None stands for an exception -----

  function MergeFields(a: Fields, b: Fields, update: bool): Option<Fields>
    decreases b
  {
    if b == NoFields then Some(a)
    else
      var value := MergeValue(Get(a, b.key), b.value, update);
      if value.None? then None else MergeFields(Set(a, b.key, value.value), b.rest, update)
  }

  /** The value that one key gets. Nested dicts are merged with the default `update=True`. */
  function MergeValue(present: Option<Json>, value: Json, update: bool): Option<Json>
    decreases value, 1
  {
    if present.None? then Some(value)
    else if present.value.Object? && value.Object? then
      var fields := MergeFields(present.value.fields, value.fields, true);
      if fields.None? then None else Some(Object(fields.value))
    else if PyEq(present.value, value) then present
    else if present.value.Array? && value.Array? then
      var items := MergeItems(present.value.items, value.items, update);
      if items.None? then None else Some(Array(items.value))
    else if update then Some(value)
    else None
  }

  /** Elementwise; a missing element or one that cannot be merged raises. */
  function MergeItems(xs: Items, ys: Items, update: bool): Option<Items>
    decreases ys
  {
    if ys == NoItems then Some(xs)
    else if xs == NoItems then None
    else
      var head := MergeItem(xs.head, ys.head, update);
      var tail := MergeItems(xs.tail, ys.tail, update);
      if head.None? || tail.None? then None else Some(Item(head.value, tail.value))
  }

  /** `merge` of two list elements: an empty dict leaves anything as it is. */
  function MergeItem(x: Json, y: Json, update: bool): Option<Json>
    decreases y, 0
  {
    if !y.Object? then None
    else if y.fields == NoFields then Some(x)
    else if !x.Object? then None
    else
      var fields := MergeFields(x.fields, y.fields, update);
      if fields.None? then None else Some(Object(fields.value))
  }

  // ----- dicts -----

  lemma {:induction false} GetOfSet(f: Fields, key: string, value: Json, other: string)
    ensures Get(Set(f, key, value), other) == if other == key then Some(value) else Get(f, other)
  {
    if f != NoFields && f.key != key {
      GetOfSet(f.rest, key, value, other);
    }
  }

  lemma {:induction false} SetSame(f: Fields, key: string)
    requires Get(f, key).Some?
    ensures Set(f, key, Get(f, key).value) == f
  {
    if f.key != key {
      SetSame(f.rest, key);
    }
  }

  /** Merging gives every key of b its merged value and leaves the other keys of a alone: the keys are the union. */
  lemma {:induction false} MergedFields(a: Fields, b: Fields, update: bool, key: string)
    requires MergeFields(a, b, update).Some? && WfFields(b)
    ensures var r := MergeFields(a, b, update).value;
      && (Get(b, key).None? ==> Get(r, key) == Get(a, key))
      && (Get(b, key).Some? ==>
            Get(r, key).Some? && Get(r, key) == MergeValue(Get(a, key), Get(b, key).value, update))
      && (Get(r, key).Some? <==> Get(a, key).Some? || Get(b, key).Some?)
    decreases b
  {
    if b != NoFields {
      var value := MergeValue(Get(a, b.key), b.value, update).value;
      MergedFields(Set(a, b.key, value), b.rest, update, key);
      GetOfSet(a, b.key, value, key);
    }
  }

  /** The values of this key cannot be merged. */
  predicate Stuck(a: Fields, b: Fields, key: string, update: bool) {
    Get(b, key).Some? && MergeValue(Get(a, key), Get(b, key).value, update).None?
  }

  /** The merge raises exactly when some key is stuck, whatever happens at the other keys. */
  lemma {:induction false} MergeRaises(a: Fields, b: Fields, update: bool)
    requires WfFields(b)
    ensures MergeFields(a, b, update).None? <==> exists k :: Stuck(a, b, k, update)
    decreases b
  {
    if b == NoFields {
    } else if MergeValue(Get(a, b.key), b.value, update).None? {
      assert Stuck(a, b, b.key, update);
    } else {
      var value := MergeValue(Get(a, b.key), b.value, update).value;
      var next := Set(a, b.key, value);
      MergeRaises(next, b.rest, update);
      forall k ensures Stuck(a, b, k, update) <==> Stuck(next, b.rest, k, update) {
        GetOfSet(a, b.key, value, k);
      }
      if MergeFields(next, b.rest, update).None? {
        var k :| Stuck(next, b.rest, k, update);
        assert Stuck(a, b, k, update);
      }
    }
  }

  // ----- leaves -----

  predicate IsLeaf(v: Json) {
    !v.Object? && !v.Array?
  }

  lemma {:induction false} WfGet(f: Fields, key: string)
    requires WfFields(f) && Get(f, key).Some?
    ensures Wf(Get(f, key).value)
  {
    if f.key != key {
      WfGet(f.rest, key);
    }
  }

  // ----- paths through dicts and lists -----

  datatype Step = Key(key: string) | Index(index: nat)

  function Length(l: Items): nat {
    if l == NoItems then 0 else 1 + Length(l.tail)
  }

  function Element(l: Items, i: nat): Option<Json> {
    if l == NoItems then None else if i == 0 then Some(l.head) else Element(l.tail, i - 1)
  }

  function Child(v: Json, step: Step): Option<Json> {
    match step
    case Key(k) => if v.Object? then Get(v.fields, k) else None
    case Index(i) => if v.Array? then Element(v.items, i) else None
  }

  /** The value at a path of keys and list positions. */
  function Reach(v: Json, path: seq<Step>): Option<Json>
    decreases |path|
  {
    if path == [] then Some(v) else if Child(v, path[0]).None? then None else Reach(Child(v, path[0]).value, path[1..])
  }

  lemma {:induction false} ElementExists(l: Items, i: nat)
    ensures Element(l, i).Some? <==> i < Length(l)
  {
    if l != NoItems && i > 0 {
      ElementExists(l.tail, i - 1);
    }
  }

  // ----- equality, by keys and positions -----

  function Keys(f: Fields): set<string> {
    if f == NoFields then {} else {f.key} + Keys(f.rest)
  }

  lemma {:induction false} KeysAreFound(f: Fields, key: string)
    ensures key in Keys(f) <==> Get(f, key).Some?
  {
    if f != NoFields {
      KeysAreFound(f.rest, key);
    }
  }

  lemma {:induction false} SizeCountsKeys(f: Fields)
    requires WfFields(f)
    ensures |Keys(f)| == Size(f)
  {
    if f != NoFields {
      SizeCountsKeys(f.rest);
      KeysAreFound(f.rest, f.key);
    }
  }

  predicate EntryEq(f: Fields, g: Fields, key: string) {
    Get(f, key).Some? && Get(g, key).Some? && PyEq(Get(f, key).value, Get(g, key).value)
  }

  lemma {:induction false} FieldsEqByKey(f: Fields, g: Fields)
    requires WfFields(f)
    ensures FieldsEq(f, g) <==> forall key :: key in Keys(f) ==> EntryEq(f, g, key)
  {
    if f != NoFields {
      FieldsEqByKey(f.rest, g);
      KeysAreFound(f.rest, f.key);
      assert f.key in Keys(f);
      assert EntryEq(f, g, f.key) <==> Get(g, f.key).Some? && PyEq(f.value, Get(g, f.key).value);
      forall key | key in Keys(f.rest) ensures EntryEq(f, g, key) <==> EntryEq(f.rest, g, key) {
        KeysAreFound(f.rest, key);
      }
    }
  }

  lemma SameSize(f: Fields, g: Fields)
    requires WfFields(f) && WfFields(g) && Keys(f) <= Keys(g)
    ensures Size(f) == Size(g) <==> Keys(f) == Keys(g)
  {
    SizeCountsKeys(f);
    SizeCountsKeys(g);
    assert |Keys(g) - Keys(f)| == |Keys(g)| - |Keys(f)|;
  }

  /** Two dicts are equal when they have the same keys, in any order, with equal values. */
  lemma DictsEqual(f: Fields, g: Fields)
    requires WfFields(f) && WfFields(g)
    ensures PyEq(Object(f), Object(g)) <==> Keys(f) == Keys(g) && forall key :: key in Keys(f) ==> EntryEq(f, g, key)
  {
    FieldsEqByKey(f, g);
    if forall key :: key in Keys(f) ==> EntryEq(f, g, key) {
      forall key | key in Keys(f) ensures key in Keys(g) {
        KeysAreFound(g, key);
        assert EntryEq(f, g, key);
      }
      SameSize(f, g);
    }
  }

  predicate PositionEq(l: Items, m: Items, i: nat) {
    Element(l, i).Some? && Element(m, i).Some? && PyEq(Element(l, i).value, Element(m, i).value)
  }

  /** Two lists are equal when they have the same length and equal elements. */
  lemma {:induction false} ListsEqual(l: Items, m: Items)
    ensures ItemsEq(l, m) <==> Length(l) == Length(m) && forall i: nat :: i < Length(l) ==> PositionEq(l, m, i)
  {
    if l != NoItems && m != NoItems {
      ListsEqual(l.tail, m.tail);
      assert PositionEq(l, m, 0) <==> PyEq(l.head, m.head);
      forall i: nat ensures PositionEq(l, m, i + 1) <==> PositionEq(l.tail, m.tail, i) {
      }
      if ItemsEq(l, m) {
        forall i: nat | i < Length(l) ensures PositionEq(l, m, i) {
          assert i > 0 ==> PositionEq(l.tail, m.tail, i - 1);
        }
      }
    }
  }

  /** True is 1 and False is 0; otherwise values of different kinds differ. */
  lemma ScalarsEqual(b: bool, c: bool, r: real, q: real, y: Json)
    ensures PyEq(Bool(b), Number(r)) <==> r == if b then 1.0 else 0.0
    ensures PyEq(Number(r), Bool(b)) <==> r == if b then 1.0 else 0.0
    ensures PyEq(Bool(b), Bool(c)) <==> b == c
    ensures PyEq(Number(r), Number(q)) <==> r == q
    ensures PyEq(Null, y) <==> y == Null
    ensures forall s: string :: PyEq(Text(s), y) <==> y == Text(s)
  {
  }

  // ----- lists -----

  /** What one element of a list merge is: the key-wise merge of two dicts, or the first element where the second is empty. */
  predicate ElementMerged(x: Json, y: Json, update: bool, z: Json) {
    && y.Object?
    && if y.fields == NoFields then z == x
       else x.Object? && z.Object? && MergeFields(x.fields, y.fields, update) == Some(z.fields)
  }

  /** The element cannot be merged: not a dict, or a dict for something that is none, or dicts that conflict. */
  predicate ElementStuck(x: Json, y: Json, update: bool) {
    !y.Object? || (y.fields != NoFields && (!x.Object? || MergeFields(x.fields, y.fields, update).None?))
  }

  predicate MergedAt(xs: Items, ys: Items, zs: Items, update: bool, i: nat) {
    && Element(xs, i).Some? && Element(ys, i).Some? && Element(zs, i).Some?
    && ElementMerged(Element(xs, i).value, Element(ys, i).value, update, Element(zs, i).value)
  }

  predicate StuckAt(xs: Items, ys: Items, update: bool, i: nat) {
    && Element(xs, i).Some? && Element(ys, i).Some?
    && ElementStuck(Element(xs, i).value, Element(ys, i).value, update)
  }

  lemma {:induction false} ItemsByElement(xs: Items, ys: Items, update: bool)
    requires MergeItems(xs, ys, update).Some?
    ensures var zs := MergeItems(xs, ys, update).value;
      && Length(zs) == Length(xs) && Length(ys) <= Length(xs)
      && (forall i: nat :: i < Length(ys) ==> MergedAt(xs, ys, zs, update, i))
      && (forall i: nat :: i >= Length(ys) ==> Element(zs, i) == Element(xs, i))
    decreases ys
  {
    if ys != NoItems {
      ItemsByElement(xs.tail, ys.tail, update);
      var zs := MergeItems(xs, ys, update).value;
      forall i: nat | i < Length(ys) ensures MergedAt(xs, ys, zs, update, i) {
        assert i > 0 ==> MergedAt(xs.tail, ys.tail, zs.tail, update, i - 1);
      }
    }
  }

  lemma {:induction false} ItemsRaise(xs: Items, ys: Items, update: bool)
    ensures MergeItems(xs, ys, update).None? <==> Length(ys) > Length(xs) || exists i: nat :: StuckAt(xs, ys, update, i)
    decreases ys
  {
    if ys == NoItems {
      assert forall i: nat :: Element(ys, i).None?;
    } else if xs != NoItems {
      ItemsRaise(xs.tail, ys.tail, update);
      forall i: nat ensures StuckAt(xs, ys, update, i + 1) <==> StuckAt(xs.tail, ys.tail, update, i) {
      }
      assert StuckAt(xs, ys, update, 0) <==> MergeItem(xs.head, ys.head, update).None?;
      if i: nat :| StuckAt(xs, ys, update, i) {
        assert i > 0 ==> StuckAt(xs.tail, ys.tail, update, i - 1);
      }
      if i: nat :| StuckAt(xs.tail, ys.tail, update, i) {
        assert StuckAt(xs, ys, update, i + 1);
      }
    }
  }

  /**
   * Where two different lists meet, the result has the length of the first one; each of its elements
   * is the key-wise merge of the two elements, and the first list's where the second has none left.
   */
  lemma ListsMergeByElement(a: Fields, b: Fields, update: bool, key: string)
    requires WfFields(b) && MergeFields(a, b, update).Some?
    requires Get(a, key).Some? && Get(a, key).value.Array? && Get(b, key).Some? && Get(b, key).value.Array?
    requires !PyEq(Get(a, key).value, Get(b, key).value)
    ensures var xs, ys, merged := Get(a, key).value.items, Get(b, key).value.items, Get(MergeFields(a, b, update).value, key);
      && merged.Some? && merged.value.Array? && Length(merged.value.items) == Length(xs) && Length(ys) <= Length(xs)
      && (forall i: nat :: i < Length(ys) ==> MergedAt(xs, ys, merged.value.items, update, i))
      && (forall i: nat :: i >= Length(ys) ==> Element(merged.value.items, i) == Element(xs, i))
  {
    MergedFields(a, b, update, key);
    ItemsByElement(Get(a, key).value.items, Get(b, key).value.items, update);
  }

  /** Two different lists under one key raise exactly when the second is longer or an element cannot be merged. */
  lemma ListMergeRaises(a: Fields, key: string, ys: Items, update: bool)
    requires Get(a, key).Some? && Get(a, key).value.Array? && !PyEq(Get(a, key).value, Array(ys))
    ensures var xs := Get(a, key).value.items;
      MergeFields(a, Field(key, Array(ys), NoFields), update).None? <==>
        Length(ys) > Length(xs) || exists i: nat :: StuckAt(xs, ys, update, i)
  {
    ItemsRaise(Get(a, key).value.items, ys, update);
  }

  // ----- leaves of both trees -----

  function KeySet(f: Fields): set<string> {
    if f == NoFields then {} else {f.key} + KeySet(f.rest)
  }

  lemma {:induction false} KeySetIs(f: Fields)
    ensures forall k :: k in KeySet(f) <==> Get(f, k).Some?
    ensures WfFields(f) ==> |KeySet(f)| == Size(f)
  {
    if f != NoFields {
      KeySetIs(f.rest);
    }
  }

  lemma {:induction false} FieldsEqAt(f: Fields, g: Fields, key: string)
    requires FieldsEq(f, g) && Get(f, key).Some?
    ensures Get(g, key).Some? && PyEq(Get(f, key).value, Get(g, key).value)
  {
    if f.key != key {
      FieldsEqAt(f.rest, g, key);
    }
  }

  lemma {:induction false} ItemsEqAt(l: Items, m: Items, i: nat)
    requires ItemsEq(l, m)
    ensures Element(l, i).Some? == Element(m, i).Some?
    ensures Element(l, i).Some? ==> PyEq(Element(l, i).value, Element(m, i).value)
  {
    if l != NoItems && i > 0 {
      ItemsEqAt(l.tail, m.tail, i - 1);
    }
  }

  /** Equal dicts have the same keys. */
  lemma SameKeys(f: Fields, g: Fields)
    requires WfFields(f) && WfFields(g) && Size(f) == Size(g) && FieldsEq(f, g)
    ensures KeySet(f) == KeySet(g)
  {
    KeySetIs(f);
    KeySetIs(g);
    forall k | k in KeySet(f) ensures k in KeySet(g) {
      FieldsEqAt(f, g, k);
    }
    assert KeySet(g) == KeySet(f) + (KeySet(g) - KeySet(f));
  }

  lemma EqualChildren(x: Json, y: Json, step: Step)
    requires Wf(x) && Wf(y) && PyEq(x, y) && Child(y, step).Some?
    ensures Child(x, step).Some? && PyEq(Child(x, step).value, Child(y, step).value)
  {
    match step {
      case Key(k) =>
        SameKeys(x.fields, y.fields);
        KeySetIs(x.fields);
        KeySetIs(y.fields);
        FieldsEqAt(x.fields, y.fields, k);
      case Index(i) => ItemsEqAt(x.items, y.items, i);
    }
  }

  lemma {:induction false} WfElement(l: Items, i: nat)
    requires WfItems(l) && Element(l, i).Some?
    ensures Wf(Element(l, i).value)
  {
    if i > 0 {
      WfElement(l.tail, i - 1);
    }
  }

  lemma WfChild(v: Json, step: Step)
    requires Wf(v) && Child(v, step).Some?
    ensures Wf(Child(v, step).value)
  {
    match step {
      case Key(k) => WfGet(v.fields, k);
      case Index(i) => WfElement(v.items, i);
    }
  }

  lemma {:induction false} EqualAtPath(x: Json, y: Json, path: seq<Step>)
    requires Wf(x) && Wf(y) && PyEq(x, y) && Reach(y, path).Some?
    ensures Reach(x, path).Some? && PyEq(Reach(x, path).value, Reach(y, path).value)
    decreases |path|
  {
    if path != [] {
      EqualChildren(x, y, path[0]);
      WfChild(x, path[0]);
      WfChild(y, path[0]);
      EqualAtPath(Child(x, path[0]).value, Child(y, path[0]).value, path[1..]);
    }
  }

  /** Every leaf of the second tree is at its place in the result, up to Python's equality. */
  lemma {:induction false} SecondLeavesStay(a: Fields, b: Fields, update: bool, path: seq<Step>)
    requires WfFields(a) && WfFields(b) && MergeFields(a, b, update).Some?
    requires Reach(Object(b), path).Some? && IsLeaf(Reach(Object(b), path).value)
    ensures var r := Reach(Object(MergeFields(a, b, update).value), path);
      r.Some? && PyEq(r.value, Reach(Object(b), path).value)
    decreases |path|, 1
  {
    var key := path[0].key;
    MergedFields(a, b, update, key);
    WfGet(b, key);
    if Get(a, key).Some? {
      WfGet(a, key);
    }
    SecondLeafStays(Get(a, key), Get(b, key).value, update, path[1..]);
  }

  lemma {:induction false} SecondLeafStays(present: Option<Json>, value: Json, update: bool, path: seq<Step>)
    requires (present.Some? ==> Wf(present.value)) && Wf(value) && MergeValue(present, value, update).Some?
    requires Reach(value, path).Some? && IsLeaf(Reach(value, path).value)
    ensures var r := Reach(MergeValue(present, value, update).value, path);
      r.Some? && PyEq(r.value, Reach(value, path).value)
    decreases |path|, 2
  {
    if present.None? {
    } else if present.value.Object? && value.Object? {
      SecondLeavesStay(present.value.fields, value.fields, true, path);
    } else if PyEq(present.value, value) {
      EqualAtPath(present.value, value, path);
    } else if present.value.Array? && value.Array? {
      SecondLeafOfListStays(present.value.items, value.items, update, path);
    }
  }

  lemma {:induction false} SecondLeafOfListStays(xs: Items, ys: Items, update: bool, path: seq<Step>)
    requires WfItems(xs) && WfItems(ys) && MergeItems(xs, ys, update).Some?
    requires Reach(Array(ys), path).Some? && IsLeaf(Reach(Array(ys), path).value)
    ensures var r := Reach(Array(MergeItems(xs, ys, update).value), path);
      r.Some? && PyEq(r.value, Reach(Array(ys), path).value)
    decreases |path|, 0
  {
    var i := path[0].index;
    ItemsByElement(xs, ys, update);
    ElementExists(ys, i);
    assert MergedAt(xs, ys, MergeItems(xs, ys, update).value, update, i);
    var x, y := Element(xs, i).value, Element(ys, i).value;
    WfElement(xs, i);
    WfElement(ys, i);
    assert y.fields != NoFields;
    SecondLeavesStay(x.fields, y.fields, update, path[1..]);
  }

  /** The second tree has nothing at this place of the first one: a missing key, a list that ended, or an empty dict in a list. */
  predicate NothingAt(x: Json, y: Json, path: seq<Step>)
    decreases |path|
  {
    path != [] &&
      match path[0]
      case Key(k) =>
        x.Object? && y.Object?
        && (Get(y.fields, k).None?
            || (Get(x.fields, k).Some? && NothingAt(Get(x.fields, k).value, Get(y.fields, k).value, path[1..])))
      case Index(i) =>
        x.Array? && y.Array?
        && (Element(y.items, i).None? || Element(y.items, i) == Some(Object(NoFields))
            || (Element(x.items, i).Some? && NothingAt(Element(x.items, i).value, Element(y.items, i).value, path[1..])))
  }

  /** Where the second tree has nothing, the result is what the first one has. */
  lemma {:induction false} FirstTreeStays(a: Fields, b: Fields, update: bool, path: seq<Step>)
    requires WfFields(b) && MergeFields(a, b, update).Some?
    requires NothingAt(Object(a), Object(b), path)
    ensures Reach(Object(MergeFields(a, b, update).value), path) == Reach(Object(a), path)
    decreases |path|, 1
  {
    var key := path[0].key;
    MergedFields(a, b, update, key);
    if Get(b, key).Some? {
      WfGet(b, key);
      FirstValueStays(Get(a, key).value, Get(b, key).value, update, path[1..]);
    }
  }

  lemma {:induction false} FirstValueStays(present: Json, value: Json, update: bool, path: seq<Step>)
    requires Wf(value) && MergeValue(Some(present), value, update).Some? && NothingAt(present, value, path)
    ensures Reach(MergeValue(Some(present), value, update).value, path) == Reach(present, path)
    decreases |path|, 2
  {
    if present.Object? && value.Object? {
      FirstTreeStays(present.fields, value.fields, true, path);
    } else if !PyEq(present, value) {
      var i := path[0].index;
      ItemsByElement(present.items, value.items, update);
      ElementExists(value.items, i);
      assert i < Length(value.items) ==>
        MergedAt(present.items, value.items, MergeItems(present.items, value.items, update).value, update, i);
      if i < Length(value.items) && Element(value.items, i) != Some(Object(NoFields)) {
        WfElement(value.items, i);
        FirstTreeStays(Element(present.items, i).value.fields, Element(value.items, i).value.fields, update, path[1..]);
      }
    }
  }

  /** Every leaf of the result is, at the same place, a leaf of one of the two trees. */
  lemma {:induction false} NothingIsInvented(a: Fields, b: Fields, update: bool, path: seq<Step>)
    requires WfFields(b) && MergeFields(a, b, update).Some?
    requires var r := Reach(Object(MergeFields(a, b, update).value), path); r.Some? && IsLeaf(r.value)
    ensures var r := Reach(Object(MergeFields(a, b, update).value), path);
      r == Reach(Object(a), path) || r == Reach(Object(b), path)
    decreases |path|, 1
  {
    var key := path[0].key;
    MergedFields(a, b, update, key);
    if Get(b, key).Some? {
      WfGet(b, key);
      ValueIsNotInvented(Get(a, key), Get(b, key).value, update, path[1..]);
    }
  }

  lemma {:induction false} ValueIsNotInvented(present: Option<Json>, value: Json, update: bool, path: seq<Step>)
    requires Wf(value) && MergeValue(present, value, update).Some?
    requires var r := Reach(MergeValue(present, value, update).value, path); r.Some? && IsLeaf(r.value)
    ensures var r := Reach(MergeValue(present, value, update).value, path);
      r == Reach(value, path) || (present.Some? && r == Reach(present.value, path))
    decreases |path|, 2
  {
    if present.None? {
    } else if present.value.Object? && value.Object? {
      NothingIsInvented(present.value.fields, value.fields, true, path);
    } else if PyEq(present.value, value) {
    } else if present.value.Array? && value.Array? {
      var xs, ys, i := present.value.items, value.items, path[0].index;
      ItemsByElement(xs, ys, update);
      ElementExists(ys, i);
      assert i < Length(ys) ==> MergedAt(xs, ys, MergeItems(xs, ys, update).value, update, i);
      if i < Length(ys) && Element(ys, i) != Some(Object(NoFields)) {
        WfElement(ys, i);
        NothingIsInvented(Element(xs, i).value.fields, Element(ys, i).value.fields, update, path[1..]);
      }
    }
  }

  // ----- where a merge raises -----

  /**
   * The two trees conflict at the end of the path. A path goes on through dicts on both sides and
   * through the elements of lists that differ; it ends where the second list is longer, where an
   * element of it is no dict or meets something that is none, or, without `update`, where two values
   * differ. Inside nested dicts `update` is True again.
   */
  ghost predicate Conflict(a: Fields, b: Fields, update: bool, path: seq<Step>)
    decreases |path|
  {
    path != [] && path[0].Key? && Get(a, path[0].key).Some? && Get(b, path[0].key).Some? &&
      var x, y := Get(a, path[0].key).value, Get(b, path[0].key).value;
      if x.Object? && y.Object? then Conflict(x.fields, y.fields, true, path[1..])
      else if PyEq(x, y) then false
      else if x.Array? && y.Array? then ListConflict(x.items, y.items, update, path[1..])
      else !update && |path| == 1
  }

  ghost predicate ListConflict(xs: Items, ys: Items, update: bool, path: seq<Step>)
    decreases |path|
  {
    if path == [] then Length(ys) > Length(xs)
    else
      path[0].Index? && Element(xs, path[0].index).Some? && Element(ys, path[0].index).Some? &&
        var x, y := Element(xs, path[0].index).value, Element(ys, path[0].index).value;
        if !y.Object? then |path| == 1
        else if y.fields == NoFields then false
        else if !x.Object? then |path| == 1
        else Conflict(x.fields, y.fields, update, path[1..])
  }

  lemma ConflictRaises(a: Fields, b: Fields, update: bool, path: seq<Step>)
    requires WfFields(b) && Conflict(a, b, update, path)
    ensures MergeFields(a, b, update).None?
    decreases |path|, 1
  {
    var key := path[0].key;
    var x, y := Get(a, key).value, Get(b, key).value;
    WfGet(b, key);
    if x.Object? && y.Object? {
      ConflictRaises(x.fields, y.fields, true, path[1..]);
    } else if x.Array? && y.Array? {
      ListConflictRaises(x.items, y.items, update, path[1..]);
    }
    assert Stuck(a, b, key, update);
    MergeRaises(a, b, update);
  }

  lemma ListConflictRaises(xs: Items, ys: Items, update: bool, path: seq<Step>)
    requires WfItems(ys) && ListConflict(xs, ys, update, path)
    ensures MergeItems(xs, ys, update).None?
    decreases |path|, 0
  {
    ItemsRaise(xs, ys, update);
    if path != [] {
      var i := path[0].index;
      WfElement(ys, i);
      var x, y := Element(xs, i).value, Element(ys, i).value;
      if y.Object? && x.Object? {
        ConflictRaises(x.fields, y.fields, update, path[1..]);
      }
      assert StuckAt(xs, ys, update, i);
    }
  }

  lemma {:induction false} RaisingConflicts(a: Fields, b: Fields, update: bool) returns (path: seq<Step>)
    requires WfFields(b) && MergeFields(a, b, update).None?
    ensures Conflict(a, b, update, path)
    decreases b, 1
  {
    MergeRaises(a, b, update);
    var key :| Stuck(a, b, key, update);
    var x, y := Get(a, key).value, Get(b, key).value;
    WfGet(b, key);
    GetIsSmaller(b, key);
    path := [Key(key)];
    if x.Object? && y.Object? {
      var rest := RaisingConflicts(x.fields, y.fields, true);
      path := [Key(key)] + rest;
      assert path[1..] == rest;
    } else if x.Array? && y.Array? {
      var rest := RaisingListConflicts(x.items, y.items, update);
      path := [Key(key)] + rest;
      assert path[1..] == rest;
    }
  }

  lemma {:induction false} RaisingListConflicts(xs: Items, ys: Items, update: bool) returns (path: seq<Step>)
    requires WfItems(ys) && MergeItems(xs, ys, update).None?
    ensures ListConflict(xs, ys, update, path)
    decreases ys, 0
  {
    ItemsRaise(xs, ys, update);
    if Length(ys) > Length(xs) {
      return [];
    }
    var i: nat :| StuckAt(xs, ys, update, i);
    var x, y := Element(xs, i).value, Element(ys, i).value;
    WfElement(ys, i);
    ElementIsSmaller(ys, i);
    path := [Index(i)];
    if y.Object? && x.Object? {
      var rest := RaisingConflicts(x.fields, y.fields, update);
      path := [Index(i)] + rest;
      assert path[1..] == rest;
    }
  }

  lemma {:induction false} ElementIsSmaller(l: Items, i: nat)
    requires Element(l, i).Some?
    ensures Element(l, i).value < l
  {
    if i > 0 {
      ElementIsSmaller(l.tail, i - 1);
    }
  }

  ghost predicate ConflictAt(a: Fields, b: Fields, update: bool, path: seq<Step>) {
    Conflict(a, b, update, path)
  }

  /** The merge raises exactly when the trees conflict somewhere. */
  lemma MergeRaisesAtConflicts(a: Fields, b: Fields, update: bool)
    requires WfFields(b)
    ensures MergeFields(a, b, update).None? <==> exists path :: ConflictAt(a, b, update, path)
  {
    if MergeFields(a, b, update).None? {
      var path := RaisingConflicts(a, b, update);
      assert ConflictAt(a, b, update, path);
    } else if path :| ConflictAt(a, b, update, path) {
      ConflictRaises(a, b, update, path);
    }
  }

  // ----- idempotence -----

  lemma {:induction false} PyEqReflexive(v: Json)
    requires Wf(v)
    ensures PyEq(v, v)
  {
    match v {
      case Object(f) => FieldsEqReflexive(f, f);
      case Array(l) => ItemsEqReflexive(l);
      case _ =>
    }
  }

  lemma {:induction false} FieldsEqReflexive(f: Fields, g: Fields)
    requires WfFields(f) && forall k :: Get(f, k).Some? ==> Get(g, k) == Get(f, k)
    ensures FieldsEq(f, g)
  {
    if f != NoFields {
      assert Get(f, f.key) == Some(f.value);
      PyEqReflexive(f.value);
      forall k | Get(f.rest, k).Some? ensures Get(g, k) == Get(f.rest, k) {
        assert k != f.key;
        assert Get(f, k) == Get(f.rest, k);
      }
      FieldsEqReflexive(f.rest, g);
    }
  }

  lemma {:induction false} ItemsEqReflexive(l: Items)
    requires WfItems(l)
    ensures ItemsEq(l, l)
  {
    if l != NoItems {
      PyEqReflexive(l.head);
      ItemsEqReflexive(l.tail);
    }
  }

  /** Merging b again finds every key settled. */
  lemma {:induction false} SettledFields(r: Fields, b: Fields, update: bool)
    requires WfFields(b)
    requires forall k :: Get(b, k).Some? ==>
      Get(r, k).Some? && MergeValue(Get(r, k), Get(b, k).value, update) == Get(r, k)
    ensures MergeFields(r, b, update) == Some(r)
  {
    if b != NoFields {
      assert Get(b, b.key) == Some(b.value);
      SetSame(r, b.key);
      forall k | Get(b.rest, k).Some?
        ensures Get(r, k).Some? && MergeValue(Get(r, k), Get(b.rest, k).value, update) == Get(r, k)
      {
        assert Get(b, k) == Get(b.rest, k);
      }
      SettledFields(r, b.rest, update);
    }
  }

  /** A dict merged with itself is itself. */
  lemma {:induction false} SelfMerge(v: Json, update: bool)
    requires Wf(v)
    ensures MergeValue(Some(v), v, update) == Some(v)
    decreases v
  {
    if v.Object? {
      forall k | Get(v.fields, k).Some? ensures MergeValue(Get(v.fields, k), Get(v.fields, k).value, true) == Get(v.fields, k) {
        WfGet(v.fields, k);
        GetIsSmaller(v.fields, k);
        SelfMerge(Get(v.fields, k).value, true);
      }
      SettledFields(v.fields, v.fields, true);
    } else {
      PyEqReflexive(v);
    }
  }

  lemma {:induction false} GetIsSmaller(f: Fields, key: string)
    requires Get(f, key).Some?
    ensures Get(f, key).value < f
  {
    if f.key != key {
      GetIsSmaller(f.rest, key);
    }
  }

  lemma {:induction false} MergeValueTwice(present: Option<Json>, value: Json, update: bool)
    requires Wf(value) && MergeValue(present, value, update).Some?
    ensures MergeValue(MergeValue(present, value, update), value, update) == MergeValue(present, value, update)
    decreases value, 1
  {
    if present.None? {
      SelfMerge(value, update);
    } else if present.value.Object? && value.Object? {
      MergeTwice(present.value.fields, value.fields, true);
    } else if PyEq(present.value, value) {
    } else if present.value.Array? && value.Array? {
      MergeItemsTwice(present.value.items, value.items, update);
    } else {
      SelfMerge(value, update);
    }
  }

  lemma {:induction false} MergeItemsTwice(xs: Items, ys: Items, update: bool)
    requires WfItems(ys) && MergeItems(xs, ys, update).Some?
    ensures MergeItems(MergeItems(xs, ys, update).value, ys, update) == MergeItems(xs, ys, update)
    decreases ys
  {
    if ys != NoItems {
      if ys.head.fields != NoFields {
        MergeTwice(xs.head.fields, ys.head.fields, update);
      }
      MergeItemsTwice(xs.tail, ys.tail, update);
    }
  }

  /** Idempotence: wherever the merge is defined, merging the same second tree again changes nothing. */
  lemma {:induction false} MergeTwice(a: Fields, b: Fields, update: bool)
    requires WfFields(b) && MergeFields(a, b, update).Some?
    ensures MergeFields(MergeFields(a, b, update).value, b, update) == MergeFields(a, b, update)
    decreases b, 0
  {
    var r := MergeFields(a, b, update).value;
    forall k | Get(b, k).Some?
      ensures Get(r, k).Some? && MergeValue(Get(r, k), Get(b, k).value, update) == Get(r, k)
    {
      MergedFields(a, b, update, k);
      WfGet(b, k);
      GetIsSmaller(b, k);
      MergeValueTwice(Get(a, k), Get(b, k).value, update);
    }
    SettledFields(r, b, update);
  }

  // ----- the loop -----

  method Merge(a: Fields, b: Fields, update: bool) returns (r: Option<Fields>)
    ensures r == MergeFields(a, b, update)
    decreases b, 0
  {
    var merged, rest := a, b;
    while rest != NoFields
      invariant MergeFields(merged, rest, update) == MergeFields(a, b, update)
      invariant rest == b || rest < b
      decreases rest
    {
      var value := MergeOne(Get(merged, rest.key), rest.value, update);
      if value.None? {
        return None;
      }
      merged := Set(merged, rest.key, value.value);
      rest := rest.rest;
    }
    return Some(merged);
  }

  method MergeOne(present: Option<Json>, value: Json, update: bool) returns (r: Option<Json>)
    ensures r == MergeValue(present, value, update)
    decreases value, 1
  {
    if present.None? {
      return Some(value);
    }
    if present.value.Object? && value.Object? {
      var fields := Merge(present.value.fields, value.fields, true);
      return if fields.None? then None else Some(Object(fields.value));
    }
    if PyEq(present.value, value) {
      return present;
    }
    if present.value.Array? && value.Array? {
      var items := MergeList(present.value.items, value.items, update);
      return if items.None? then None else Some(Array(items.value));
    }
    return if update then Some(value) else None;
  }

  method MergeList(xs: Items, ys: Items, update: bool) returns (r: Option<Items>)
    ensures r == MergeItems(xs, ys, update)
    decreases ys, 0
  {
    if ys == NoItems {
      return Some(xs);
    }
    if xs == NoItems || !ys.head.Object? {
      return None;
    }
    var head := xs.head;
    if ys.head.fields != NoFields {
      if !xs.head.Object? {
        return None;
      }
      var fields := Merge(xs.head.fields, ys.head.fields, update);
      if fields.None? {
        return None;
      }
      head := Object(fields.value);
    }
    var tail := MergeList(xs.tail, ys.tail, update);
    return if tail.None? then None else Some(Item(head, tail.value));
  }
}

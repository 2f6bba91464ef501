/** JSON values as the runtime keeps them, the key-sorting canonical form, and the order in which stored
    values may come back. */
module CanonicalJson {

  /** Keys are strings of UTF-16 code units, which is what the comparison of strings looks at. */
  type CodeUnit = u: int | 0 <= u < 0x10000

  type Key = seq<CodeUnit>

  datatype Number = Whole(n: int) | Fraction(f: real) | NotFinite

  datatype Json =
    | Null
    | Bool(b: bool)
    | Num(number: Number)
    | Str(text: Key)
    | Arr(items: seq<Json>)
    | Obj(fields: seq<Field>)

  datatype Field = Field(key: Key, value: Json)

  // ---------------------------------------------------------------- orders on keys

  predicate CodeUnitLess(a: Key, b: Key) {
    b != [] && (a == [] || a[0] < b[0] || (a[0] == b[0] && CodeUnitLess(a[1..], b[1..])))
  }

  predicate Decimal(key: Key) {
    && key != [] && (|key| > 1 ==> key[0] != 48)
    && forall i :: 0 <= i < |key| ==> 48 <= key[i] <= 57
  }

  function Value(key: Key): (n: nat)
    requires Decimal(key)
    ensures key[0] != 48 ==> n >= 1
    ensures |key| == 1 ==> n < 10
  {
    if |key| == 1 then key[0] - 48 else 10 * Value(key[..|key| - 1]) + (key[|key| - 1] - 48)
  }

  /** Keys that name an array index: objects list these first, in numeric order. */
  predicate IsIndex(key: Key) {
    Decimal(key) && Value(key) < 0xFFFF_FFFF
  }

  predicate IndexLess(a: Key, b: Key) {
    IsIndex(a) && IsIndex(b) && Value(a) < Value(b)
  }

  /** The order of the keys in a canonical object. */
  predicate CanonicalLess(a: Key, b: Key) {
    IndexLess(a, b) || (!IsIndex(b) && (IsIndex(a) || CodeUnitLess(a, b)))
  }

  lemma {:induction false} CodeUnitLessIsTotal(a: Key, b: Key)
    ensures !CodeUnitLess(a, a)
    ensures a != b ==> CodeUnitLess(a, b) || CodeUnitLess(b, a)
  {
    if a != [] {
      CodeUnitLessIsTotal(a[1..], if b != [] then b[1..] else []);
      assert b != [] && a[0] == b[0] && a[1..] == b[1..] ==> a == [a[0]] + a[1..] == b;
    }
  }

  lemma {:induction false} CodeUnitLessIsTransitive(a: Key, b: Key, c: Key)
    requires CodeUnitLess(a, b) && CodeUnitLess(b, c)
    ensures CodeUnitLess(a, c)
  {
    if a != [] && a[0] == b[0] && b[0] == c[0] {
      CodeUnitLessIsTransitive(a[1..], b[1..], c[1..]);
    }
  }

  lemma {:induction false} SameValueSameKey(a: Key, b: Key)
    requires Decimal(a) && Decimal(b) && Value(a) == Value(b)
    ensures a == b
  {
    if |a| > 1 && |b| > 1 {
      assert Value(a[..|a| - 1]) == Value(b[..|b| - 1]);
      SameValueSameKey(a[..|a| - 1], b[..|b| - 1]);
      assert a == a[..|a| - 1] + [a[|a| - 1]];
      assert b == b[..|b| - 1] + [b[|b| - 1]];
    }
  }

  /** The decimal numeral of a number, as the runtime writes it. */
  function Numeral(n: nat): (key: Key)
    ensures key != [] && (forall i :: 0 <= i < |key| ==> 48 <= key[i] <= 57) && (key[0] == 48 <==> n == 0)
  {
    if n < 10 then [48 + n] else Numeral(n / 10) + [48 + n % 10]
  }

  lemma {:induction false} ValueOfNumeral(n: nat)
    ensures Decimal(Numeral(n)) && Value(Numeral(n)) == n
  {
    if n >= 10 {
      ValueOfNumeral(n / 10);
      assert Numeral(n)[..|Numeral(n)| - 1] == Numeral(n / 10);
    }
  }

  /** The keys listed first are the numerals of the numbers below 4294967295, and every other key is not. */
  lemma IndexIff(key: Key)
    ensures IsIndex(key) <==> exists n: nat :: n < 4_294_967_295 && key == Numeral(n)
  {
    if IsIndex(key) {
      ValueOfNumeral(Value(key));
      SameValueSameKey(key, Numeral(Value(key)));
    }
    forall n: nat | key == Numeral(n) ensures Decimal(key) && Value(key) == n {
      ValueOfNumeral(n);
    }
  }

  lemma CanonicalLessIsOrder(a: Key, b: Key, c: Key)
    ensures !CanonicalLess(a, a)
    ensures CanonicalLess(a, b) && CanonicalLess(b, c) ==> CanonicalLess(a, c)
  {
    CodeUnitLessIsTotal(a, a);
    if CodeUnitLess(a, b) && CodeUnitLess(b, c) {
      CodeUnitLessIsTransitive(a, b, c);
    }
  }

  // ---------------------------------------------------------------- lists of fields

  ghost predicate DistinctKeys(fields: seq<Field>) {
    forall i, j :: 0 <= i < j < |fields| ==> fields[i].key != fields[j].key
  }

  ghost predicate SortedBy(less: (Key, Key) -> bool, fields: seq<Field>) {
    forall i, j :: 0 <= i < j < |fields| ==> less(fields[i].key, fields[j].key)
  }

  function Insert(less: (Key, Key) -> bool, field: Field, fields: seq<Field>): seq<Field> {
    if fields == [] || less(field.key, fields[0].key) then [field] + fields
    else [fields[0]] + Insert(less, field, fields[1..])
  }

  function Sort(less: (Key, Key) -> bool, fields: seq<Field>): seq<Field> {
    if fields == [] then [] else Insert(less, fields[0], Sort(less, fields[1..]))
  }

  function Select(index: bool, fields: seq<Field>): seq<Field> {
    if fields == [] then []
    else (if IsIndex(fields[0].key) == index then [fields[0]] else []) + Select(index, fields[1..])
  }

  function Reverse(fields: seq<Field>): seq<Field> {
    if fields == [] then [] else Reverse(fields[1..]) + [fields[0]]
  }

  /** Building an object from a list of entries with distinct keys: its own keys are listed with the
      array indices first, in numeric order, and then the other keys in the order they were added. */
  function FromEntries(fields: seq<Field>): seq<Field> {
    Sort(IndexLess, Select(true, fields)) + Select(false, fields)
  }

  /** The order in which every object lists its own keys. */
  ghost predicate OwnOrder(fields: seq<Field>) {
    forall i, j :: 0 <= i < j < |fields| ==>
      fields[i].key != fields[j].key && (IsIndex(fields[j].key) ==> IndexLess(fields[i].key, fields[j].key))
  }

  // ---------------------------------------------------------------- canonical form and stored order

  function Canonical(v: Json): Json {
    match v
    case Arr(items) => Arr(seq(|items|, i requires 0 <= i < |items| => Canonical(items[i])))
    case Obj(fields) => Obj(FromEntries(Sort(CodeUnitLess, CanonicalFields(fields))))
    case _ => v
  }

  /** Sorting looks at the keys only, so the children may be made canonical first. */
  function CanonicalFields(fields: seq<Field>): seq<Field> {
    seq(|fields|, i requires 0 <= i < |fields| => Field(fields[i].key, Canonical(fields[i].value)))
  }

  function JsonbOrder(v: Json): Json {
    match v
    case Arr(items) => Arr(seq(|items|, i requires 0 <= i < |items| => JsonbOrder(items[i])))
    case Obj(fields) => Obj(FromEntries(Reverse(JsonbFields(fields))))
    case _ => v
  }

  function JsonbFields(fields: seq<Field>): seq<Field> {
    seq(|fields|, i requires 0 <= i < |fields| => Field(fields[i].key, JsonbOrder(fields[i].value)))
  }

  /** Every object inside has distinct keys, listed in the order the runtime lists them. */
  ghost predicate Proper(v: Json) {
    match v
    case Arr(items) => forall i :: 0 <= i < |items| ==> Proper(items[i])
    case Obj(fields) => OwnOrder(fields) && forall i :: 0 <= i < |fields| ==> Proper(fields[i].value)
    case _ => true
  }

  /** The same value but for the order of the keys of objects. */
  ghost predicate Same(v: Json, w: Json) {
    match v
    case Arr(items) => w.Arr? && |items| == |w.items| && forall i :: 0 <= i < |items| ==> Same(items[i], w.items[i])
    case Obj(fields) => w.Obj?
      && (forall i :: 0 <= i < |fields| ==> FoundIn(fields[i], w.fields))
      && (forall j :: 0 <= j < |w.fields| ==> FoundAmong(fields, w.fields[j]))
    case _ => w == v
  }

  ghost predicate FoundIn(f: Field, others: seq<Field>) {
    exists j :: 0 <= j < |others| && SameField(f, others[j])
  }

  ghost predicate FoundAmong(fields: seq<Field>, other: Field) {
    exists i :: 0 <= i < |fields| && SameField(fields[i], other)
  }

  ghost predicate SameField(a: Field, b: Field) {
    a.key == b.key && Same(a.value, b.value)
  }

  // ---------------------------------------------------------------- sorting and building

  ghost predicate Transitive(less: (Key, Key) -> bool) {
    forall a, b, c :: less(a, b) && less(b, c) ==> less(a, c)
  }

  ghost predicate Irreflexive(less: (Key, Key) -> bool) {
    forall a :: !less(a, a)
  }

  ghost predicate Comparable(less: (Key, Key) -> bool, fields: seq<Field>) {
    forall i, j :: 0 <= i < j < |fields| ==>
      less(fields[i].key, fields[j].key) || less(fields[j].key, fields[i].key)
  }

  lemma OrdersAreStrict()
    ensures Transitive(CodeUnitLess) && Irreflexive(CodeUnitLess)
    ensures Transitive(IndexLess) && Irreflexive(IndexLess)
    ensures Transitive(CanonicalLess) && Irreflexive(CanonicalLess)
  {
    forall a, b, c ensures CodeUnitLess(a, b) && CodeUnitLess(b, c) ==> CodeUnitLess(a, c) {
      if CodeUnitLess(a, b) && CodeUnitLess(b, c) { CodeUnitLessIsTransitive(a, b, c); }
    }
    forall a ensures !CodeUnitLess(a, a) && !CanonicalLess(a, a) {
      CodeUnitLessIsTotal(a, a);
    }
    forall a, b, c ensures CanonicalLess(a, b) && CanonicalLess(b, c) ==> CanonicalLess(a, c) {
      CanonicalLessIsOrder(a, b, c);
    }
  }

  lemma {:induction false} InsertHolds(less: (Key, Key) -> bool, field: Field, fields: seq<Field>)
    ensures forall f :: f in Insert(less, field, fields) <==> f == field || f in fields
  {
    if fields != [] && !less(field.key, fields[0].key) {
      InsertHolds(less, field, fields[1..]);
    }
  }

  lemma {:induction false} SortHolds(less: (Key, Key) -> bool, fields: seq<Field>)
    ensures forall f :: f in Sort(less, fields) <==> f in fields
  {
    if fields != [] {
      SortHolds(less, fields[1..]);
      InsertHolds(less, fields[0], Sort(less, fields[1..]));
    }
  }

  lemma {:induction false} InsertSorts(less: (Key, Key) -> bool, field: Field, fields: seq<Field>)
    requires Transitive(less) && SortedBy(less, fields)
    requires forall f :: f in fields ==> less(field.key, f.key) || less(f.key, field.key)
    ensures SortedBy(less, Insert(less, field, fields))
  {
    if fields != [] {
      if less(field.key, fields[0].key) {
        forall j | 0 <= j < |fields| ensures less(field.key, fields[j].key) {
          assert j > 0 ==> less(fields[0].key, fields[j].key);
        }
      } else {
        InsertSorts(less, field, fields[1..]);
        InsertHolds(less, field, fields[1..]);
        var rest := Insert(less, field, fields[1..]);
        forall j | 0 <= j < |rest| ensures less(fields[0].key, rest[j].key) {
          assert rest[j] in rest;
        }
      }
    }
  }

  lemma {:induction false} SortSorts(less: (Key, Key) -> bool, fields: seq<Field>)
    requires Transitive(less) && Comparable(less, fields)
    ensures SortedBy(less, Sort(less, fields))
  {
    if fields != [] {
      SortSorts(less, fields[1..]);
      SortHolds(less, fields[1..]);
      InsertSorts(less, fields[0], Sort(less, fields[1..]));
    }
  }

  lemma {:induction false} SelectHolds(index: bool, fields: seq<Field>)
    ensures forall f :: f in Select(index, fields) <==> f in fields && IsIndex(f.key) == index
  {
    if fields != [] {
      SelectHolds(index, fields[1..]);
    }
  }

  lemma {:induction false} SelectSorts(less: (Key, Key) -> bool, index: bool, fields: seq<Field>)
    requires SortedBy(less, fields)
    ensures SortedBy(less, Select(index, fields))
  {
    if fields != [] {
      SelectSorts(less, index, fields[1..]);
      SelectHolds(index, fields[1..]);
      var rest := Select(index, fields[1..]);
      forall j | 0 <= j < |rest| ensures less(fields[0].key, rest[j].key) {
        assert rest[j] in rest;
      }
    }
  }

  lemma FromEntriesHolds(fields: seq<Field>)
    ensures forall f :: f in FromEntries(fields) <==> f in fields
  {
    SelectHolds(true, fields);
    SelectHolds(false, fields);
    SortHolds(IndexLess, Select(true, fields));
  }

  lemma Inhabited(fields: seq<Field>)
    ensures fields != [] ==> exists f :: f in fields
  {
    if fields != [] {
      assert fields[0] in fields;
    }
  }

  /** A list in strict order is determined by its members. */
  lemma {:induction false} SortedIsUnique(less: (Key, Key) -> bool, a: seq<Field>, b: seq<Field>)
    requires Transitive(less) && Irreflexive(less) && SortedBy(less, a) && SortedBy(less, b)
    requires forall f :: f in a <==> f in b
    ensures a == b
  {
    if a == [] {
      Inhabited(b);
    } else {
      assert a[0] in b && b != [] && b[0] in a;
      assert a[0] == b[0];
      forall f ensures f in a[1..] <==> f in b[1..] {
        assert f in a <==> f == a[0] || f in a[1..];
        assert f in b <==> f == b[0] || f in b[1..];
        assert a[0] !in a[1..] && b[0] !in b[1..];
      }
      SortedIsUnique(less, a[1..], b[1..]);
    }
  }

  lemma DistinctIsComparable(fields: seq<Field>)
    requires DistinctKeys(fields)
    ensures Comparable(CodeUnitLess, fields)
  {
    forall i, j | 0 <= i < j < |fields|
      ensures CodeUnitLess(fields[i].key, fields[j].key) || CodeUnitLess(fields[j].key, fields[i].key)
    {
      CodeUnitLessIsTotal(fields[i].key, fields[j].key);
    }
  }

  lemma {:induction false} SelectDistinct(index: bool, fields: seq<Field>)
    requires DistinctKeys(fields)
    ensures DistinctKeys(Select(index, fields))
  {
    if fields != [] {
      SelectDistinct(index, fields[1..]);
      SelectHolds(index, fields[1..]);
      var rest := Select(index, fields[1..]);
      forall j | 0 <= j < |rest| ensures fields[0].key != rest[j].key {
        assert rest[j] in rest;
      }
    }
  }

  /** Building an object sorts its array indices. */
  lemma IndicesSort(fields: seq<Field>)
    requires DistinctKeys(fields)
    ensures SortedBy(IndexLess, Sort(IndexLess, Select(true, fields)))
  {
    var indices := Select(true, fields);
    SelectHolds(true, fields);
    SelectDistinct(true, fields);
    OrdersAreStrict();
    forall i, j | 0 <= i < j < |indices|
      ensures IndexLess(indices[i].key, indices[j].key) || IndexLess(indices[j].key, indices[i].key)
    {
      assert indices[i] in indices && indices[j] in indices;
      if Value(indices[i].key) == Value(indices[j].key) {
        SameValueSameKey(indices[i].key, indices[j].key);
        assert false;
      }
    }
    SortSorts(IndexLess, indices);
  }

  lemma SortDistinct(less: (Key, Key) -> bool, fields: seq<Field>)
    requires Irreflexive(less) && SortedBy(less, fields)
    ensures DistinctKeys(fields)
  {}

  /** The fields of a canonical object are in one strict order, whatever order they came in. */
  lemma CanonicalSorts(fields: seq<Field>)
    requires DistinctKeys(fields)
    ensures SortedBy(CanonicalLess, FromEntries(Sort(CodeUnitLess, fields)))
  {
    OrdersAreStrict();
    DistinctIsComparable(fields);
    SortSorts(CodeUnitLess, fields);
    var sorted := Sort(CodeUnitLess, fields);
    SortDistinct(CodeUnitLess, sorted);
    IndicesSort(sorted);
    SelectSorts(CodeUnitLess, false, sorted);
    var indices, others := Sort(IndexLess, Select(true, sorted)), Select(false, sorted);
    SelectHolds(true, sorted);
    SortHolds(IndexLess, Select(true, sorted));
    SelectHolds(false, sorted);
    forall i | 0 <= i < |indices| ensures IsIndex(indices[i].key) { assert indices[i] in indices; }
    forall i | 0 <= i < |others| ensures !IsIndex(others[i].key) { assert others[i] in others; }
  }

  // ---------------------------------------------------------------- canonical forms decide sameness

  lemma OwnOrderIsDistinct(fields: seq<Field>)
    requires OwnOrder(fields)
    ensures DistinctKeys(fields)
  {}

  /** The canonical fields of an object, as a set: one for each of its fields. */
  lemma CanonicalHolds(fields: seq<Field>, f: Field)
    ensures f in Canonical(Obj(fields)).fields <==>
        exists i :: 0 <= i < |fields| && f == Field(fields[i].key, Canonical(fields[i].value))
  {
    var mapped := CanonicalFields(fields);
    FromEntriesHolds(Sort(CodeUnitLess, mapped));
    SortHolds(CodeUnitLess, mapped);
    assert forall i :: 0 <= i < |fields| ==> mapped[i] == Field(fields[i].key, Canonical(fields[i].value));
  }

  ghost predicate Twins(a: Field, b: Field) {
    a.key == b.key && Canonical(a.value) == Canonical(b.value)
  }

  ghost predicate HasTwin(a: Field, others: seq<Field>) {
    exists j :: 0 <= j < |others| && Twins(a, others[j])
  }

  lemma TwinsCarryOver(fields: seq<Field>, others: seq<Field>, f: Field)
    requires forall i :: 0 <= i < |fields| ==> HasTwin(fields[i], others)
    requires f in Canonical(Obj(fields)).fields
    ensures f in Canonical(Obj(others)).fields
  {
    CanonicalHolds(fields, f);
    CanonicalHolds(others, f);
    var i :| 0 <= i < |fields| && f == Field(fields[i].key, Canonical(fields[i].value));
    assert HasTwin(fields[i], others);
    var j :| 0 <= j < |others| && Twins(fields[i], others[j]);
    assert f == Field(others[j].key, Canonical(others[j].value));
  }

  lemma SameFieldsSameObject(fields: seq<Field>, others: seq<Field>)
    requires DistinctKeys(fields) && DistinctKeys(others)
    requires forall f :: f in Canonical(Obj(fields)).fields <==> f in Canonical(Obj(others)).fields
    ensures Canonical(Obj(fields)) == Canonical(Obj(others))
  {
    CanonicalSorts(CanonicalFields(fields));
    CanonicalSorts(CanonicalFields(others));
    OrdersAreStrict();
    SortedIsUnique(CanonicalLess, Canonical(Obj(fields)).fields, Canonical(Obj(others)).fields);
  }

  lemma {:induction false} SameIsCanonical(v: Json, w: Json)
    requires Proper(v) && Proper(w) && Same(v, w)
    ensures Canonical(v) == Canonical(w)
    decreases v
  {
    if v.Arr? {
      forall i | 0 <= i < |v.items| ensures Canonical(v.items[i]) == Canonical(w.items[i]) {
        SameIsCanonical(v.items[i], w.items[i]);
      }
    } else if v.Obj? {
      forall i | 0 <= i < |v.fields| ensures HasTwin(v.fields[i], w.fields) {
        assert FoundIn(v.fields[i], w.fields);
        var j :| 0 <= j < |w.fields| && SameField(v.fields[i], w.fields[j]);
        SameIsCanonical(v.fields[i].value, w.fields[j].value);
        assert Twins(v.fields[i], w.fields[j]);
      }
      forall j | 0 <= j < |w.fields| ensures HasTwin(w.fields[j], v.fields) {
        assert FoundAmong(v.fields, w.fields[j]);
        var i :| 0 <= i < |v.fields| && SameField(v.fields[i], w.fields[j]);
        SameIsCanonical(v.fields[i].value, w.fields[j].value);
        assert Twins(w.fields[j], v.fields[i]);
      }
      forall f ensures f in Canonical(v).fields <==> f in Canonical(w).fields {
        if f in Canonical(v).fields { TwinsCarryOver(v.fields, w.fields, f); }
        if f in Canonical(w).fields { TwinsCarryOver(w.fields, v.fields, f); }
      }
      OwnOrderIsDistinct(v.fields);
      OwnOrderIsDistinct(w.fields);
      SameFieldsSameObject(v.fields, w.fields);
    }
  }

  /** Objects with one canonical form have a field of the same key and canonical value for each other's. */
  lemma Counterpart(fields: seq<Field>, others: seq<Field>, i: nat) returns (j: nat)
    requires Canonical(Obj(fields)) == Canonical(Obj(others)) && i < |fields|
    ensures j < |others| && others[j].key == fields[i].key
    ensures Canonical(others[j].value) == Canonical(fields[i].value)
  {
    var f := Field(fields[i].key, Canonical(fields[i].value));
    CanonicalHolds(fields, f);
    CanonicalHolds(others, f);
    j :| 0 <= j < |others| && f == Field(others[j].key, Canonical(others[j].value));
  }

  lemma {:induction false} CanonicalIsSame(v: Json, w: Json)
    requires Canonical(v) == Canonical(w)
    ensures Same(v, w)
    decreases v
  {
    if v.Arr? {
      CanonicalItemsSame(v.items, w.items);
    } else if v.Obj? {
      CanonicalFieldsSame(v.fields, w.fields);
    }
  }

  lemma {:induction false} CanonicalItemsSame(items: seq<Json>, others: seq<Json>)
    requires Canonical(Arr(items)) == Canonical(Arr(others))
    ensures Same(Arr(items), Arr(others))
    decreases items
  {
    var a, b := Canonical(Arr(items)).items, Canonical(Arr(others)).items;
    forall i | 0 <= i < |items| ensures Same(items[i], others[i]) {
      assert a[i] == Canonical(items[i]) && b[i] == Canonical(others[i]);
      CanonicalIsSame(items[i], others[i]);
    }
  }

  lemma {:induction false} CanonicalFieldsSame(fields: seq<Field>, others: seq<Field>)
    requires Canonical(Obj(fields)) == Canonical(Obj(others))
    ensures Same(Obj(fields), Obj(others))
    decreases fields
  {
    forall i | 0 <= i < |fields| ensures FoundIn(fields[i], others) {
      var j := Counterpart(fields, others, i);
      CanonicalIsSame(fields[i].value, others[j].value);
      assert SameField(fields[i], others[j]);
    }
    forall j | 0 <= j < |others| ensures FoundAmong(fields, others[j]) {
      var i := Counterpart(others, fields, j);
      CanonicalIsSame(fields[i].value, others[j].value);
      assert SameField(fields[i], others[j]);
    }
  }

  /** Two values have one canonical form exactly when they differ in the order of keys at most. */
  lemma CanonicalIffSame(v: Json, w: Json)
    requires Proper(v) && Proper(w)
    ensures Canonical(v) == Canonical(w) <==> Same(v, w)
  {
    if Same(v, w) { SameIsCanonical(v, w); }
    if Canonical(v) == Canonical(w) { CanonicalIsSame(v, w); }
  }

  // ---------------------------------------------------------------- reordering

  lemma {:induction false} ReverseHolds(fields: seq<Field>)
    ensures |Reverse(fields)| == |fields|
    ensures forall i :: 0 <= i < |fields| ==> Reverse(fields)[i] == fields[|fields| - 1 - i]
  {
    if fields != [] {
      ReverseHolds(fields[1..]);
    }
  }

  lemma BuiltInOwnOrder(fields: seq<Field>)
    requires DistinctKeys(fields)
    ensures OwnOrder(FromEntries(fields))
  {
    IndicesSort(fields);
    SelectDistinct(false, fields);
    var indices, others := Sort(IndexLess, Select(true, fields)), Select(false, fields);
    SelectHolds(true, fields);
    SortHolds(IndexLess, Select(true, fields));
    SelectHolds(false, fields);
    forall i | 0 <= i < |indices| ensures IsIndex(indices[i].key) { assert indices[i] in indices; }
    forall i | 0 <= i < |others| ensures !IsIndex(others[i].key) { assert others[i] in others; }
  }

  lemma {:induction false} ReverseMembers(fields: seq<Field>, f: Field)
    ensures f in Reverse(fields) <==> f in fields
  {
    if fields != [] {
      ReverseMembers(fields[1..], f);
    }
  }

  lemma JsonbHolds(fields: seq<Field>, f: Field)
    ensures f in JsonbOrder(Obj(fields)).fields <==>
        exists i :: 0 <= i < |fields| && f == Field(fields[i].key, JsonbOrder(fields[i].value))
  {
    var mapped := JsonbFields(fields);
    FromEntriesHolds(Reverse(mapped));
    ReverseMembers(mapped, f);
    assert forall i :: 0 <= i < |fields| ==> mapped[i] == Field(fields[i].key, JsonbOrder(fields[i].value));
  }

  lemma {:induction false} JsonbOrderIsProper(v: Json)
    requires Proper(v)
    ensures Proper(JsonbOrder(v))
  {
    match v
    case Arr(items) =>
      forall i | 0 <= i < |items| ensures Proper(JsonbOrder(items[i])) { JsonbOrderIsProper(items[i]); }
    case Obj(fields) =>
      forall i | 0 <= i < |fields| ensures Proper(JsonbOrder(fields[i].value)) { JsonbOrderIsProper(fields[i].value); }
      ReverseHolds(JsonbFields(fields));
      BuiltInOwnOrder(Reverse(JsonbFields(fields)));
      var stored := JsonbOrder(v).fields;
      forall j | 0 <= j < |stored| ensures Proper(stored[j].value) {
        JsonbHolds(fields, stored[j]);
      }
    case _ =>
  }

  lemma {:induction false} JsonbOrderIsSame(v: Json)
    ensures Same(v, JsonbOrder(v))
  {
    match v
    case Arr(items) =>
      forall i | 0 <= i < |items| ensures Same(items[i], JsonbOrder(items[i])) { JsonbOrderIsSame(items[i]); }
    case Obj(fields) =>
      var stored := JsonbOrder(v).fields;
      forall i | 0 <= i < |fields| ensures FoundIn(fields[i], stored) {
        JsonbOrderIsSame(fields[i].value);
        var f := Field(fields[i].key, JsonbOrder(fields[i].value));
        JsonbHolds(fields, f);
        assert SameField(fields[i], f);
      }
      forall j | 0 <= j < |stored| ensures FoundAmong(fields, stored[j]) {
        JsonbHolds(fields, stored[j]);
        var i :| 0 <= i < |fields| && stored[j] == Field(fields[i].key, JsonbOrder(fields[i].value));
        JsonbOrderIsSame(fields[i].value);
        assert SameField(fields[i], stored[j]);
      }
    case _ =>
  }

  lemma {:induction false} CanonicalIsProper(v: Json)
    requires Proper(v)
    ensures Proper(Canonical(v))
  {
    match v
    case Arr(items) =>
      forall i | 0 <= i < |items| ensures Proper(Canonical(items[i])) { CanonicalIsProper(items[i]); }
    case Obj(fields) =>
      forall i | 0 <= i < |fields| ensures Proper(Canonical(fields[i].value)) { CanonicalIsProper(fields[i].value); }
      OwnOrderIsDistinct(fields);
      OrdersAreStrict();
      DistinctIsComparable(CanonicalFields(fields));
      SortSorts(CodeUnitLess, CanonicalFields(fields));
      SortDistinct(CodeUnitLess, Sort(CodeUnitLess, CanonicalFields(fields)));
      BuiltInOwnOrder(Sort(CodeUnitLess, CanonicalFields(fields)));
      forall j | 0 <= j < |Canonical(v).fields| ensures Proper(Canonical(v).fields[j].value) {
        CanonicalHolds(fields, Canonical(v).fields[j]);
      }
    case _ =>
  }

  lemma {:induction false} SameAsCanonical(v: Json)
    ensures Same(v, Canonical(v))
  {
    match v
    case Arr(items) =>
      forall i | 0 <= i < |items| ensures Same(items[i], Canonical(items[i])) { SameAsCanonical(items[i]); }
    case Obj(fields) =>
      var sorted := Canonical(v).fields;
      forall i | 0 <= i < |fields| ensures FoundIn(fields[i], sorted) {
        SameAsCanonical(fields[i].value);
        var f := Field(fields[i].key, Canonical(fields[i].value));
        CanonicalHolds(fields, f);
        assert SameField(fields[i], f);
      }
      forall j | 0 <= j < |sorted| ensures FoundAmong(fields, sorted[j]) {
        CanonicalHolds(fields, sorted[j]);
        var i :| 0 <= i < |fields| && sorted[j] == Field(fields[i].key, Canonical(fields[i].value));
        SameAsCanonical(fields[i].value);
        assert SameField(fields[i], sorted[j]);
      }
    case _ =>
  }

  /** Storage may reorder keys at every level without changing the canonical form. */
  lemma CanonicalSurvivesStorage(v: Json)
    requires Proper(v)
    ensures Canonical(JsonbOrder(v)) == Canonical(v)
  {
    JsonbOrderIsProper(v);
    JsonbOrderIsSame(v);
    SameIsCanonical(v, JsonbOrder(v));
  }

  lemma CanonicalIsIdempotent(v: Json)
    requires Proper(v)
    ensures Canonical(Canonical(v)) == Canonical(v)
  {
    CanonicalIsProper(v);
    SameAsCanonical(v);
    SameIsCanonical(v, Canonical(v));
  }

  // ---------------------------------------------------------------- storing twice

  function Renewed(f: Json -> Json, fields: seq<Field>): (r: seq<Field>)
    ensures |r| == |fields|
    ensures forall i :: 0 <= i < |fields| ==> r[i] == Field(fields[i].key, f(fields[i].value))
  {
    seq(|fields|, i requires 0 <= i < |fields| => Field(fields[i].key, f(fields[i].value)))
  }

  /** Building an object looks at keys only. */
  lemma {:induction false} InsertRenewed(less: (Key, Key) -> bool, f: Json -> Json, field: Field, fields: seq<Field>)
    ensures Insert(less, Field(field.key, f(field.value)), Renewed(f, fields))
         == Renewed(f, Insert(less, field, fields))
  {
    if fields != [] && !less(field.key, fields[0].key) {
      InsertRenewed(less, f, field, fields[1..]);
      assert Renewed(f, fields)[1..] == Renewed(f, fields[1..]);
    }
  }

  lemma {:induction false} SortRenewed(less: (Key, Key) -> bool, f: Json -> Json, fields: seq<Field>)
    ensures Sort(less, Renewed(f, fields)) == Renewed(f, Sort(less, fields))
  {
    if fields != [] {
      SortRenewed(less, f, fields[1..]);
      assert Renewed(f, fields)[1..] == Renewed(f, fields[1..]);
      InsertRenewed(less, f, fields[0], Sort(less, fields[1..]));
    }
  }

  lemma {:induction false} SelectRenewed(index: bool, f: Json -> Json, fields: seq<Field>)
    ensures Select(index, Renewed(f, fields)) == Renewed(f, Select(index, fields))
  {
    if fields != [] {
      SelectRenewed(index, f, fields[1..]);
      assert Renewed(f, fields)[1..] == Renewed(f, fields[1..]);
    }
  }

  lemma StoredRenewed(f: Json -> Json, fields: seq<Field>)
    ensures FromEntries(Reverse(Renewed(f, fields))) == Renewed(f, FromEntries(Reverse(fields)))
  {
    ReverseHolds(fields);
    ReverseHolds(Renewed(f, fields));
    assert Reverse(Renewed(f, fields)) == Renewed(f, Reverse(fields));
    SelectRenewed(true, f, Reverse(fields));
    SelectRenewed(false, f, Reverse(fields));
    SortRenewed(IndexLess, f, Select(true, Reverse(fields)));
  }

  lemma {:induction false} SelectJoins(index: bool, a: seq<Field>, b: seq<Field>)
    ensures Select(index, a + b) == Select(index, a) + Select(index, b)
  {
    if a == [] {
      assert a + b == b;
    } else {
      assert (a + b)[1..] == a[1..] + b && (a + b)[0] == a[0];
      SelectJoins(index, a[1..], b);
      var head := if IsIndex(a[0].key) == index then [a[0]] else [];
      assert Select(index, a + b) == head + (Select(index, a[1..]) + Select(index, b))
          == (head + Select(index, a[1..])) + Select(index, b);
    }
  }

  lemma {:induction false} SelectReversed(index: bool, fields: seq<Field>)
    ensures Select(index, Reverse(fields)) == Reverse(Select(index, fields))
  {
    if fields != [] {
      SelectReversed(index, fields[1..]);
      SelectJoins(index, Reverse(fields[1..]), [fields[0]]);
      if IsIndex(fields[0].key) == index {
        assert Select(index, fields)[1..] == Select(index, fields[1..]);
        assert Select(index, [fields[0]]) == [fields[0]];
      } else {
        assert Select(index, fields) == Select(index, fields[1..]);
        assert Select(index, [fields[0]]) == [];
      }
    }
  }

  lemma {:induction false} SelectOfKind(index: bool, fields: seq<Field>)
    requires forall f :: f in fields ==> IsIndex(f.key) == index
    ensures Select(index, fields) == fields && Select(!index, fields) == []
  {
    if fields != [] {
      assert fields[0] in fields;
      SelectOfKind(index, fields[1..]);
    }
  }

  lemma IndexLeads(fields: seq<Field>)
    requires OwnOrder(fields) && fields != [] && SortedBy(IndexLess, Select(true, fields[1..]))
    ensures SortedBy(IndexLess, Select(true, fields))
  {
    SelectHolds(true, fields[1..]);
    var rest := Select(true, fields[1..]);
    forall j | 0 <= j < |rest| ensures IndexLess(fields[0].key, rest[j].key) {
      assert rest[j] in rest && rest[j] in fields[1..];
    }
  }

  lemma NoIndexLeads(fields: seq<Field>)
    requires OwnOrder(fields) && fields != [] && !IsIndex(fields[0].key)
    ensures Select(true, fields) == [] && Select(false, fields) == fields
  {
    forall f | f in fields ensures IsIndex(f.key) == false {
      var i :| 0 <= i < |fields| && fields[i] == f;
    }
    SelectOfKind(false, fields);
  }

  lemma {:induction false} OwnOrderSplits(fields: seq<Field>)
    requires OwnOrder(fields)
    ensures fields == Select(true, fields) + Select(false, fields)
    ensures SortedBy(IndexLess, Select(true, fields))
  {
    if fields != [] {
      if IsIndex(fields[0].key) {
        OwnOrderSplits(fields[1..]);
        IndexLeads(fields);
      } else {
        NoIndexLeads(fields);
      }
    }
  }

  lemma IndicesRestored(indices: seq<Field>)
    requires SortedBy(IndexLess, indices)
    ensures Sort(IndexLess, Reverse(indices)) == indices
  {
    OrdersAreStrict();
    ReverseHolds(indices);
    assert Comparable(IndexLess, Reverse(indices));
    SortSorts(IndexLess, Reverse(indices));
    SortHolds(IndexLess, Reverse(indices));
    forall f ensures f in Reverse(indices) <==> f in indices { ReverseMembers(indices, f); }
    SortedIsUnique(IndexLess, Sort(IndexLess, Reverse(indices)), indices);
  }

  lemma StoredParts(indices: seq<Field>, others: seq<Field>, fields: seq<Field>)
    requires indices == Select(true, fields) && others == Reverse(Select(false, fields))
    ensures Select(true, indices + others) == indices && Select(false, indices + others) == others
  {
    SelectHolds(true, fields);
    SelectHolds(false, fields);
    SelectOfKind(true, indices);
    forall f ensures f in others <==> f in Select(false, fields) { ReverseMembers(Select(false, fields), f); }
    SelectOfKind(false, others);
    SelectJoins(true, indices, others);
    SelectJoins(false, indices, others);
  }

  /** Reversing the entries of an object and building it again, twice, restores its order. */
  lemma StoredTwice(fields: seq<Field>)
    requires OwnOrder(fields)
    ensures FromEntries(Reverse(FromEntries(Reverse(fields)))) == fields
  {
    var indices, others := Select(true, fields), Select(false, fields);
    OwnOrderSplits(fields);
    IndicesRestored(indices);
    SelectReversed(true, fields);
    SelectReversed(false, fields);
    var once := FromEntries(Reverse(fields));
    assert once == indices + Reverse(others);
    StoredParts(indices, Reverse(others), fields);
    SelectReversed(true, once);
    SelectReversed(false, once);
    ReverseHolds(others);
    ReverseHolds(Reverse(others));
    assert Reverse(Reverse(others)) == others;
  }

  /** Storing twice gives the value back, key order and all. */
  lemma {:induction false} JsonbOrderIsInvolution(v: Json)
    requires Proper(v)
    ensures JsonbOrder(JsonbOrder(v)) == v
  {
    match v
    case Arr(items) =>
      forall i | 0 <= i < |items| ensures JsonbOrder(JsonbOrder(items[i])) == items[i] {
        JsonbOrderIsInvolution(items[i]);
      }
    case Obj(fields) =>
      forall i | 0 <= i < |fields| ensures JsonbOrder(JsonbOrder(fields[i].value)) == fields[i].value {
        JsonbOrderIsInvolution(fields[i].value);
      }
      JsonbFieldsRenewed(fields);
      StoredRenewed(JsonbOrder, fields);
      var stored := FromEntries(Reverse(fields));
      JsonbFieldsRenewed(Renewed(JsonbOrder, stored));
      StoredRenewed(JsonbOrder, Renewed(JsonbOrder, stored));
      StoredRenewed(JsonbOrder, stored);
      StoredTwice(fields);
      assert Renewed(JsonbOrder, Renewed(JsonbOrder, fields)) == fields;
    case _ =>
  }

  lemma JsonbFieldsRenewed(fields: seq<Field>)
    ensures JsonbFields(fields) == Renewed(JsonbOrder, fields)
  {}
}

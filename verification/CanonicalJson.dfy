/** `stableStringify` is canonical: two values have the same text exactly when they are equal up
    to key order, `__proto__` keys aside. */
module CanonicalJson {
  import opened StableJson
  import opened PrintInjective

  // ---------------------------------------------------------------- the strict orders

  lemma {:induction false} UnitsOrder(a: Text, b: Text, c: Text)
    ensures !UnitsLess(a, a)
    ensures a == b || UnitsLess(a, b) || UnitsLess(b, a)
    ensures UnitsLess(a, b) && UnitsLess(b, c) ==> UnitsLess(a, c)
    decreases |a|
  {
    if |a| > 0 {
      UnitsOrder(a[1..], if |b| > 0 then b[1..] else [], if |c| > 0 then c[1..] else []);
      if |b| > 0 && a[0] == b[0] && a[1..] == b[1..] {
        assert a == [a[0]] + a[1..] && b == [b[0]] + b[1..];
      }
    }
  }

  /** Enumeration order: index keys by value, then the other keys by code units. */
  predicate KeyLess(a: Text, b: Text) {
    if IsIndex(a) then !IsIndex(b) || IndexLess(a, b) else !IsIndex(b) && UnitsLess(a, b)
  }

  predicate Less(o: Order, a: Text, b: Text) {
    match o
    case ByUnits => UnitsLess(a, b)
    case ByEnumeration => KeyLess(a, b)
  }

  lemma StrictOrder(o: Order, a: Text, b: Text, c: Text)
    ensures !Less(o, a, a)
    ensures a == b || Less(o, a, b) || Less(o, b, a)
    ensures Less(o, a, b) && Less(o, b, c) ==> Less(o, a, c)
  {
    UnitsOrder(a, b, c);
  }

  // ---------------------------------------------------------------- fields as a dictionary

  function Dict(fs: Fields): map<Text, Json> {
    match fs
    case NoFields => map[]
    case Field(k, v, tail) => Dict(tail)[k := v]
  }

  predicate Distinct(fs: Fields) {
    fs.Field? ==> fs.key !in Dict(fs.tail) && Distinct(fs.tail)
  }

  /** No object has a key twice. */
  predicate WellFormed(v: Json) {
    match v
    case Arr(items) => WellFormedItems(items)
    case Obj(fields) => Distinct(fields) && WellFormedFields(fields)
    case _ => true
  }

  predicate WellFormedItems(items: Items) {
    items.Item? ==> WellFormed(items.head) && WellFormedItems(items.rest)
  }

  predicate WellFormedFields(fs: Fields) {
    fs.Field? ==> WellFormed(fs.value) && WellFormedFields(fs.tail)
  }

  lemma {:induction false} FieldWellFormed(fs: Fields, k: Text)
    requires WellFormedFields(fs) && k in Dict(fs)
    ensures WellFormed(Dict(fs)[k])
  {
    if k != fs.key {
      FieldWellFormed(fs.tail, k);
    }
  }

  // ---------------------------------------------------------------- equality up to key order

  /** Equal up to the order of keys; keys in `ignored` do not count. */
  predicate Same(v: Json, w: Json, ignored: set<Text>) {
    match v
    case Arr(items) => w.Arr? && SameItems(items, w.items, ignored)
    case Obj(fields) =>
      && w.Obj?
      && Dict(fields).Keys - ignored == Dict(w.fields).Keys - ignored
      && SameFields(fields, w.fields, ignored)
    case _ => v == w
  }

  predicate SameItems(xs: Items, ys: Items, ignored: set<Text>) {
    match xs
    case NoItems => ys.NoItems?
    case Item(head, rest) => ys.Item? && Same(head, ys.head, ignored) && SameItems(rest, ys.rest, ignored)
  }

  predicate SameFields(fs: Fields, gs: Fields, ignored: set<Text>) {
    match fs
    case NoFields => true
    case Field(k, v, tail) =>
      && (k in ignored || (k in Dict(gs) && Same(v, Dict(gs)[k], ignored)))
      && SameFields(tail, gs, ignored)
  }

  // ---------------------------------------------------------------- sorting orders the dictionary

  predicate AllAfter(o: Order, k: Text, fs: Fields) {
    forall l :: l in Dict(fs) ==> Less(o, k, l)
  }

  predicate Ascending(o: Order, fs: Fields) {
    fs.Field? ==> AllAfter(o, fs.key, fs.tail) && Ascending(o, fs.tail)
  }

  lemma {:induction false} InsertDict(o: Order, k: Text, v: Json, fs: Fields)
    requires k !in Dict(fs)
    ensures Dict(Insert(o, k, v, fs)) == Dict(fs)[k := v]
  {
    if fs.Field? {
      InsertDict(o, k, v, fs.tail);
    }
  }

  /** Inserting keeps the order; an assigned key that is no index comes before the later ones. */
  lemma {:induction false} InsertAscends(o: Order, k: Text, v: Json, fs: Fields)
    requires Ascending(o, fs) && k !in Dict(fs)
    requires o == ByEnumeration && !IsIndex(k) ==> forall l :: l in Dict(fs) && !IsIndex(l) ==> UnitsLess(k, l)
    ensures Ascending(o, Insert(o, k, v, fs))
  {
    if fs.Field? {
      if Before(o, k, fs.key) {
        assert Less(o, k, fs.key) by {
          assert fs.key in Dict(fs);
        }
        forall l | l in Dict(fs) ensures Less(o, k, l) {
          StrictOrder(o, k, fs.key, l);
        }
      } else {
        StrictOrder(o, k, fs.key, k);
        InsertDict(o, k, v, fs.tail);
        InsertAscends(o, k, v, fs.tail);
      }
    }
  }

  lemma {:induction false} SortedAscends(fs: Fields)
    requires Distinct(fs)
    ensures Ascending(ByUnits, Sorted(fs)) && Dict(Sorted(fs)) == Dict(fs)
  {
    if fs.Field? {
      SortedAscends(fs.tail);
      InsertDict(ByUnits, fs.key, fs.value, Sorted(fs.tail));
      InsertAscends(ByUnits, fs.key, fs.value, Sorted(fs.tail));
    }
  }

  lemma {:induction false} AssignedAscends(fs: Fields)
    requires Ascending(ByUnits, fs)
    ensures Ascending(ByEnumeration, Assigned(fs)) && Dict(Assigned(fs)) == Dict(fs) - {PROTO}
  {
    if fs.Field? {
      AssignedAscends(fs.tail);
      assert fs.key !in Dict(fs.tail) by {
        StrictOrder(ByUnits, fs.key, fs.key, fs.key);
      }
      if fs.key != PROTO {
        InsertDict(ByEnumeration, fs.key, fs.value, Assigned(fs.tail));
        InsertAscends(ByEnumeration, fs.key, fs.value, Assigned(fs.tail));
      }
    }
  }

  lemma {:induction false} AscendingIsUnique(o: Order, fs: Fields, gs: Fields)
    requires Ascending(o, fs) && Ascending(o, gs) && Dict(fs) == Dict(gs)
    ensures fs == gs
  {
    assert fs.Field? ==> fs.key in Dict(fs);
    assert gs.Field? ==> gs.key in Dict(gs);
    if fs.Field? {
      var k, l := fs.key, gs.key;
      StrictOrder(o, k, l, k);
      StrictOrder(o, l, k, l);
      assert Dict(fs.tail) == Dict(fs) - {k};
      assert Dict(gs.tail) == Dict(gs) - {k};
      AscendingIsUnique(o, fs.tail, gs.tail);
    }
  }

  lemma {:induction false} SortValuesDict(fs: Fields)
    ensures Dict(SortValues(fs)).Keys == Dict(fs).Keys
    ensures forall k :: k in Dict(fs) ==> Dict(SortValues(fs))[k] == SortValue(Dict(fs)[k])
    ensures Distinct(fs) ==> Distinct(SortValues(fs))
  {
    if fs.Field? {
      SortValuesDict(fs.tail);
    }
  }

  /** The sorted object lists its dictionary without `__proto__`, values sorted, in enumeration order. */
  lemma SortedObject(fs: Fields)
    requires Distinct(fs)
    ensures var sorted := SortValue(Obj(fs)).fields;
            && Ascending(ByEnumeration, sorted)
            && Dict(sorted).Keys == Dict(fs).Keys - {PROTO}
            && forall k :: k in Dict(sorted) ==> Dict(sorted)[k] == SortValue(Dict(fs)[k])
  {
    SortValuesDict(fs);
    SortedAscends(SortValues(fs));
    AssignedAscends(Sorted(SortValues(fs)));
  }

  // ---------------------------------------------------------------- canonical

  /** Two values sort to the same value if and only if they are equal up to key order. */
  lemma {:induction false} SortCanonical(v: Json, w: Json)
    requires WellFormed(v) && WellFormed(w)
    ensures SortValue(v) == SortValue(w) <==> Same(v, w, {PROTO})
  {
    match (v, w)
    case (Arr(xs), Arr(ys)) => ItemsCanonical(xs, ys);
    case (Obj(fs), Obj(gs)) =>
      SortedObject(fs);
      SortedObject(gs);
      FieldsCanonical(fs, gs);
      var a, b := SortValue(v).fields, SortValue(w).fields;
      if a == b {
        forall k | k in Dict(fs) && k != PROTO ensures AgreeAt(fs, gs, k) {
          assert k in Dict(a);
        }
      }
      if Same(v, w, {PROTO}) {
        forall k | k in Dict(a) ensures k in Dict(b) && Dict(a)[k] == Dict(b)[k] {
          assert AgreeAt(fs, gs, k);
        }
        assert Dict(a) == Dict(b);
        AscendingIsUnique(ByEnumeration, a, b);
      }
    case _ =>
  }

  lemma {:induction false} ItemsCanonical(xs: Items, ys: Items)
    requires WellFormedItems(xs) && WellFormedItems(ys)
    ensures SortItems(xs) == SortItems(ys) <==> SameItems(xs, ys, {PROTO})
  {
    if xs.Item? && ys.Item? {
      SortCanonical(xs.head, ys.head);
      ItemsCanonical(xs.rest, ys.rest);
    }
  }

  predicate AgreeAt(fs: Fields, gs: Fields, k: Text)
    requires k in Dict(fs)
  {
    k in Dict(gs) && SortValue(Dict(fs)[k]) == SortValue(Dict(gs)[k])
  }

  predicate Agree(fs: Fields, gs: Fields) {
    forall k :: k in Dict(fs) && k != PROTO ==> AgreeAt(fs, gs, k)
  }

  lemma AgreeSplit(fs: Fields, gs: Fields)
    requires fs.Field? && Distinct(fs)
    ensures fs.key in Dict(fs)
    ensures Agree(fs, gs) <==> (fs.key == PROTO || AgreeAt(fs, gs, fs.key)) && Agree(fs.tail, gs)
  {
    assert forall k :: k in Dict(fs.tail) ==> AgreeAt(fs, gs, k) == AgreeAt(fs.tail, gs, k);
  }

  lemma {:induction false} FieldsCanonical(fs: Fields, gs: Fields)
    requires Distinct(fs) && WellFormedFields(fs) && WellFormedFields(gs)
    ensures SameFields(fs, gs, {PROTO}) <==> Agree(fs, gs)
  {
    if fs.Field? {
      FieldsCanonical(fs.tail, gs);
      AgreeSplit(fs, gs);
      if fs.key in Dict(gs) {
        FieldWellFormed(gs, fs.key);
        SortCanonical(fs.value, Dict(gs)[fs.key]);
      }
    }
  }

  /** Two values have the same canonical text if and only if they are equal up to the order of
      their keys, where `__proto__` keys do not count. */
  lemma StringifyIff(v: Json, w: Json)
    requires WellFormed(v) && WellFormed(w)
    ensures StableStringify(v) == StableStringify(w) <==> Same(v, w, {PROTO})
  {
    SortCanonical(v, w);
    PrintIsInjective(SortValue(v), SortValue(w));
  }

  // ---------------------------------------------------------------- sorting is idempotent

  lemma {:induction false} AscendingIsDistinct(o: Order, fs: Fields)
    requires Ascending(o, fs)
    ensures Distinct(fs)
  {
    if fs.Field? {
      StrictOrder(o, fs.key, fs.key, fs.key);
      AscendingIsDistinct(o, fs.tail);
    }
  }

  lemma {:induction false} FieldsWellFormed(fs: Fields)
    requires Distinct(fs) && forall k :: k in Dict(fs) ==> WellFormed(Dict(fs)[k])
    ensures WellFormedFields(fs)
  {
    if fs.Field? {
      assert fs.key in Dict(fs);
      forall k | k in Dict(fs.tail) ensures WellFormed(Dict(fs.tail)[k]) {
        assert Dict(fs)[k] == Dict(fs.tail)[k];
      }
      FieldsWellFormed(fs.tail);
    }
  }

  lemma {:induction false} FieldsSame(fs: Fields, gs: Fields, ignored: set<Text>)
    requires Distinct(fs)
    requires forall k :: k in Dict(fs) && k !in ignored ==> k in Dict(gs) && Same(Dict(fs)[k], Dict(gs)[k], ignored)
    ensures SameFields(fs, gs, ignored)
  {
    if fs.Field? {
      assert fs.key in Dict(fs);
      forall k | k in Dict(fs.tail) && k !in ignored ensures k in Dict(gs) && Same(Dict(fs.tail)[k], Dict(gs)[k], ignored) {
        assert Dict(fs)[k] == Dict(fs.tail)[k];
      }
      FieldsSame(fs.tail, gs, ignored);
    }
  }

  /** Sorting changes nothing but the key order and the `__proto__` keys. */
  lemma {:induction false} SortedIsSame(v: Json)
    requires WellFormed(v)
    ensures WellFormed(SortValue(v)) && Same(SortValue(v), v, {PROTO})
  {
    match v
    case Arr(items) => SortedItemsAreSame(items);
    case Obj(fields) =>
      SortedObject(fields);
      SortedFieldsAreSame(fields);
      var sorted := SortValue(v).fields;
      AscendingIsDistinct(ByEnumeration, sorted);
      FieldsWellFormed(sorted);
      FieldsSame(sorted, fields, {PROTO});
    case _ =>
  }

  lemma {:induction false} SortedItemsAreSame(items: Items)
    requires WellFormedItems(items)
    ensures WellFormedItems(SortItems(items)) && SameItems(SortItems(items), items, {PROTO})
  {
    if items.Item? {
      SortedIsSame(items.head);
      SortedItemsAreSame(items.rest);
    }
  }

  lemma {:induction false} SortedFieldsAreSame(fs: Fields)
    requires WellFormedFields(fs)
    ensures forall k :: k in Dict(fs) ==>
              WellFormed(SortValue(Dict(fs)[k])) && Same(SortValue(Dict(fs)[k]), Dict(fs)[k], {PROTO})
  {
    if fs.Field? {
      SortedIsSame(fs.value);
      SortedFieldsAreSame(fs.tail);
    }
  }

  lemma SortIdempotent(v: Json)
    requires WellFormed(v)
    ensures SortValue(SortValue(v)) == SortValue(v)
  {
    SortedIsSame(v);
    SortCanonical(SortValue(v), v);
  }

  // ---------------------------------------------------------------- where it is injective

  predicate ProtoFree(v: Json) {
    match v
    case Arr(items) => ProtoFreeItems(items)
    case Obj(fields) => ProtoFreeFields(fields)
    case _ => true
  }

  predicate ProtoFreeItems(items: Items) {
    items.Item? ==> ProtoFree(items.head) && ProtoFreeItems(items.rest)
  }

  predicate ProtoFreeFields(fs: Fields) {
    fs.Field? ==> fs.key != PROTO && ProtoFree(fs.value) && ProtoFreeFields(fs.tail)
  }

  lemma {:induction false} ProtoFreeDict(fs: Fields)
    requires Distinct(fs)
    ensures ProtoFreeFields(fs) <==> PROTO !in Dict(fs) && forall k :: k in Dict(fs) ==> ProtoFree(Dict(fs)[k])
  {
    if fs.Field? {
      ProtoFreeDict(fs.tail);
      assert fs.key in Dict(fs);
      assert forall k :: k in Dict(fs.tail) ==> k in Dict(fs) && Dict(fs)[k] == Dict(fs.tail)[k];
    }
  }

  /** On values without `__proto__` keys, ignoring these keys ignores nothing. */
  lemma {:induction false} NothingIgnored(v: Json, w: Json)
    requires WellFormed(v) && WellFormed(w) && ProtoFree(v) && ProtoFree(w)
    ensures Same(v, w, {PROTO}) <==> Same(v, w, {})
  {
    match (v, w)
    case (Arr(xs), Arr(ys)) => NothingIgnoredItems(xs, ys);
    case (Obj(fs), Obj(gs)) =>
      ProtoFreeDict(fs);
      ProtoFreeDict(gs);
      NothingIgnoredFields(fs, gs);
      assert Dict(fs).Keys - {PROTO} == Dict(fs).Keys == Dict(fs).Keys - {};
      assert Dict(gs).Keys - {PROTO} == Dict(gs).Keys == Dict(gs).Keys - {};
    case _ =>
  }

  lemma {:induction false} NothingIgnoredItems(xs: Items, ys: Items)
    requires WellFormedItems(xs) && WellFormedItems(ys) && ProtoFreeItems(xs) && ProtoFreeItems(ys)
    ensures SameItems(xs, ys, {PROTO}) <==> SameItems(xs, ys, {})
  {
    if xs.Item? && ys.Item? {
      NothingIgnored(xs.head, ys.head);
      NothingIgnoredItems(xs.rest, ys.rest);
    }
  }

  lemma {:induction false} NothingIgnoredFields(fs: Fields, gs: Fields)
    requires WellFormedFields(fs) && WellFormedFields(gs) && Distinct(gs) && ProtoFreeFields(fs) && ProtoFreeFields(gs)
    ensures SameFields(fs, gs, {PROTO}) <==> SameFields(fs, gs, {})
  {
    if fs.Field? {
      if fs.key in Dict(gs) {
        FieldWellFormed(gs, fs.key);
        ProtoFreeDict(gs);
        NothingIgnored(fs.value, Dict(gs)[fs.key]);
      }
      NothingIgnoredFields(fs.tail, gs);
    }
  }

  /** The sorted value has no `__proto__` key left. */
  lemma {:induction false} SortedIsProtoFree(v: Json)
    requires WellFormed(v)
    ensures ProtoFree(SortValue(v))
  {
    match v
    case Arr(items) => SortedItemsAreProtoFree(items);
    case Obj(fields) =>
      SortedObject(fields);
      SortedFieldsAreProtoFree(fields);
      AscendingIsDistinct(ByEnumeration, SortValue(v).fields);
      ProtoFreeDict(SortValue(v).fields);
    case _ =>
  }

  lemma {:induction false} SortedItemsAreProtoFree(items: Items)
    requires WellFormedItems(items)
    ensures ProtoFreeItems(SortItems(items))
  {
    if items.Item? {
      SortedIsProtoFree(items.head);
      SortedItemsAreProtoFree(items.rest);
    }
  }

  lemma {:induction false} SortedFieldsAreProtoFree(fs: Fields)
    requires WellFormedFields(fs)
    ensures forall k :: k in Dict(fs) ==> ProtoFree(SortValue(Dict(fs)[k]))
  {
    if fs.Field? {
      SortedIsProtoFree(fs.value);
      SortedFieldsAreProtoFree(fs.tail);
    }
  }

  /** A value equal up to key order to one without `__proto__` keys has none itself. */
  lemma {:induction false} SameIsProtoFree(v: Json, w: Json)
    requires WellFormed(v) && WellFormed(w) && Same(v, w, {}) && ProtoFree(v)
    ensures ProtoFree(w)
  {
    match v
    case Arr(items) => SameItemsAreProtoFree(items, w.items);
    case Obj(fs) =>
      ProtoFreeDict(fs);
      SameFieldsAreProtoFree(fs, w.fields);
      ProtoFreeDict(w.fields);
      assert Dict(w.fields).Keys == Dict(w.fields).Keys - {} == Dict(fs).Keys - {} == Dict(fs).Keys;
    case _ =>
  }

  lemma {:induction false} SameItemsAreProtoFree(xs: Items, ys: Items)
    requires WellFormedItems(xs) && WellFormedItems(ys) && SameItems(xs, ys, {}) && ProtoFreeItems(xs)
    ensures ProtoFreeItems(ys)
  {
    if xs.Item? {
      SameIsProtoFree(xs.head, ys.head);
      SameItemsAreProtoFree(xs.rest, ys.rest);
    }
  }

  lemma {:induction false} SameFieldsAreProtoFree(fs: Fields, gs: Fields)
    requires WellFormedFields(fs) && WellFormedFields(gs) && SameFields(fs, gs, {}) && ProtoFreeFields(fs)
    ensures forall k :: k in Dict(fs) ==> k in Dict(gs) && ProtoFree(Dict(gs)[k])
  {
    if fs.Field? {
      FieldWellFormed(gs, fs.key);
      SameIsProtoFree(fs.value, Dict(gs)[fs.key]);
      SameFieldsAreProtoFree(fs.tail, gs);
    }
  }

  /** Exactly where the text tells values apart. Against all values without `__proto__` keys, the
      text of `w` is equal only for values equal up to key order if and only if `w` has no
      `__proto__` key itself. */
  lemma InjectiveIffProtoFree(w: Json)
    requires WellFormed(w)
    ensures (forall v :: WellFormed(v) && ProtoFree(v) ==>
               (StableStringify(v) == StableStringify(w) <==> Same(v, w, {})))
            <==> ProtoFree(w)
  {
    if ProtoFree(w) {
      forall v | WellFormed(v) && ProtoFree(v) ensures StableStringify(v) == StableStringify(w) <==> Same(v, w, {}) {
        StringifyIff(v, w);
        NothingIgnored(v, w);
      }
    } else {
      var v := SortValue(w);
      SortedIsSame(w);
      SortedIsProtoFree(w);
      StringifyIff(v, w);
      if Same(v, w, {}) {
        SameIsProtoFree(v, w);
      }
      assert StableStringify(v) == StableStringify(w) && !Same(v, w, {});
    }
  }

  // ---------------------------------------------------------------- the request that is hashed

  datatype RequestInput = RequestInput(actorId: Json, body: Json, endpoint: Text, upperMethod: Text, scope: Text)

  const ACTOR_ID: Text := [97, 99, 116, 111, 114, 73, 100]
  const BODY: Text := [98, 111, 100, 121]
  const ENDPOINT: Text := [101, 110, 100, 112, 111, 105, 110, 116]
  const METHOD: Text := [109, 101, 116, 104, 111, 100]
  const SCOPE: Text := [115, 99, 111, 112, 101]

  function RequestObject(r: RequestInput): Json {
    Obj(FiveFields(ACTOR_ID, r.actorId, BODY, r.body, ENDPOINT, Str(r.endpoint), METHOD, Str(r.upperMethod), SCOPE, Str(r.scope)))
  }

  function FiveFields(k1: Text, v1: Json, k2: Text, v2: Json, k3: Text, v3: Json, k4: Text, v4: Json, k5: Text, v5: Json): Fields {
    Field(k1, v1, Field(k2, v2, Field(k3, v3, Field(k4, v4, Field(k5, v5, NoFields)))))
  }

  predicate SameKeys(fs: Fields, gs: Fields) {
    match fs
    case NoFields => gs.NoFields?
    case Field(k, _, tail) => gs.Field? && gs.key == k && SameKeys(tail, gs.tail)
  }

  predicate ValuesAgree(fs: Fields, gs: Fields)
    requires SameKeys(fs, gs)
  {
    fs.Field? ==> (fs.key == PROTO || SortValue(fs.value) == SortValue(gs.value)) && ValuesAgree(fs.tail, gs.tail)
  }

  /** Two objects with the same keys in the same order agree exactly when their values do. */
  lemma {:induction false} SameKeysAgree(fs: Fields, gs: Fields)
    requires Distinct(fs) && Distinct(gs) && SameKeys(fs, gs)
    ensures Dict(fs).Keys == Dict(gs).Keys
    ensures Agree(fs, gs) <==> ValuesAgree(fs, gs)
  {
    if fs.Field? {
      SameKeysAgree(fs.tail, gs.tail);
      AgreeSplit(fs, gs);
      assert forall k :: k in Dict(fs.tail) ==> AgreeAt(fs.tail, gs, k) == AgreeAt(fs.tail, gs.tail, k);
      assert Agree(fs.tail, gs) <==> Agree(fs.tail, gs.tail);
    }
  }

  lemma RequestKeysDiffer()
    ensures SCOPE !in [METHOD, ENDPOINT, BODY, ACTOR_ID] && METHOD !in [ENDPOINT, BODY, ACTOR_ID]
    ensures ENDPOINT !in [BODY, ACTOR_ID] && BODY != ACTOR_ID
    ensures PROTO !in [SCOPE, METHOD, ENDPOINT, BODY, ACTOR_ID]
  {
    assert |ACTOR_ID| == 7 && |BODY| == 4 && |ENDPOINT| == 8 && |METHOD| == 6 && |SCOPE| == 5 && |PROTO| == 9;
  }

  lemma FiveWellFormed(k1: Text, v1: Json, k2: Text, v2: Json, k3: Text, v3: Json, k4: Text, v4: Json, k5: Text, v5: Json)
    requires k5 !in [k4, k3, k2, k1] && k4 !in [k3, k2, k1] && k3 !in [k2, k1] && k2 != k1
    requires WellFormed(v1) && WellFormed(v2) && WellFormed(v3) && WellFormed(v4) && WellFormed(v5)
    ensures WellFormed(Obj(FiveFields(k1, v1, k2, v2, k3, v3, k4, v4, k5, v5)))
  {
    var f5 := Field(k5, v5, NoFields);
    var f4 := Field(k4, v4, f5);
    var f3 := Field(k3, v3, f4);
    var f2 := Field(k2, v2, f3);
    assert Distinct(f5) && WellFormedFields(NoFields) && WellFormedFields(f5);
    assert Dict(f5) == Dict(NoFields)[k5 := v5] && Dict(NoFields) == map[];
    assert Dict(f5).Keys == {k5};
    assert Distinct(f4) && WellFormedFields(f4) && Dict(f4).Keys == {k5, k4};
    assert Distinct(f3) && WellFormedFields(f3) && Dict(f3).Keys == {k5, k4, k3};
    assert Distinct(f2) && WellFormedFields(f2) && Dict(f2).Keys == {k5, k4, k3, k2};
  }

  lemma RequestWellFormed(r: RequestInput)
    requires WellFormed(r.body) && WellFormed(r.actorId)
    ensures WellFormed(RequestObject(r))
  {
    RequestKeysDiffer();
    FiveWellFormed(ACTOR_ID, r.actorId, BODY, r.body, ENDPOINT, Str(r.endpoint), METHOD, Str(r.upperMethod), SCOPE, Str(r.scope));
  }

  lemma RequestValues(r: RequestInput, q: RequestInput)
    ensures SameKeys(RequestObject(r).fields, RequestObject(q).fields)
    ensures ValuesAgree(RequestObject(r).fields, RequestObject(q).fields)
       <==> && SortValue(r.actorId) == SortValue(q.actorId) && SortValue(r.body) == SortValue(q.body)
            && r.endpoint == q.endpoint && r.upperMethod == q.upperMethod && r.scope == q.scope
  {
    RequestKeysDiffer();
    var fs, gs := RequestObject(r).fields, RequestObject(q).fields;
    var f2, g2 := fs.tail, gs.tail;
    var f3, g3 := f2.tail, g2.tail;
    assert SameKeys(f3.tail.tail, g3.tail.tail);
    assert SameKeys(f3, g3);
    assert SameKeys(fs, gs);
    assert ValuesAgree(f3.tail.tail, g3.tail.tail) <==> r.scope == q.scope;
    assert ValuesAgree(f3, g3) <==> r.endpoint == q.endpoint && r.upperMethod == q.upperMethod && r.scope == q.scope;
  }

  /** Requests are hashed from the same text if and only if actor, endpoint, method and scope
      agree and the bodies are equal up to key order. */
  lemma RequestTextIff(r: RequestInput, q: RequestInput)
    requires WellFormed(r.body) && WellFormed(q.body)
    requires !r.actorId.Arr? && !r.actorId.Obj? && !q.actorId.Arr? && !q.actorId.Obj?
    ensures StableStringify(RequestObject(r)) == StableStringify(RequestObject(q))
       <==> r.(body := q.body) == q && Same(r.body, q.body, {PROTO})
  {
    RequestWellFormed(r);
    RequestWellFormed(q);
    RequestValues(r, q);
    SameKeysAgree(RequestObject(r).fields, RequestObject(q).fields);
    StringifyIff(RequestObject(r), RequestObject(q));
    FieldsCanonical(RequestObject(r).fields, RequestObject(q).fields);
    SortCanonical(r.body, q.body);
  }
}

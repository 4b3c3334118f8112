/** The canonical JSON text that idempotency keys and provider events are hashed from:
    `sortValue` followed by `JSON.stringify`. Text is a sequence of UTF-16 code units. */
module StableJson {
  type Unit = u: nat | u < 0x10000
  type Text = seq<Unit>

  /** The text `JSON.stringify` gives a finite number. */
  predicate IsNumber(s: Text) {
    |s| > 0 && (s[0] == 45 || 48 <= s[0] <= 57) && forall i :: 0 <= i < |s| ==> IsNumberUnit(s[i])
  }

  /** Digits, plus, minus, point and exponent. */
  predicate IsNumberUnit(u: Unit) {
    48 <= u <= 57 || u == 43 || u == 45 || u == 46 || u == 101
  }

  type Number = s: Text | IsNumber(s) witness [48]

  datatype Json =
    | Null
    | Bool(value: bool)
    | Num(text: Number)
    | Str(units: Text)
    | Arr(items: Items)
    | Obj(fields: Fields)

  datatype Items = NoItems | Item(head: Json, rest: Items)

  /** An object's own properties in enumeration order. */
  datatype Fields = NoFields | Field(key: Text, value: Json, tail: Fields)

  /** The key `__proto__`: assigning it to a plain object creates no property. */
  const PROTO: Text := [95, 95, 112, 114, 111, 116, 111, 95, 95]

  // ---------------------------------------------------------------- key order

  /** The order of `sort()` without a comparator: by code units, a prefix first. */
  predicate UnitsLess(a: Text, b: Text)
    decreases |a|
  {
    |b| > 0 && (|a| == 0 || a[0] < b[0] || (a[0] == b[0] && UnitsLess(a[1..], b[1..])))
  }

  /** Array index keys, 0 to 4294967294 in canonical form, are enumerated first. */
  predicate IsIndex(k: Text) {
    && 1 <= |k| <= 10
    && (forall i :: 0 <= i < |k| ==> 48 <= k[i] <= 57)
    && (k[0] == 48 ==> |k| == 1)
    && (|k| == 10 ==> !UnitsLess([52, 50, 57, 52, 57, 54, 55, 50, 57, 52], k))
  }

  /** Numeric order, on canonical index keys. */
  predicate IndexLess(a: Text, b: Text) {
    |a| < |b| || (|a| == |b| && UnitsLess(a, b))
  }

  datatype Order = ByUnits | ByEnumeration

  /** Where a key goes relative to a later one: sorting compares units; a property goes behind
      smaller index keys and, if it is not an index itself, behind every index key. */
  predicate Before(o: Order, k: Text, later: Text) {
    match o
    case ByUnits => UnitsLess(k, later)
    case ByEnumeration => !IsIndex(later) || (IsIndex(k) && IndexLess(k, later))
  }

  // ---------------------------------------------------------------- sortValue

  function Insert(o: Order, k: Text, v: Json, fs: Fields): Fields {
    if fs.NoFields? || Before(o, k, fs.key) then Field(k, v, fs)
    else Field(fs.key, fs.value, Insert(o, k, v, fs.tail))
  }

  function Sorted(fs: Fields): Fields {
    match fs
    case NoFields => NoFields
    case Field(k, v, tail) => Insert(ByUnits, k, v, Sorted(tail))
  }

  /** The object that assigning these properties in this order builds. */
  function Assigned(fs: Fields): Fields {
    match fs
    case NoFields => NoFields
    case Field(k, v, tail) => if k == PROTO then Assigned(tail) else Insert(ByEnumeration, k, v, Assigned(tail))
  }

  function SortValue(v: Json): Json {
    match v
    case Arr(items) => Arr(SortItems(items))
    case Obj(fields) => Obj(Assigned(Sorted(SortValues(fields))))
    case _ => v
  }

  function SortItems(items: Items): Items {
    match items
    case NoItems => NoItems
    case Item(head, rest) => Item(SortValue(head), SortItems(rest))
  }

  function SortValues(fs: Fields): Fields {
    match fs
    case NoFields => NoFields
    case Field(k, v, tail) => Field(k, SortValue(v), SortValues(tail))
  }

  // ---------------------------------------------------------------- JSON.stringify

  function Hex(d: nat): Unit
    requires d < 16
  {
    if d < 10 then 48 + d else 87 + d
  }

  function UnicodeEscape(u: Unit): Text {
    [92, 117, Hex(u / 4096), Hex(u / 256 % 16), Hex(u / 16 % 16), Hex(u % 16)]
  }

  predicate IsHigh(u: Unit) { 0xD800 <= u <= 0xDBFF }

  predicate IsLow(u: Unit) { 0xDC00 <= u <= 0xDFFF }

  function EscapeUnit(u: Unit): Text {
    if u == 8 then [92, 98]
    else if u == 9 then [92, 116]
    else if u == 10 then [92, 110]
    else if u == 12 then [92, 102]
    else if u == 13 then [92, 114]
    else if u == 34 then [92, 34]
    else if u == 92 then [92, 92]
    else if u < 32 || IsHigh(u) || IsLow(u) then UnicodeEscape(u)
    else [u]
  }

  /** How many units the next code point has: two for a surrogate pair. */
  function PointLength(s: Text): (n: nat)
    requires |s| > 0
    ensures 1 <= n <= |s|
  {
    if |s| > 1 && IsHigh(s[0]) && IsLow(s[1]) then 2 else 1
  }

  function EscapePoint(s: Text): Text
    requires |s| > 0
  {
    if PointLength(s) == 2 then [s[0], s[1]] else EscapeUnit(s[0])
  }

  function Escape(s: Text): Text {
    if s == [] then [] else EscapePoint(s) + Escape(s[PointLength(s)..])
  }

  function Quote(s: Text): Text {
    [34] + Escape(s) + [34]
  }

  function Print(v: Json): Text {
    match v
    case Null => [110, 117, 108, 108]
    case Bool(b) => if b then [116, 114, 117, 101] else [102, 97, 108, 115, 101]
    case Num(text) => text
    case Str(units) => Quote(units)
    case Arr(items) => [91] + PrintItems(items, true)
    case Obj(fields) => [123] + PrintFields(fields, true)
  }

  function Comma(first: bool): Text {
    if first then [] else [44]
  }

  function PrintItems(items: Items, first: bool): Text {
    match items
    case NoItems => [93]
    case Item(head, rest) => Comma(first) + Print(head) + PrintItems(rest, false)
  }

  function PrintFields(fs: Fields, first: bool): Text {
    match fs
    case NoFields => [125]
    case Field(k, v, tail) => Comma(first) + Quote(k) + [58] + Print(v) + PrintFields(tail, false)
  }

  function StableStringify(v: Json): Text {
    Print(SortValue(v))
  }
}

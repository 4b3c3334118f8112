/** A reader of JSON text, by the grammar of RFC 8259, and that it reads back what `JSON.stringify` wrote. */
module JsonParse {
  import opened Common
  import opened StableJson
  import opened PrintInjective
  import opened CanonicalJson

  /** A value and the text behind it. */
  datatype Read<T> = Read(value: T, rest: Text)

  // ---------------------------------------------------------------- strings, section 7

  function HexValue(u: Unit): Option<nat> {
    if 48 <= u <= 57 then Some(u - 48)
    else if 97 <= u <= 102 then Some(u - 87)
    else if 65 <= u <= 70 then Some(u - 55)
    else None
  }

  /** The unit that four hexadecimal digits stand for. */
  function FourHex(s: Text): (r: Option<Unit>)
    requires |s| >= 4
  {
    match (HexValue(s[0]), HexValue(s[1]), HexValue(s[2]), HexValue(s[3]))
    case (Some(a), Some(b), Some(c), Some(d)) =>
      if a < 16 && b < 16 && c < 16 && d < 16 then Some(4096 * a + 256 * b + 16 * c + d) else None
    case _ => None
  }

  /** The unit that a letter behind a backslash stands for. */
  function Escaped(letter: Unit): Option<Unit> {
    if letter == 34 || letter == 92 || letter == 47 then Some(letter)
    else if letter == 98 then Some(8)
    else if letter == 102 then Some(12)
    else if letter == 110 then Some(10)
    else if letter == 114 then Some(13)
    else if letter == 116 then Some(9)
    else None
  }

  /** One character of a string: itself, a two-character escape or a six-character one. */
  function ReadUnit(s: Text): (r: Option<Read<Unit>>)
    ensures r.Some? ==> |r.value.rest| < |s|
  {
    if s == [] || s[0] < 32 || s[0] == 34 then None
    else if s[0] != 92 then Some(Read(s[0], s[1..]))
    else if |s| >= 2 && Escaped(s[1]).Some? then Some(Read(Escaped(s[1]).value, s[2..]))
    else if |s| >= 6 && s[1] == 117 && FourHex(s[2..6]).Some? then Some(Read(FourHex(s[2..6]).value, s[6..]))
    else None
  }

  /** The characters up to the closing quote. */
  function ReadString(s: Text): (r: Option<Read<Text>>)
    ensures r.Some? ==> |r.value.rest| < |s|
    decreases |s|
  {
    if s != [] && s[0] == 34 then Some(Read([], s[1..]))
    else
      match ReadUnit(s)
      case None => None
      case Some(first) =>
        match ReadString(first.rest)
        case None => None
        case Some(more) => Some(Read([first.value] + more.value, more.rest))
  }

  // ---------------------------------------------------------------- values, sections 3 to 6

  function NumberLength(s: Text): (n: nat)
    ensures n <= |s|
  {
    if s == [] || !IsNumberUnit(s[0]) then 0 else 1 + NumberLength(s[1..])
  }

  predicate StartsWith(s: Text, word: Text) {
    |word| <= |s| && s[..|word|] == word
  }

  function ReadValue(s: Text): (r: Option<Read<Json>>)
    ensures r.Some? ==> |r.value.rest| < |s|
    decreases |s|, 0
  {
    if StartsWith(s, [110, 117, 108, 108]) then Some(Read(Null, s[4..]))
    else if StartsWith(s, [116, 114, 117, 101]) then Some(Read(Bool(true), s[4..]))
    else if StartsWith(s, [102, 97, 108, 115, 101]) then Some(Read(Bool(false), s[5..]))
    else if StartsWith(s, [34]) then
      match ReadString(s[1..])
      case None => None
      case Some(units) => Some(Read(Str(units.value), units.rest))
    else if StartsWith(s, [91]) then
      match ReadItems(s[1..], true)
      case None => None
      case Some(items) => Some(Read(Arr(items.value), items.rest))
    else if StartsWith(s, [123]) then
      match ReadFields(s[1..], true)
      case None => None
      case Some(fields) => Some(Read(Obj(fields.value), fields.rest))
    else
      var n := NumberLength(s);
      if IsNumber(s[..n]) then Some(Read(Num(s[..n]), s[n..])) else None
  }

  /** What comes before the next member: nothing for the first one, a comma for all others. */
  function AfterComma(s: Text, first: bool): (r: Option<Text>)
    ensures r.Some? ==> |r.value| <= |s|
  {
    if first then Some(s) else if StartsWith(s, [44]) then Some(s[1..]) else None
  }

  /** The members of an array and its closing bracket. */
  function ReadItems(s: Text, first: bool): (r: Option<Read<Items>>)
    ensures r.Some? ==> |r.value.rest| < |s|
    decreases |s|, 1
  {
    if StartsWith(s, [93]) then Some(Read(NoItems, s[1..]))
    else
      match AfterComma(s, first)
      case None => None
      case Some(t) =>
        match ReadValue(t)
        case None => None
        case Some(head) =>
          match ReadItems(head.rest, false)
          case None => None
          case Some(more) => Some(Read(Item(head.value, more.value), more.rest))
  }

  /** The members of an object and its closing brace. */
  function ReadFields(s: Text, first: bool): (r: Option<Read<Fields>>)
    ensures r.Some? ==> |r.value.rest| < |s|
    decreases |s|, 1
  {
    if StartsWith(s, [125]) then Some(Read(NoFields, s[1..]))
    else
      match AfterComma(s, first)
      case None => None
      case Some(t) =>
        if !StartsWith(t, [34]) then None
        else
          match ReadString(t[1..])
          case None => None
          case Some(key) =>
            if !StartsWith(key.rest, [58]) then None
            else
              match ReadValue(key.rest[1..])
              case None => None
              case Some(value) =>
                match ReadFields(value.rest, false)
                case None => None
                case Some(more) => Some(Read(Field(key.value, value.value, more.value), more.rest))
  }

  // ---------------------------------------------------------------- strings read back

  lemma HexReadsBack(d: nat)
    requires d < 16
    ensures HexValue(Hex(d)) == Some(d)
  {
  }

  lemma UnicodeReadsBack(u: Unit, x: Text)
    ensures ReadUnit(UnicodeEscape(u) + x) == Some(Read(u, x))
  {
    var s := UnicodeEscape(u) + x;
    assert s[2..6] == [Hex(u / 4096), Hex(u / 256 % 16), Hex(u / 16 % 16), Hex(u % 16)] && s[6..] == x;
    HexReadsBack(u / 4096);
    HexReadsBack(u / 256 % 16);
    HexReadsBack(u / 16 % 16);
    HexReadsBack(u % 16);
    FourDigits(u);
    assert s[0] == 92 && s[1] == 117;
  }

  lemma UnitReadsBack(u: Unit, x: Text)
    ensures ReadUnit(EscapeUnit(u) + x) == Some(Read(u, x))
  {
    var s := EscapeUnit(u) + x;
    if |EscapeUnit(u)| == 6 {
      UnicodeReadsBack(u, x);
    } else if |EscapeUnit(u)| == 2 {
      assert s[0] == 92 && s[1] == EscapeUnit(u)[1] && s[2..] == x;
    } else {
      assert s[0] == u && s[1..] == x;
    }
  }

  lemma OneUnit(e: Text, u: Unit, t: Text, x: Text, y: Text)
    requires ReadUnit(e + y) == Some(Read(u, y)) && ReadString(y) == Some(Read(t, x))
    ensures ReadString(e + y) == Some(Read([u] + t, x))
  {
  }

  lemma {:induction false} StringReadsBack(s: Text, x: Text)
    ensures ReadString(Escape(s) + ([34] + x)) == Some(Read(s, x))
    decreases |s|
  {
    if s == [] {
      assert Escape(s) + ([34] + x) == [34] + x && ([34] + x)[1..] == x;
    } else {
      var n := PointLength(s);
      var y := Escape(s[n..]) + ([34] + x);
      StringReadsBack(s[n..], x);
      Assoc(EscapePoint(s), Escape(s[n..]), [34] + x);
      if n == 1 {
        SingleReadsBack(s, x, y);
      } else {
        PairReadsBack(s, x, y);
      }
    }
  }

  lemma SingleReadsBack(s: Text, x: Text, y: Text)
    requires s != [] && ReadString(y) == Some(Read(s[1..], x))
    ensures ReadString(EscapeUnit(s[0]) + y) == Some(Read(s, x))
  {
    UnitReadsBack(s[0], y);
    OneUnit(EscapeUnit(s[0]), s[0], s[1..], x, y);
    assert [s[0]] + s[1..] == s;
  }

  lemma PairReadsBack(s: Text, x: Text, y: Text)
    requires |s| > 1 && IsHigh(s[0]) && IsLow(s[1]) && ReadString(y) == Some(Read(s[2..], x))
    ensures ReadString([s[0], s[1]] + y) == Some(Read(s, x))
  {
    assert ([s[1]] + y)[1..] == y;
    OneUnit([s[1]], s[1], s[2..], x, y);
    var z := [s[1]] + y;
    assert ([s[0]] + z)[1..] == z;
    OneUnit([s[0]], s[0], [s[1]] + s[2..], x, z);
    assert [s[0], s[1]] + y == [s[0]] + z && [s[0]] + ([s[1]] + s[2..]) == s;
  }

  lemma QuoteReadsBack(s: Text, x: Text)
    ensures StartsWith(Quote(s) + x, [34]) && ReadString((Quote(s) + x)[1..]) == Some(Read(s, x))
  {
    Assoc([34] + Escape(s), [34], x);
    Assoc([34], Escape(s), [34] + x);
    assert (Quote(s) + x)[1..] == Escape(s) + ([34] + x);
    StringReadsBack(s, x);
  }

  // ---------------------------------------------------------------- values read back

  lemma {:induction false} NumberLengthOf(s: Text, x: Text)
    requires (forall i :: 0 <= i < |s| ==> IsNumberUnit(s[i])) && Ends(x)
    ensures NumberLength(s + x) == |s|
  {
    if s == [] {
      assert s + x == x;
    } else {
      assert (s + x)[1..] == s[1..] + x;
      NumberLengthOf(s[1..], x);
    }
  }

  lemma NumberReadsBack(s: Number, x: Text)
    requires Ends(x)
    ensures ReadValue(s + x) == Some(Read(Num(s), x))
  {
    NumberLengthOf(s, x);
    assert (s + x)[0] == s[0] && (s + x)[..|s|] == s && (s + x)[|s|..] == x;
  }

  lemma WordReadsBack(v: Json, x: Text)
    requires v.Null? || v.Bool?
    ensures ReadValue(Print(v) + x) == Some(Read(v, x))
  {
    var s, n := Print(v) + x, |Print(v)|;
    assert s[..n] == Print(v) && s[n..] == x;
    assert s[0] == Print(v)[0];
    assert StartsWith(s, Print(v));
    if v == Bool(true) {
      assert !StartsWith(s, [110, 117, 108, 108]) by { assert [110, 117, 108, 108][0] == 110; if |s| >= 4 { assert s[..4][0] == s[0]; } }
    }
    if v == Bool(false) {
      assert !StartsWith(s, [110, 117, 108, 108]) by { if |s| >= 4 { assert s[..4][0] == s[0]; } }
      assert !StartsWith(s, [116, 114, 117, 101]) by { if |s| >= 4 { assert s[..4][0] == s[0]; } }
    }
  }

  /** Text that starts with another unit is no word. */
  lemma NoWord(s: Text)
    requires s != [] && s[0] !in [110, 116, 102]
    ensures !StartsWith(s, [110, 117, 108, 108]) && !StartsWith(s, [116, 114, 117, 101])
    ensures !StartsWith(s, [102, 97, 108, 115, 101])
  {
    if |s| >= 4 {
      assert s[..4][0] == s[0];
    }
    if |s| >= 5 {
      assert s[..5][0] == s[0];
    }
  }

  lemma TextReadsBack(units: Text, x: Text)
    ensures ReadValue(Quote(units) + x) == Some(Read(Str(units), x))
  {
    var s := Quote(units) + x;
    QuoteReadsBack(units, x);
    assert s[0] == 34;
    NoWord(s);
  }

  /** Behind its opening bracket an array is what its members read as. */
  lemma BracketReads(y: Text, items: Items, x: Text)
    requires ReadItems(y, true) == Some(Read(items, x))
    ensures ReadValue([91] + y) == Some(Read(Arr(items), x))
  {
    var s := [91] + y;
    assert s[0] == 91 && s[1..] == y;
    NoWord(s);
  }

  lemma BraceReads(y: Text, fields: Fields, x: Text)
    requires ReadFields(y, true) == Some(Read(fields, x))
    ensures ReadValue([123] + y) == Some(Read(Obj(fields), x))
  {
    var s := [123] + y;
    assert s[0] == 123 && s[1..] == y;
    NoWord(s);
  }

  lemma {:induction false} ValueReadsBack(v: Json, x: Text)
    requires Ends(x)
    ensures ReadValue(Print(v) + x) == Some(Read(v, x))
    decreases v, 0
  {
    match v
    case Null => WordReadsBack(v, x);
    case Bool(_) => WordReadsBack(v, x);
    case Num(text) => NumberReadsBack(text, x);
    case Str(units) => TextReadsBack(units, x);
    case Arr(items) =>
      ItemsReadBack(items, true, x);
      BracketReads(PrintItems(items, true) + x, items, x);
      Assoc([91], PrintItems(items, true), x);
    case Obj(fields) =>
      FieldsReadBack(fields, true, x);
      BraceReads(PrintFields(fields, true) + x, fields, x);
      Assoc([123], PrintFields(fields, true), x);
  }

  lemma CommaReads(first: bool, y: Text)
    ensures AfterComma(Comma(first) + y, first) == Some(y)
  {
    assert (Comma(first) + y)[|Comma(first)|..] == y;
  }

  /** One member of an array, when it and the members behind it read back. */
  lemma OneItem(head: Json, rest: Items, first: bool, y: Text, more: Text, x: Text)
    requires ReadValue(y) == Some(Read(head, more)) && ReadItems(more, false) == Some(Read(rest, x))
    requires y != [] && y[0] != 93
    ensures ReadItems(Comma(first) + y, first) == Some(Read(Item(head, rest), x))
  {
    var s := Comma(first) + y;
    assert s[0] == if first then y[0] else 44;
    CommaReads(first, y);
  }

  lemma {:induction false} ItemsReadBack(items: Items, first: bool, x: Text)
    requires Ends(x)
    ensures ReadItems(PrintItems(items, first) + x, first) == Some(Read(items, x))
    decreases items, 1
  {
    match items
    case NoItems => assert ([93] + x)[1..] == x;
    case Item(head, rest) =>
      var more := PrintItems(rest, false) + x;
      ItemSplit(items, first, x);
      ItemsStart(rest, false);
      FirstUnit(head);
      ValueReadsBack(head, more);
      ItemsReadBack(rest, false, x);
      OneItem(head, rest, first, Print(head) + more, more, x);
  }

  /** One member of an object, when its value and the members behind it read back. */
  lemma OneField(key: Text, value: Json, tail: Fields, first: bool, y: Text, more: Text, x: Text)
    requires ReadValue(y) == Some(Read(value, more)) && ReadFields(more, false) == Some(Read(tail, x))
    ensures ReadFields(Comma(first) + (Quote(key) + ([58] + y)), first) == Some(Read(Field(key, value, tail), x))
  {
    var s, behind := Comma(first) + (Quote(key) + ([58] + y)), [58] + y;
    assert s[0] == if first then 34 else 44;
    CommaReads(first, Quote(key) + behind);
    QuoteReadsBack(key, behind);
    assert StartsWith(behind, [58]) && behind[1..] == y;
  }

  lemma {:induction false} FieldsReadBack(fields: Fields, first: bool, x: Text)
    requires Ends(x)
    ensures ReadFields(PrintFields(fields, first) + x, first) == Some(Read(fields, x))
    decreases fields, 1
  {
    match fields
    case NoFields => assert ([125] + x)[1..] == x;
    case Field(key, value, tail) =>
      var more := PrintFields(tail, false) + x;
      FieldSplit(fields, first, x);
      FieldsStart(tail, false);
      ValueReadsBack(value, more);
      FieldsReadBack(tail, false, x);
      OneField(key, value, tail, first, Print(value) + more, more, x);
  }

  /** Reading what was printed gives the value back, with its key order, and leaves nothing. */
  lemma PrintReadsBack(v: Json)
    ensures ReadValue(Print(v)) == Some(Read(v, []))
  {
    assert Print(v) + [] == Print(v);
    ValueReadsBack(v, []);
  }

  // ---------------------------------------------------------------- how short the text is

  /** A unit is written as itself where it can be, with one letter where there is one, and otherwise with
      four lower-case hexadecimal digits. */
  lemma EscapeIsShort(u: Unit)
    ensures EscapeUnit(u) == [u] <==> 32 <= u && u != 34 && u != 92 && !(0xD800 <= u <= 0xDFFF)
    ensures |EscapeUnit(u)| == 2 <==> exists letter: Unit :: letter != 47 && Escaped(letter) == Some(u)
    ensures |EscapeUnit(u)| in {1, 2, 6} && forall i :: 0 <= i < |UnicodeEscape(u)| ==> UnicodeEscape(u)[i] !in {65, 66, 67, 68, 69, 70}
  {
    forall letter: Unit | letter != 47 && Escaped(letter) == Some(u) ensures |EscapeUnit(u)| == 2 {}
    if |EscapeUnit(u)| == 2 {
      assert Escaped(EscapeUnit(u)[1]) == Some(u);
    }
  }

  // ---------------------------------------------------------------- the request that is hashed

  function Units(s: string): Text {
    seq(|s|, i requires 0 <= i < |s| => if s[i] as int < 0x10000 then s[i] as int else 0)
  }

  lemma RequestKeys()
    ensures Units("actorId") == ACTOR_ID && Units("body") == BODY && Units("endpoint") == ENDPOINT
    ensures Units("method") == METHOD && Units("scope") == SCOPE
  {
  }

  /** The five parts with their values sorted, in the order of their names. */
  function SortedRequest(r: RequestInput): Fields {
    FiveFields(Units("actorId"), SortValue(r.actorId), Units("body"), SortValue(r.body), Units("endpoint"), Str(r.endpoint),
               Units("method"), Str(r.upperMethod), Units("scope"), Str(r.scope))
  }

  /** Keys that start with a smaller letter come first. */
  lemma InFront(k: Text, v: Json, fs: Fields)
    requires Ascending(ByEnumeration, fs) && k != [] && forall l :: l in Dict(fs) ==> l != [] && 57 < k[0] < l[0]
    ensures Ascending(ByEnumeration, Field(k, v, fs))
  {
    forall l | l in Dict(fs) ensures Less(ByEnumeration, k, l) {
      assert !IsIndex(k) && !IsIndex(l);
    }
  }

  lemma FiveAscend(v1: Json, v2: Json, v3: Json, v4: Json, v5: Json)
    ensures Ascending(ByEnumeration, FiveFields(ACTOR_ID, v1, BODY, v2, ENDPOINT, v3, METHOD, v4, SCOPE, v5))
  {
    assert ACTOR_ID[0] == 97 && BODY[0] == 98 && ENDPOINT[0] == 101 && METHOD[0] == 109 && SCOPE[0] == 115;
    var f5 := Field(SCOPE, v5, NoFields);
    var f4 := Field(METHOD, v4, f5);
    var f3 := Field(ENDPOINT, v3, f4);
    var f2 := Field(BODY, v2, f3);
    assert Dict(NoFields).Keys == {};
    InFront(SCOPE, v5, NoFields);
    assert Dict(f5).Keys == {SCOPE};
    InFront(METHOD, v4, f5);
    assert Dict(f4).Keys == {SCOPE, METHOD};
    InFront(ENDPOINT, v3, f4);
    assert Dict(f3).Keys == {SCOPE, METHOD, ENDPOINT};
    InFront(BODY, v2, f3);
    assert Dict(f2).Keys == {SCOPE, METHOD, ENDPOINT, BODY};
    InFront(ACTOR_ID, v1, f2);
  }

  lemma FiveDict(k1: Text, v1: Json, k2: Text, v2: Json, k3: Text, v3: Json, k4: Text, v4: Json, k5: Text, v5: Json)
    ensures Dict(FiveFields(k1, v1, k2, v2, k3, v3, k4, v4, k5, v5)) == map[][k5 := v5][k4 := v4][k3 := v3][k2 := v2][k1 := v1]
  {
    var f5 := Field(k5, v5, NoFields);
    var f4 := Field(k4, v4, f5);
    var f3 := Field(k3, v3, f4);
    var f2 := Field(k2, v2, f3);
    assert Dict(f5) == map[][k5 := v5];
    assert Dict(f4) == Dict(f5)[k4 := v4];
    assert Dict(f3) == Dict(f4)[k3 := v3];
    assert Dict(f2) == Dict(f3)[k2 := v2];
  }

  lemma SortedRequestIs(r: RequestInput)
    requires WellFormed(r.body) && WellFormed(r.actorId)
    ensures SortValue(RequestObject(r)) == Obj(SortedRequest(r))
  {
    RequestWellFormed(r);
    RequestKeysDiffer();
    RequestKeys();
    var fs := RequestObject(r).fields;
    var expected := FiveFields(ACTOR_ID, SortValue(r.actorId), BODY, SortValue(r.body), ENDPOINT, Str(r.endpoint),
                               METHOD, Str(r.upperMethod), SCOPE, Str(r.scope));
    var sorted := SortValue(Obj(fs)).fields;
    SortedObject(fs);
    FiveAscend(SortValue(r.actorId), SortValue(r.body), Str(r.endpoint), Str(r.upperMethod), Str(r.scope));
    SameDict(r, Dict(sorted));
    AscendingIsUnique(ByEnumeration, sorted, expected);
  }

  /** The dictionary of the sorted request. */
  lemma SameDict(r: RequestInput, sorted: map<Text, Json>)
    requires var d := Dict(RequestObject(r).fields);
             sorted.Keys == d.Keys - {PROTO} && forall k :: k in sorted ==> sorted[k] == SortValue(d[k])
    ensures sorted == Dict(FiveFields(ACTOR_ID, SortValue(r.actorId), BODY, SortValue(r.body), ENDPOINT, Str(r.endpoint),
                                      METHOD, Str(r.upperMethod), SCOPE, Str(r.scope)))
  {
    RequestKeysDiffer();
    FiveDict(ACTOR_ID, r.actorId, BODY, r.body, ENDPOINT, Str(r.endpoint), METHOD, Str(r.upperMethod), SCOPE, Str(r.scope));
    FiveDict(ACTOR_ID, SortValue(r.actorId), BODY, SortValue(r.body), ENDPOINT, Str(r.endpoint),
             METHOD, Str(r.upperMethod), SCOPE, Str(r.scope));
    var d := Dict(RequestObject(r).fields);
    assert d.Keys == {ACTOR_ID, BODY, ENDPOINT, METHOD, SCOPE};
  }

  /** The text that a request is hashed from reads as the object of its five parts, named `actorId`, `body`,
      `endpoint`, `method` and `scope`, in that order. */
  lemma RequestReadsBack(r: RequestInput)
    requires WellFormed(r.body) && WellFormed(r.actorId)
    ensures ReadValue(StableStringify(RequestObject(r))) == Some(Read(Obj(SortedRequest(r)), []))
  {
    SortedRequestIs(r);
    PrintReadsBack(Obj(SortedRequest(r)));
  }
}

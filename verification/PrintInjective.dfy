/** `JSON.stringify` loses nothing: equal texts come from equal values with equal key order. */
module PrintInjective {
  import opened StableJson

  lemma Assoc(p: Text, q: Text, r: Text)
    ensures p + q + r == p + (q + r)
  {
  }

  lemma FourDigits(u: Unit)
    ensures u == 4096 * (u / 4096) + 256 * (u / 256 % 16) + 16 * (u / 16 % 16) + u % 16
  {
    var a := u / 16;
    var b := a / 16;
    assert u / 256 == b && u / 4096 == b / 16;
  }

  lemma HexInjective(u: Unit, w: Unit)
    requires UnicodeEscape(u) == UnicodeEscape(w)
    ensures u == w
  {
    var a, b := UnicodeEscape(u), UnicodeEscape(w);
    assert a[2] == b[2] && a[3] == b[3] && a[4] == b[4] && a[5] == b[5];
    FourDigits(u);
    FourDigits(w);
  }

  /** The escape of one unit is told apart by what it starts with. */
  lemma EscapeUnitInjective(u: Unit, w: Unit, x: Text, y: Text)
    requires EscapeUnit(u) + x == EscapeUnit(w) + y
    ensures u == w && x == y
  {
    var a, b := EscapeUnit(u) + x, EscapeUnit(w) + y;
    assert a[0] == b[0];
    if a[0] == 92 {
      assert a[1] == b[1];
      if a[1] == 117 {
        assert a[..6] == b[..6];
        assert a[..6] == EscapeUnit(u) && b[..6] == EscapeUnit(w);
        HexInjective(u, w);
      }
    }
    var n := |EscapeUnit(u)|;
    assert a[n..] == x && b[n..] == y;
  }

  lemma PointInjective(s: Text, t: Text, x: Text, y: Text)
    requires |s| > 0 && |t| > 0
    requires EscapePoint(s) + x == EscapePoint(t) + y
    ensures PointLength(s) == PointLength(t) && s[..PointLength(s)] == t[..PointLength(s)] && x == y
  {
    var a, b := EscapePoint(s) + x, EscapePoint(t) + y;
    assert a[0] == b[0];
    if PointLength(s) == 2 || PointLength(t) == 2 {
      assert PointLength(s) == 2 && PointLength(t) == 2;
      assert a[1] == b[1];
      assert a[2..] == x && b[2..] == y;
    } else {
      EscapeUnitInjective(s[0], t[0], x, y);
    }
  }

  lemma {:induction false} EscapeInjective(s: Text, t: Text, x: Text, y: Text)
    requires Escape(s) + ([34] + x) == Escape(t) + ([34] + y)
    ensures s == t && x == y
    decreases |s|
  {
    if s == [] || t == [] {
      EndOfEscape(s, t, x, y);
    } else {
      var n := PointLength(s);
      var restS, restT := Escape(s[n..]), Escape(t[PointLength(t)..]);
      Assoc(EscapePoint(s), restS, [34] + x);
      Assoc(EscapePoint(t), restT, [34] + y);
      PointInjective(s, t, restS + ([34] + x), restT + ([34] + y));
      EscapeInjective(s[n..], t[n..], x, y);
      assert s == s[..n] + s[n..] && t == t[..n] + t[n..];
    }
  }

  /** The closing quote is not the start of any escape. */
  lemma EscapeStart(s: Text, x: Text)
    ensures (Escape(s) + ([34] + x))[0] == 34 <==> s == []
  {
    if s != [] {
      assert Escape(s)[0] == EscapePoint(s)[0];
    }
  }

  lemma EndOfEscape(s: Text, t: Text, x: Text, y: Text)
    requires Escape(s) + ([34] + x) == Escape(t) + ([34] + y)
    requires s == [] || t == []
    ensures s == t && x == y
  {
    EscapeStart(s, x);
    EscapeStart(t, y);
    assert [] + ([34] + x) == [34] + x && [] + ([34] + y) == [34] + y;
    assert ([34] + x)[1..] == x && ([34] + y)[1..] == y;
  }

  lemma QuoteInjective(s: Text, t: Text, x: Text, y: Text)
    requires Quote(s) + x == Quote(t) + y
    ensures s == t && x == y
  {
    Assoc([34] + Escape(s), [34], x);
    Assoc([34] + Escape(t), [34], y);
    Assoc([34], Escape(s), [34] + x);
    Assoc([34], Escape(t), [34] + y);
    Cancel([34], Escape(s) + ([34] + x), Escape(t) + ([34] + y));
    EscapeInjective(s, t, x, y);
  }

  /** What may follow a value: nothing a number could go on with. */
  predicate Ends(x: Text) {
    x == [] || !IsNumberUnit(x[0])
  }

  lemma UnitAfter(s: Text, t: Text, x: Text, y: Text)
    requires s + x == t + y && |s| < |t|
    ensures x != [] && x[0] == t[|s|]
  {
    assert (s + x)[|s|] == (t + y)[|s|];
  }

  lemma NumberEndsThere(s: Number, t: Number, x: Text, y: Text)
    requires s + x == t + y && Ends(x)
    ensures |t| <= |s|
  {
    if |s| < |t| {
      UnitAfter(s, t, x, y);
    }
  }

  lemma NumberInjective(s: Number, t: Number, x: Text, y: Text)
    requires s + x == t + y && Ends(x) && Ends(y)
    ensures s == t && x == y
  {
    var a, b := s + x, t + y;
    NumberEndsThere(s, t, x, y);
    NumberEndsThere(t, s, y, x);
    assert a[..|s|] == s && b[..|s|] == t && a[|s|..] == x && b[|s|..] == y;
  }

  /** The first unit tells the kinds of value apart. */
  function Kind(v: Json): nat {
    match v
    case Null => 0
    case Bool(b) => if b then 1 else 2
    case Num(_) => 3
    case Str(_) => 4
    case Arr(_) => 5
    case Obj(_) => 6
  }

  function KindOf(u: Unit): nat {
    if u == 110 then 0 else if u == 116 then 1 else if u == 102 then 2
    else if u == 34 then 4 else if u == 91 then 5 else if u == 123 then 6 else 3
  }

  lemma FirstUnitTells(v: Json)
    ensures |Print(v)| > 0 && KindOf(Print(v)[0]) == Kind(v)
  {
  }

  lemma SameKind(v: Json, w: Json, x: Text, y: Text)
    requires Print(v) + x == Print(w) + y
    ensures Kind(v) == Kind(w)
  {
    FirstUnitTells(v);
    FirstUnitTells(w);
    assert (Print(v) + x)[0] == Print(v)[0] && (Print(w) + y)[0] == Print(w)[0];
  }

  /** Two values whose printed forms continue to the same text are the same value. */
  lemma {:induction false} PrintPrefix(v: Json, w: Json, x: Text, y: Text)
    requires Print(v) + x == Print(w) + y && Ends(x) && Ends(y)
    ensures v == w && x == y
    decreases v, 0
  {
    SameKind(v, w, x, y);
    match v
    case Null => Cancel(Print(v), x, y);
    case Bool(_) => Cancel(Print(v), x, y);
    case Num(text) => NumberInjective(text, w.text, x, y);
    case Str(units) => QuoteInjective(units, w.units, x, y);
    case Arr(items) =>
      Assoc([91], PrintItems(items, true), x);
      Assoc([91], PrintItems(w.items, true), y);
      Cancel([91], PrintItems(items, true) + x, PrintItems(w.items, true) + y);
      ItemsPrefix(items, w.items, true, x, y);
    case Obj(fields) =>
      Assoc([123], PrintFields(fields, true), x);
      Assoc([123], PrintFields(w.fields, true), y);
      Cancel([123], PrintFields(fields, true) + x, PrintFields(w.fields, true) + y);
      FieldsPrefix(fields, w.fields, true, x, y);
  }

  lemma FirstUnit(v: Json)
    ensures |Print(v)| > 0 && Print(v)[0] !in [93, 125, 44]
  {
  }

  lemma ItemsStart(xs: Items, first: bool)
    ensures |PrintItems(xs, first)| > 0 && (PrintItems(xs, first)[0] == 93 <==> xs.NoItems?)
  {
    if xs.Item? { FirstUnit(xs.head); }
  }

  lemma FieldsStart(fs: Fields, first: bool)
    ensures |PrintFields(fs, first)| > 0 && (PrintFields(fs, first)[0] == 125 <==> fs.NoFields?)
  {
  }

  lemma Cancel(p: Text, x: Text, y: Text)
    requires p + x == p + y
    ensures x == y
  {
    assert (p + x)[|p|..] == x && (p + y)[|p|..] == y;
  }

  lemma {:induction false} ItemsPrefix(xs: Items, ys: Items, first: bool, x: Text, y: Text)
    requires PrintItems(xs, first) + x == PrintItems(ys, first) + y && Ends(x) && Ends(y)
    ensures xs == ys && x == y
    decreases xs, 1
  {
    ItemsStart(xs, first);
    ItemsStart(ys, first);
    assert (PrintItems(xs, first) + x)[0] == (PrintItems(ys, first) + y)[0];
    match (xs, ys)
    case (Item(v, restX), Item(w, restY)) =>
      var tailX, tailY := PrintItems(restX, false) + x, PrintItems(restY, false) + y;
      ItemSplit(xs, first, x);
      ItemSplit(ys, first, y);
      Cancel(Comma(first), Print(v) + tailX, Print(w) + tailY);
      ItemsStart(restX, false);
      ItemsStart(restY, false);
      PrintPrefix(v, w, tailX, tailY);
      ItemsPrefix(restX, restY, false, x, y);
    case (NoItems, NoItems) => Cancel([93], x, y);
    case _ => assert false;
  }

  lemma {:induction false} FieldsPrefix(xs: Fields, ys: Fields, first: bool, x: Text, y: Text)
    requires PrintFields(xs, first) + x == PrintFields(ys, first) + y && Ends(x) && Ends(y)
    ensures xs == ys && x == y
    decreases xs, 1
  {
    FieldsStart(xs, first);
    FieldsStart(ys, first);
    assert (PrintFields(xs, first) + x)[0] == (PrintFields(ys, first) + y)[0];
    match (xs, ys)
    case (Field(k, v, restX), Field(l, w, restY)) =>
      var tailX, tailY := PrintFields(restX, false) + x, PrintFields(restY, false) + y;
      FieldSplit(xs, first, x);
      FieldSplit(ys, first, y);
      Cancel(Comma(first), Quote(k) + ([58] + (Print(v) + tailX)), Quote(l) + ([58] + (Print(w) + tailY)));
      QuoteInjective(k, l, [58] + (Print(v) + tailX), [58] + (Print(w) + tailY));
      Cancel([58], Print(v) + tailX, Print(w) + tailY);
      FieldsStart(restX, false);
      FieldsStart(restY, false);
      PrintPrefix(v, w, tailX, tailY);
      FieldsPrefix(restX, restY, false, x, y);
    case (NoFields, NoFields) => Cancel([125], x, y);
    case _ => assert false;
  }

  lemma ItemSplit(xs: Items, first: bool, x: Text)
    requires xs.Item?
    ensures PrintItems(xs, first) + x == Comma(first) + (Print(xs.head) + (PrintItems(xs.rest, false) + x))
  {
    var c, p, r := Comma(first), Print(xs.head), PrintItems(xs.rest, false);
    Assoc(c + p, r, x);
    Assoc(c, p, r + x);
  }

  lemma FieldSplit(fs: Fields, first: bool, x: Text)
    requires fs.Field?
    ensures PrintFields(fs, first) + x
         == Comma(first) + (Quote(fs.key) + ([58] + (Print(fs.value) + (PrintFields(fs.tail, false) + x))))
  {
    var c, q, p, r := Comma(first), Quote(fs.key), Print(fs.value), PrintFields(fs.tail, false);
    Assoc(c + q + [58] + p, r, x);
    Assoc(c + q + [58], p, r + x);
    Assoc(c + q, [58], p + (r + x));
    Assoc(c, q, [58] + (p + (r + x)));
  }

  lemma PrintIsInjective(v: Json, w: Json)
    ensures Print(v) == Print(w) <==> v == w
  {
    if Print(v) == Print(w) {
      assert Print(v) + [] == Print(w) + [];
      PrintPrefix(v, w, [], []);
    }
  }
}

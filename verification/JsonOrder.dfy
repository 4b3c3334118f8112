/** The order in which the canonical text lists the keys of an object: array indices by their value, then
    all other keys by code units. */
module JsonOrder {
  import opened StableJson
  import opened CanonicalJson

  // ---------------------------------------------------------------- code units

  /** At the first place where they differ, `a` has ended or has the smaller unit. */
  ghost predicate DiffersBelow(a: Text, b: Text, n: nat) {
    n <= |a| && n < |b| && a[..n] == b[..n] && (n == |a| || a[n] < b[n])
  }

  lemma {:induction false} UnitsLessIff(a: Text, b: Text)
    ensures UnitsLess(a, b) <==> exists n: nat :: DiffersBelow(a, b, n)
    decreases |a|
  {
    if |a| > 0 && |b| > 0 && a[0] == b[0] {
      UnitsLessIff(a[1..], b[1..]);
      if n: nat :| DiffersBelow(a[1..], b[1..], n) {
        assert a == [a[0]] + a[1..] && b == [b[0]] + b[1..];
        assert DiffersBelow(a, b, n + 1);
      }
      if n: nat :| DiffersBelow(a, b, n) {
        assert n > 0 && a[1..][..n - 1] == a[..n][1..] && b[1..][..n - 1] == b[..n][1..];
        assert DiffersBelow(a[1..], b[1..], n - 1);
      }
    } else if |b| > 0 && (|a| == 0 || a[0] < b[0]) {
      assert DiffersBelow(a, b, 0);
    } else if n: nat :| DiffersBelow(a, b, n) {
      FirstUnits(a, b, n);
    }
  }

  lemma FirstUnits(a: Text, b: Text, n: nat)
    requires DiffersBelow(a, b, n) && |a| > 0
    ensures a[0] <= b[0] && (n == 0 ==> a[0] < b[0])
  {
    if n > 0 {
      assert a[..n][0] == a[0] && b[..n][0] == b[0];
    }
  }

  // ---------------------------------------------------------------- array indices

  function Pow10(n: nat): nat {
    if n == 0 then 1 else 10 * Pow10(n - 1)
  }

  predicate AllDigits(k: Text) {
    forall i :: 0 <= i < |k| ==> 48 <= k[i] <= 57
  }

  /** The number that decimal digits stand for. */
  function Value(k: Text): nat
    requires AllDigits(k)
  {
    if k == [] then 0 else (k[0] - 48) * Pow10(|k| - 1) + Value(k[1..])
  }

  lemma {:induction false} ValueBound(k: Text)
    requires AllDigits(k)
    ensures Value(k) < Pow10(|k|)
  {
    if k != [] {
      ValueBound(k[1..]);
      Scaled(k[0] - 48, 9, Pow10(|k| - 1));
    }
  }

  lemma Scaled(d: nat, e: nat, p: nat)
    requires d <= e
    ensures d * p <= e * p && (e + 1) * p == e * p + p
  {
  }

  /** A smaller leading digit decides. */
  lemma LeadingDigit(d: nat, e: nat, p: nat, x: nat, y: nat)
    requires d < e && x < p
    ensures d * p + x < e * p + y
  {
    Scaled(d + 1, e, p);
    Scaled(d, d, p);
  }

  /** Digits of the same length compare like their values. */
  lemma {:induction false} SameLength(a: Text, b: Text)
    requires AllDigits(a) && AllDigits(b) && |a| == |b|
    ensures UnitsLess(a, b) <==> Value(a) < Value(b)
    ensures a == b <==> Value(a) == Value(b)
    decreases |a|
  {
    if a != [] {
      var x, y := Value(a[1..]), Value(b[1..]);
      var p := Pow10(|a| - 1);
      ValueBound(a[1..]);
      ValueBound(b[1..]);
      if a[0] < b[0] {
        LeadingDigit(a[0] - 48, b[0] - 48, p, x, y);
      } else if b[0] < a[0] {
        LeadingDigit(b[0] - 48, a[0] - 48, p, y, x);
      } else {
        SameLength(a[1..], b[1..]);
        assert a == [a[0]] + a[1..] && b == [b[0]] + b[1..];
      }
    }
  }

  /** Without a leading zero a longer number is larger. */
  lemma Longer(a: Text, b: Text)
    requires AllDigits(a) && AllDigits(b) && |a| < |b| && b[0] != 48
    ensures Value(a) < Value(b)
  {
    ValueBound(a);
    Scaled(1, b[0] - 48, Pow10(|b| - 1));
    PowGrows(|a|, |b| - 1);
  }

  lemma {:induction false} PowGrows(m: nat, n: nat)
    requires m <= n
    ensures 0 < Pow10(m) <= Pow10(n)
    decreases n
  {
    if m < n {
      PowGrows(m, n - 1);
    } else if m > 0 {
      PowGrows(m - 1, n - 1);
    }
  }

  /** A decimal number without leading zeros, below the largest array length. */
  predicate IsArrayIndex(k: Text) {
    k != [] && AllDigits(k) && (k[0] == 48 ==> |k| == 1) && Value(k) < 4294967295
  }

  lemma Prepended(u: Unit, k: Text, p: nat, value: nat)
    requires 48 <= u <= 57 && AllDigits(k) && Pow10(|k|) == p && Value(k) == value
    ensures AllDigits([u] + k) && Pow10(|k| + 1) == 10 * p && Value([u] + k) == (u - 48) * p + value
  {
    var s := [u] + k;
    assert s[0] == u && s[1..] == k && |s| - 1 == |k|;
    assert Value(s) == (s[0] - 48) * Pow10(|s| - 1) + Value(s[1..]);
  }

  /** 4294967294, digit by digit. */
  const TAIL: Text := [55] + ([50] + ([57] + ([52] + [])))
  const MIDDLE: Text := [57] + ([54] + TAIL)
  const LIMIT: Text := [52] + ([50] + ([57] + ([52] + MIDDLE)))

  lemma TailValue()
    ensures AllDigits(TAIL) && Value(TAIL) == 7294 && |TAIL| == 4 && Pow10(4) == 10000
  {
    Prepended(52, [], 1, 0);
    Prepended(57, [52] + [], 10, 4);
    Prepended(50, [57] + ([52] + []), 100, 94);
    Prepended(55, [50] + ([57] + ([52] + [])), 1000, 294);
  }

  lemma MiddleValue()
    ensures AllDigits(MIDDLE) && Value(MIDDLE) == 967294 && |MIDDLE| == 6 && Pow10(6) == 1000000
  {
    TailValue();
    Prepended(54, TAIL, 10000, 7294);
    Prepended(57, [54] + TAIL, 100000, 67294);
  }

  lemma LimitValue()
    ensures AllDigits(LIMIT) && Value(LIMIT) == 4294967294 && |LIMIT| == 10 && Pow10(9) == 1000000000 && Pow10(10) == 10000000000
  {
    MiddleValue();
    Prepended(52, MIDDLE, 1000000, 967294);
    Prepended(57, [52] + MIDDLE, 10000000, 4967294);
    Prepended(50, [57] + ([52] + MIDDLE), 100000000, 94967294);
    Prepended(52, [50] + ([57] + ([52] + MIDDLE)), 1000000000, 294967294);
  }

  lemma LimitUnits()
    ensures LIMIT == [52, 50, 57, 52, 57, 54, 55, 50, 57, 52]
  {
  }

  predicate IsDecimal(k: Text) {
    k != [] && AllDigits(k) && (k[0] == 48 ==> |k| == 1)
  }

  lemma ShortIsIndex(k: Text)
    requires IsDecimal(k) && |k| < 10
    ensures IsIndex(k) && Value(k) < 4294967295
  {
    LimitValue();
    ValueBound(k);
    PowGrows(|k|, 9);
  }

  lemma TenDigits(k: Text)
    requires IsDecimal(k) && |k| == 10
    ensures IsIndex(k) <==> Value(k) < 4294967295
  {
    LimitValue();
    LimitUnits();
    SameLength(LIMIT, k);
  }

  /** The keys that are enumerated first are the array indices. */
  lemma IsIndexIff(k: Text)
    ensures IsIndex(k) <==> IsArrayIndex(k)
  {
    if IsDecimal(k) {
      if |k| < 10 {
        ShortIsIndex(k);
      } else if |k| == 10 {
        TenDigits(k);
      } else {
        LongerIsLarger(k);
      }
    }
  }

  lemma LongerIsLarger(k: Text)
    requires AllDigits(k) && |k| > 10 && k[0] != 48
    ensures Value(k) >= 10000000000
  {
    LimitValue();
    Scaled(1, k[0] - 48, Pow10(|k| - 1));
    PowGrows(10, |k| - 1);
  }

  lemma IndexLessIff(a: Text, b: Text)
    requires IsArrayIndex(a) && IsArrayIndex(b)
    ensures IndexLess(a, b) <==> Value(a) < Value(b)
  {
    if |a| == |b| {
      SameLength(a, b);
    } else if |a| < |b| {
      Longer(a, b);
    } else {
      Longer(b, a);
    }
  }

  // ---------------------------------------------------------------- the order of the keys

  /** Indices by value, then the other keys by code units. */
  ghost predicate Precedes(a: Text, b: Text) {
    if IsArrayIndex(a) then (IsArrayIndex(b) ==> Value(a) < Value(b))
    else !IsArrayIndex(b) && exists n: nat :: DiffersBelow(a, b, n)
  }

  function KeysOf(fs: Fields): seq<Text> {
    match fs
    case NoFields => []
    case Field(k, _, tail) => [k] + KeysOf(tail)
  }

  lemma {:induction false} KeysAreDict(fs: Fields)
    ensures forall k :: k in KeysOf(fs) <==> k in Dict(fs)
  {
    if fs.Field? {
      KeysAreDict(fs.tail);
    }
  }

  lemma KeyLessPrecedes(a: Text, b: Text)
    requires KeyLess(a, b)
    ensures Precedes(a, b)
  {
    IsIndexIff(a);
    IsIndexIff(b);
    UnitsLessIff(a, b);
    if IsArrayIndex(a) && IsArrayIndex(b) {
      IndexLessIff(a, b);
    }
  }

  lemma {:induction false} AscendingPrecedes(fs: Fields)
    requires Ascending(ByEnumeration, fs)
    ensures forall i, j :: 0 <= i < j < |KeysOf(fs)| ==> Precedes(KeysOf(fs)[i], KeysOf(fs)[j])
  {
    if fs.Field? {
      AscendingPrecedes(fs.tail);
      KeysAreDict(fs.tail);
      forall j | 0 <= j < |KeysOf(fs.tail)| ensures Precedes(fs.key, KeysOf(fs.tail)[j]) {
        assert KeysOf(fs.tail)[j] in Dict(fs.tail);
        KeyLessPrecedes(fs.key, KeysOf(fs.tail)[j]);
      }
    }
  }

  /** The canonical form of an object lists its keys without `__proto__`, array indices first and by value,
      then the others by code units. */
  lemma KeysInOrder(fs: Fields)
    requires Distinct(fs)
    ensures var keys := KeysOf(SortValue(Obj(fs)).fields);
            && (forall i, j :: 0 <= i < j < |keys| ==> Precedes(keys[i], keys[j]))
            && (forall k :: k in keys <==> k in KeysOf(fs) && k != PROTO)
  {
    SortedObject(fs);
    AscendingPrecedes(SortValue(Obj(fs)).fields);
    KeysAreDict(SortValue(Obj(fs)).fields);
    KeysAreDict(fs);
  }
}

/** Money text: `decimalToMinorUnits`, `minorUnitsToDecimal` and the share arithmetic. */
module Money {
  import opened Common

  const DRIVER_EARNINGS_BPS := 8000
  const PLATFORM_COMMISSION_BPS := 2000
  const BPS_DENOMINATOR := 10000

  // ---------------------------------------------------------------- decimal digits

  predicate IsDigit(c: char) {
    '0' <= c <= '9'
  }

  predicate AllDigits(s: string) {
    forall i :: 0 <= i < |s| ==> IsDigit(s[i])
  }

  function DigitsValue(s: string): nat
    requires AllDigits(s)
  {
    if s == "" then 0
    else DigitsValue(s[..|s| - 1]) * 10 + (s[|s| - 1] as int - '0' as int)
  }

  function DigitChar(d: nat): char
    requires d < 10
  {
    ('0' as int + d) as char
  }

  function PrintNat(n: nat): (s: string)
    ensures s != "" && AllDigits(s)
    ensures DigitsValue(s) == n
    ensures s[0] == '0' ==> s == "0"
  {
    if n < 10 then [DigitChar(n)] else PrintNat(n / 10) + [DigitChar(n % 10)]
  }

  /** A digit string without a leading zero is the print of its value. */
  lemma {:induction false} PrintOfValue(s: string)
    requires s != "" && AllDigits(s)
    requires s[0] == '0' ==> s == "0"
    ensures PrintNat(DigitsValue(s)) == s
  {
    var front := s[..|s| - 1];
    if front != "" {
      PrintOfValue(front);
      ValuePositive(front);
      assert s == front + [s[|s| - 1]];
    } else {
      assert s == [s[0]];
      assert DigitsValue(front) == 0;
    }
  }

  lemma {:induction false} ValuePositive(s: string)
    requires s != "" && AllDigits(s) && s[0] != '0'
    ensures DigitsValue(s) > 0
  {
    if |s| > 1 {
      ValuePositive(s[..|s| - 1]);
    }
  }

  // ---------------------------------------------------------------- the two conversions

  /** `BigInt(text)` on sign and digits; the empty text is 0n, anything else throws. */
  function ParseBigInt(s: string): Option<int> {
    if s == "" then Some(0)
    else if AllDigits(s) then Some(DigitsValue(s))
    else if s[0] == '-' && |s| > 1 && AllDigits(s[1..]) then Some(0 - DigitsValue(s[1..]))
    else if s[0] == '+' && |s| > 1 && AllDigits(s[1..]) then Some(DigitsValue(s[1..]))
    else None
  }

  function UpToDot(s: string): (r: string)
    ensures |r| <= |s|
  {
    if s == "" || s[0] == '.' then "" else [s[0]] + UpToDot(s[1..])
  }

  /** `value.split('.')[0]` */
  function WholePart(s: string): string {
    UpToDot(s)
  }

  /** `value.split('.')[1]`, the empty text when there is no dot. */
  function FractionPart(s: string): string {
    var k := |UpToDot(s)|;
    if k < |s| then UpToDot(s[k + 1..]) else ""
  }

  function DecimalToMinorUnits(s: string): Option<int> {
    var normalized := (FractionPart(s) + "00")[..2];
    match (ParseBigInt(WholePart(s)), ParseBigInt(normalized))
    case (Some(whole), Some(fraction)) => Some(whole * 100 + fraction)
    case _ => None
  }

  function PadTwo(s: string): string {
    if |s| < 2 then "0" + s else s
  }

  function Absolute(units: int): nat {
    if units < 0 then -units else units
  }

  function SignedWhole(units: int): string {
    if units < 0 then "-" + PrintNat(Absolute(units) / 100) else PrintNat(Absolute(units) / 100)
  }

  function MinorUnitsToDecimal(units: int): string {
    SignedWhole(units) + "." + PadTwo(PrintNat(Absolute(units) % 100))
  }

  /** The text a database Decimal prints: trailing zeros, and a bare dot, are dropped. */
  function DatabaseText(units: int): string {
    var cents := Absolute(units) % 100;
    if cents == 0 then SignedWhole(units)
    else if cents % 10 == 0 then SignedWhole(units) + "." + PrintNat(cents / 10)
    else SignedWhole(units) + "." + PadTwo(PrintNat(cents))
  }

  /** What a stored amount reads back as: the fraction of a negative amount is added, not subtracted. */
  function ReadBack(units: int): (r: int)
    ensures units >= 0 ==> r == units
    ensures r == units <==> units >= 0 || units % 100 == 0
  {
    if units >= 0 then units else units + 2 * ((-units) % 100)
  }

  /** What a guard "balance at least `s`" on a balance that was read back lets through: the
      balances that meet it, and besides them those between -1.00 and 0 that miss it by their sign. */
  lemma ReadBackGuard(units: int, s: nat)
    ensures ReadBack(units) >= s <==> units >= s || (-100 < units < 0 && s <= -units)
  {
    if units < 0 {
      var whole, cents := (-units) / 100, (-units) % 100;
      assert ReadBack(units) == cents - 100 * whole;
    }
  }

  // ---------------------------------------------------------------- inverse laws

  lemma {:induction false} UpToDotStops(front: string, rest: string)
    requires forall i :: 0 <= i < |front| ==> front[i] != '.'
    requires rest == "" || rest[0] == '.'
    ensures UpToDot(front + rest) == front
  {
    if front == "" {
      assert front + rest == rest;
    } else {
      assert (front + rest)[1..] == front[1..] + rest;
      UpToDotStops(front[1..], rest);
    }
  }

  lemma SplitAtDot(whole: string, fraction: string)
    requires forall i :: 0 <= i < |whole| ==> whole[i] != '.'
    requires forall i :: 0 <= i < |fraction| ==> fraction[i] != '.'
    ensures WholePart(whole + "." + fraction) == whole
    ensures FractionPart(whole + "." + fraction) == fraction
    ensures WholePart(whole) == whole && FractionPart(whole) == ""
  {
    var s := whole + "." + fraction;
    assert s == whole + ("." + fraction);
    UpToDotStops(whole, "." + fraction);
    assert s[|whole| + 1..] == fraction;
    UpToDotStops(fraction, "");
    assert fraction + "" == fraction;
    UpToDotStops(whole, "");
    assert whole + "" == whole;
  }

  lemma ParseSigned(units: int)
    ensures forall i :: 0 <= i < |SignedWhole(units)| ==> SignedWhole(units)[i] != '.'
    ensures ParseBigInt(SignedWhole(units)) ==
            Some(if units < 0 then 0 - Absolute(units) / 100 else Absolute(units) / 100)
  {
    var digits := PrintNat(Absolute(units) / 100);
    assert ("-" + digits)[1..] == digits;
    assert ("-" + digits)[0] == '-' && !IsDigit('-');
  }

  lemma TwoDigits(f: nat)
    requires f < 100
    ensures var t := PadTwo(PrintNat(f)); |t| == 2 && AllDigits(t) && DigitsValue(t) == f && (t + "00")[..2] == t
  {
    var t := PadTwo(PrintNat(f));
    if f < 10 {
      assert PrintNat(f) == [DigitChar(f)];
      assert t[..1] == "0" && DigitsValue("0") == 0;
    } else {
      assert PrintNat(f) == PrintNat(f / 10) + [DigitChar(f % 10)] == [DigitChar(f / 10)] + [DigitChar(f % 10)];
    }
  }

  /** A whole part that parses to `w` and two digits worth `f` parse to `100 * w + f`. */
  lemma ParseParts(whole: string, fraction: string, w: int, f: nat)
    requires forall i :: 0 <= i < |whole| ==> whole[i] != '.'
    requires ParseBigInt(whole) == Some(w)
    requires |fraction| == 2 && AllDigits(fraction) && DigitsValue(fraction) == f
    ensures DecimalToMinorUnits(whole + "." + fraction) == Some(w * 100 + f)
  {
    var s := whole + "." + fraction;
    assert WholePart(s) == whole && FractionPart(s) == fraction by {
      SplitAtDot(whole, fraction);
    }
    assert (fraction + "00")[..2] == fraction;
    assert ParseBigInt(fraction) == Some(f);
  }

  /** One digit after the dot counts tens. */
  lemma ParseTenths(whole: string, tenths: nat, w: int)
    requires forall i :: 0 <= i < |whole| ==> whole[i] != '.'
    requires ParseBigInt(whole) == Some(w) && tenths < 10
    ensures DecimalToMinorUnits(whole + "." + PrintNat(tenths)) == Some(w * 100 + 10 * tenths)
  {
    var text := PrintNat(tenths);
    assert text == [DigitChar(tenths)];
    SplitAtDot(whole, text);
    assert (text + "00")[..2] == text + "0";
    assert (text + "0")[..1] == text;
    assert DigitsValue(text + "0") == 10 * tenths;
  }

  /** No dot: no minor units. */
  lemma ParseWhole(whole: string, w: int)
    requires forall i :: 0 <= i < |whole| ==> whole[i] != '.'
    requires ParseBigInt(whole) == Some(w)
    ensures DecimalToMinorUnits(whole) == Some(w * 100)
  {
    SplitAtDot(whole, "");
    assert ("" + "00")[..2] == "00" && "00"[..1] == "0" && "0"[..0] == "";
    assert DigitsValue("0") == 0 && DigitsValue("00") == 0;
  }

  lemma ReadBackParts(units: int)
    ensures (if units < 0 then 0 - Absolute(units) / 100 else Absolute(units) / 100) * 100 + Absolute(units) % 100
         == ReadBack(units)
  {
  }

  /** Parsing a printed amount gives it back for n >= 0, and n + 2*(-n mod 100) for n < 0. */
  lemma ParsePrint(units: int)
    ensures DecimalToMinorUnits(MinorUnitsToDecimal(units)) == Some(ReadBack(units))
  {
    var w := if units < 0 then 0 - Absolute(units) / 100 else Absolute(units) / 100;
    ParseSigned(units);
    TwoDigits(Absolute(units) % 100);
    ParseParts(SignedWhole(units), PadTwo(PrintNat(Absolute(units) % 100)), w, Absolute(units) % 100);
    ReadBackParts(units);
  }

  lemma ParseWholeText(units: int)
    requires Absolute(units) % 100 == 0
    ensures DecimalToMinorUnits(DatabaseText(units)) == Some(ReadBack(units))
  {
    ParseSigned(units);
    ReadBackParts(units);
    ParseWhole(SignedWhole(units), if units < 0 then 0 - Absolute(units) / 100 else Absolute(units) / 100);
  }

  lemma ParseTenthsText(units: int)
    requires Absolute(units) % 100 != 0 && Absolute(units) % 100 % 10 == 0
    ensures DecimalToMinorUnits(DatabaseText(units)) == Some(ReadBack(units))
  {
    var tenths := Absolute(units) % 100 / 10;
    assert 10 * tenths == Absolute(units) % 100;
    ParseSigned(units);
    ReadBackParts(units);
    ParseTenths(SignedWhole(units), tenths, if units < 0 then 0 - Absolute(units) / 100 else Absolute(units) / 100);
  }

  /** The same through the database, which drops trailing zeros. */
  lemma ParseDatabaseText(units: int)
    ensures DecimalToMinorUnits(DatabaseText(units)) == Some(ReadBack(units))
  {
    if Absolute(units) % 100 == 0 {
      ParseWholeText(units);
    } else if Absolute(units) % 100 % 10 == 0 {
      ParseTenthsText(units);
    } else {
      ParsePrint(units);
    }
  }

  /** Digits without a leading zero, a dot, two digits. */
  predicate Canonical(s: string) {
    |s| >= 4 && s[|s| - 3] == '.' &&
    var whole, fraction := s[..|s| - 3], s[|s| - 2..];
    AllDigits(whole) && AllDigits(fraction) && (whole[0] == '0' ==> whole == "0")
  }

  /** Printing a parsed amount gives the text back, on canonical two-decimal texts. */
  lemma PrintParse(s: string)
    requires Canonical(s)
    ensures DecimalToMinorUnits(s).Some?
    ensures MinorUnitsToDecimal(DecimalToMinorUnits(s).value) == s
  {
    var whole, fraction := s[..|s| - 3], s[|s| - 2..];
    var f := DigitsValue(fraction);
    assert s == whole + "." + fraction;
    ParseParts(whole, fraction, DigitsValue(whole), f);
    TwoDigitsBelow100(fraction);
    PrintOfValue(whole);
    TwoDigits(f);
    SameTwoDigits(fraction, PadTwo(PrintNat(f)));
    assert (DigitsValue(whole) * 100 + f) / 100 == DigitsValue(whole);
    assert "" + whole == whole;
  }

  lemma TwoDigitsBelow100(a: string)
    requires |a| == 2 && AllDigits(a)
    ensures DigitsValue(a) < 100
  {
    assert a[..1] == [a[0]] && a[..1][..0] == "";
    assert DigitsValue(a[..1]) == a[0] as int - '0' as int;
  }

  lemma SameTwoDigits(a: string, b: string)
    requires |a| == |b| == 2 && AllDigits(a) && AllDigits(b) && DigitsValue(a) == DigitsValue(b)
    ensures a == b
  {
    assert a[..1] == [a[0]] && b[..1] == [b[0]];
    assert a[..1][..0] == "" && b[..1][..0] == "";
    assert DigitsValue(a[..1]) == a[0] as int - '0' as int;
    assert DigitsValue(b[..1]) == b[0] as int - '0' as int;
    assert a == [a[0], a[1]] && b == [b[0], b[1]];
  }

  // ---------------------------------------------------------------- shares

  function CalculateShare(amountMinor: nat, basisPoints: nat): nat {
    amountMinor * basisPoints / BPS_DENOMINATOR
  }

  /** Commission is what the driver share leaves over; a refund reverses a commission computed
      on its own, which is one minor unit short exactly when the gross is not divisible by 5. */
  lemma CommissionResidue(gross: nat)
    ensures CalculateShare(gross, DRIVER_EARNINGS_BPS) == 4 * gross / 5 <= gross
    ensures CalculateShare(gross, PLATFORM_COMMISSION_BPS) == gross / 5
    ensures gross - CalculateShare(gross, DRIVER_EARNINGS_BPS) - CalculateShare(gross, PLATFORM_COMMISSION_BPS)
         == if gross % 5 == 0 then 0 else 1
  {
    assert CalculateShare(gross, DRIVER_EARNINGS_BPS) == 4 * gross / 5;
    assert CalculateShare(gross, PLATFORM_COMMISSION_BPS) == gross / 5;
    var k, r := gross / 5, gross % 5;
    assert 4 * gross / 5 == 4 * k + 4 * r / 5;
  }
}

/** Card number validation: the Luhn loop and what it catches. */
module Luhn {
  type Digit = d: nat | d < 10

  predicate IsDigit(c: char) {
    '0' <= c <= '9'
  }

  function DigitOf(c: char): Digit
    requires IsDigit(c)
  {
    c as int - '0' as int
  }

  /** `card.replace(/\D/g, '')` */
  function Digits(card: string): seq<Digit> {
    if card == "" then []
    else (if IsDigit(card[0]) then [DigitOf(card[0])] else []) + Digits(card[1..])
  }

  function Doubled(d: Digit): Digit {
    if 2 * d > 9 then 2 * d - 9 else 2 * d
  }

  /** The check of ISO/IEC 7812-1, Annex B, from the rightmost digit; `alternate` says whether
      that digit is one of those that are doubled. */
  function LuhnSum(ds: seq<Digit>, alternate: bool): nat {
    if ds == [] then 0
    else
      var last := ds[|ds| - 1];
      (if alternate then Doubled(last) else last) + LuhnSum(ds[..|ds| - 1], !alternate)
  }

  predicate Accepted(ds: seq<Digit>) {
    13 <= |ds| <= 19 && LuhnSum(ds, false) % 10 == 0
  }

  method ValidateCardNumber(card: string) returns (valid: bool)
    ensures valid <==> Accepted(Digits(card))
  {
    if card == "" {
      return false;
    }
    var cleaned := Digits(card);
    if |cleaned| < 13 || |cleaned| > 19 {
      return false;
    }
    var sum, isEven := 0, false;
    var i := |cleaned|;
    assert cleaned[..i] == cleaned;
    while i > 0
      invariant 0 <= i <= |cleaned|
      invariant sum + LuhnSum(cleaned[..i], isEven) == LuhnSum(cleaned, false)
    {
      i := i - 1;
      assert cleaned[..i + 1][..i] == cleaned[..i];
      var digit: nat := cleaned[i];
      if isEven {
        digit := digit * 2;
        if digit > 9 {
          digit := digit - 9;
        }
      }
      sum := sum + digit;
      isEven := !isEven;
    }
    return sum % 10 == 0;
  }

  // ---------------------------------------------------------------- the check by position

  /** What a digit counts: as it is at even distances from the right end, at odd ones by the digits of its
      double. */
  function Counted(d: Digit, fromRight: nat): nat {
    if fromRight % 2 == 0 then d else 2 * d / 10 + 2 * d % 10
  }

  lemma CountedIsDoubled(d: Digit, fromRight: nat)
    ensures Counted(d, fromRight) == if fromRight % 2 == 1 then Doubled(d) else d
  {
  }

  lemma NextParity(n: nat)
    ensures (n + 1) % 2 == 1 <==> n % 2 != 1
  {
  }

  lemma Completes(total: nat, sum: nat, check: Digit)
    requires total == sum + check
    ensures total % 10 == 0 <==> check == (10 - sum % 10) % 10
  {
    var r := sum % 10;
    assert total == sum / 10 * 10 + (r + check);
    assert total % 10 == (r + check) % 10;
  }

  /** The sum from the left, with `behind` digits to the right of these. */
  function PositionSum(ds: seq<Digit>, behind: nat): nat {
    if ds == [] then 0 else Counted(ds[0], |ds| - 1 + behind) + PositionSum(ds[1..], behind)
  }

  lemma {:induction false} PositionLast(ds: seq<Digit>, behind: nat)
    requires ds != []
    ensures PositionSum(ds, behind) == PositionSum(ds[..|ds| - 1], behind + 1) + Counted(ds[|ds| - 1], behind)
  {
    if |ds| > 1 {
      assert ds[1..][..|ds| - 2] == ds[..|ds| - 1][1..];
      PositionLast(ds[1..], behind);
    }
  }

  lemma {:induction false} SumIsPositionSum(ds: seq<Digit>, behind: nat)
    ensures LuhnSum(ds, behind % 2 == 1) == PositionSum(ds, behind)
  {
    if ds != [] {
      PositionLast(ds, behind);
      CountedIsDoubled(ds[|ds| - 1], behind);
      NextParity(behind);
      SumIsPositionSum(ds[..|ds| - 1], behind + 1);
    }
  }

  /** What is accepted, said by positions. */
  lemma AcceptedIff(ds: seq<Digit>)
    ensures Accepted(ds) <==> 13 <= |ds| <= 19 && PositionSum(ds, 0) % 10 == 0
  {
    SumIsPositionSum(ds, 0);
  }

  lemma CheckDigitAdds(ds: seq<Digit>, check: Digit)
    ensures PositionSum(ds + [check], 0) == PositionSum(ds, 1) + check
  {
    PositionLast(ds + [check], 0);
    assert (ds + [check])[..|ds|] == ds && Counted(check, 0) == check;
  }

  /** Every 12 to 18 digits are completed by exactly one check digit. */
  lemma OneCheckDigit(ds: seq<Digit>, check: Digit)
    requires 12 <= |ds| <= 18
    ensures Accepted(ds + [check]) <==> check == (10 - PositionSum(ds, 1) % 10) % 10
  {
    AcceptedIff(ds + [check]);
    CheckDigitAdds(ds, check);
    Completes(PositionSum(ds + [check], 0), PositionSum(ds, 1), check);
  }

  /** Which digits are read: all of them in order, and nothing else. */
  lemma {:induction false} DigitsInOrder(a: string, b: string)
    ensures Digits(a + b) == Digits(a) + Digits(b)
    ensures |a| == 1 ==> Digits(a) == if '0' <= a[0] <= '9' then [a[0] as int - '0' as int] else []
  {
    if a == "" {
      assert a + b == b;
    } else {
      assert (a + b)[1..] == a[1..] + b;
      DigitsInOrder(a[1..], b);
    }
  }

  // ---------------------------------------------------------------- what it catches

  function Weight(d: Digit, alternate: bool): Digit {
    if alternate then Doubled(d) else d
  }

  /** Whether position `i` of `n` digits is one that is doubled. */
  predicate IsAlternate(n: nat, i: nat, alternate: bool)
    requires i < n
  {
    alternate == ((n - 1 - i) % 2 == 0)
  }

  /** Replacing one digit changes the sum by the difference of its weights. */
  lemma {:induction false} SumOfChange(ds: seq<Digit>, i: nat, d: Digit, alternate: bool)
    requires i < |ds|
    ensures LuhnSum(ds[i := d], alternate) - LuhnSum(ds, alternate)
         == Weight(d, IsAlternate(|ds|, i, alternate)) - Weight(ds[i], IsAlternate(|ds|, i, alternate))
  {
    var n := |ds| - 1;
    if i < n {
      assert ds[i := d][..n] == ds[..n][i := d];
      SumOfChange(ds[..n], i, d, !alternate);
    } else {
      assert ds[i := d][..n] == ds[..n];
    }
  }

  /** Changing any one digit of an accepted number makes it rejected. */
  lemma SingleErrorIsCaught(ds: seq<Digit>, i: nat, d: Digit)
    requires Accepted(ds) && i < |ds| && d != ds[i]
    ensures !Accepted(ds[i := d])
  {
    SumOfChange(ds, i, d, false);
    WeightsDiffer(d, ds[i], IsAlternate(|ds|, i, false));
    SmallChange(LuhnSum(ds, false), LuhnSum(ds[i := d], false));
  }

  lemma WeightsDiffer(d: Digit, e: Digit, alternate: bool)
    requires d != e
    ensures Weight(d, alternate) != Weight(e, alternate)
  {
  }

  /** What doubling a digit adds is different for different digits, 0 and 9 aside. */
  lemma DoublingGain(a: Digit, b: Digit)
    ensures -4 <= Doubled(a) - a <= 4
    ensures Doubled(a) - a == Doubled(b) - b <==> a == b || (a == 0 && b == 9) || (a == 9 && b == 0)
  {
  }

  function Swapped(ds: seq<Digit>, i: nat): seq<Digit>
    requires i + 1 < |ds|
  {
    ds[i := ds[i + 1]][i + 1 := ds[i]]
  }

  lemma SumOfSwap(ds: seq<Digit>, i: nat)
    requires i + 1 < |ds|
    ensures var gain := (Doubled(ds[i]) - ds[i]) - (Doubled(ds[i + 1]) - ds[i + 1]);
            LuhnSum(Swapped(ds, i), false) - LuhnSum(ds, false)
            == if IsAlternate(|ds|, i, false) then 0 - gain else gain
  {
    var once := ds[i := ds[i + 1]];
    SumOfChange(ds, i, ds[i + 1], false);
    SumOfChange(once, i + 1, ds[i], false);
    Neighbours(|ds|, i);
    assert Swapped(ds, i) == once[i + 1 := ds[i]] && once[i + 1] == ds[i + 1];
  }

  lemma Neighbours(n: nat, i: nat)
    requires i + 1 < n
    ensures IsAlternate(n, i, false) == !IsAlternate(n, i + 1, false)
  {
  }

  /** Swapping two neighbours of an accepted number keeps it accepted if and only if they are
      equal or are 0 and 9. */
  lemma SwapIsCaughtIff(ds: seq<Digit>, i: nat)
    requires Accepted(ds) && i + 1 < |ds|
    ensures Accepted(Swapped(ds, i))
       <==> ds[i] == ds[i + 1] || (ds[i] == 0 && ds[i + 1] == 9) || (ds[i] == 9 && ds[i + 1] == 0)
  {
    SumOfSwap(ds, i);
    DoublingGain(ds[i], ds[i + 1]);
    DoublingGain(ds[i + 1], ds[i]);
    SmallChange(LuhnSum(ds, false), LuhnSum(Swapped(ds, i), false));
  }

  /** Two sums less than ten apart leave the same remainder only when they are equal. */
  lemma SmallChange(a: nat, b: nat)
    requires -10 < a - b < 10 && a % 10 == 0
    ensures b % 10 == 0 <==> a == b
  {
  }
}

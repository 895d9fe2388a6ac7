/** How the shop compares price texts: by length and then by character, never as numbers. */
module Prices {
  import opened Wrappers
  import opened Money

  /** A money text, possibly with a plus sign in front and further decimals behind. */
  predicate PriceText(s: string) {
    DecimalText(Unsigned(s)) && |Whole(Unsigned(s))| > 0
  }

  function Unsigned(s: string): string {
    if |s| > 0 && s[0] == '+' then s[1..] else s
  }

  /** Zeros in front go while a digit follows. */
  function StripZeros(s: string): string {
    if |s| >= 2 && s[0] == '0' && Digit(s[1]) then StripZeros(s[1..]) else s
  }

  function Normalize(s: string): string {
    StripZeros(Whole(Unsigned(s))) + TwoDecimals(Fraction(Unsigned(s)))
  }

  /** How two digit strings of one length sort. */
  function Collate(a: string, b: string): int
    requires |a| == |b|
  {
    if a == "" then 0
    else if a[0] == b[0] then Collate(a[1..], b[1..])
    else if a[0] < b[0] then -1 else 1
  }

  function Compare(left: string, right: string): int {
    var l, r := Normalize(left), Normalize(right);
    if |l| != |r| then |l| - |r| else Collate(l, r)
  }

  function Sign(n: int): int {
    if n < 0 then -1 else if n > 0 then 1 else 0
  }

  /** The price in cents, further decimals cut. */
  function PriceCents(s: string): nat
    requires PriceText(s)
  {
    Cents(Unsigned(s))
  }

  lemma Split(s: string)
    requires Digits(s) && s != ""
    ensures Value(s) == DigitValue(s[0]) * Pow10(|s| - 1) + Value(s[1..])
  {
    hide Value; hide Pow10;
    ValueOne(s[0]);
    ValueConcat([s[0]], s[1..]);
    assert s == [s[0]] + s[1..];
  }

  lemma {:induction false} StripZerosKeepsValue(s: string)
    requires Digits(s) && |s| > 0
    ensures Plain(StripZeros(s)) && Value(StripZeros(s)) == Value(s)
  {
    if |s| >= 2 && s[0] == '0' {
      StripZerosKeepsValue(s[1..]);
      Split(s);
    }
  }

  lemma Leads(x: nat, y: nat, p: nat, rest: nat)
    requires x < y && rest < p
    ensures x * p + rest < y * p
  {
    Times(x + 1, y, p);
    assert (x + 1) * p == x * p + p;
  }

  lemma HeadDecides(a: string, b: string)
    requires |a| == |b| > 0 && Digits(a) && Digits(b) && a[0] < b[0]
    ensures Value(a) < Value(b)
  {
    hide Value; hide Pow10;
    Split(a);
    Split(b);
    ValueBelow(a[1..]);
    Leads(DigitValue(a[0]), DigitValue(b[0]), Pow10(|a| - 1), Value(a[1..]));
  }

  /** Strings of one length sort as the numbers they write. */
  lemma {:induction false} CollateIsNumeric(a: string, b: string)
    requires |a| == |b| && Digits(a) && Digits(b)
    ensures Collate(a, b) == Sign(Value(a) - Value(b))
  {
    hide Value; hide Pow10;
    if a == "" {
      assert a == b;
    } else {
      CollateIsNumeric(a[1..], b[1..]);
      Split(a);
      Split(b);
      if a[0] < b[0] {
        HeadDecides(a, b);
      } else if b[0] < a[0] {
        HeadDecides(b, a);
      }
    }
  }

  /** A normalized price is its cents, written with no zero in front of three digits or more. */
  lemma NormalizedIsCents(s: string)
    requires PriceText(s)
    ensures var n := Normalize(s);
            && Digits(n) && |n| >= 3 && Value(n) == PriceCents(s)
            && (|n| > 3 ==> n[0] != '0')
  {
    var w, d := Whole(Unsigned(s)), TwoDecimals(Fraction(Unsigned(s)));
    StripZerosKeepsValue(w);
    ValueConcat(StripZeros(w), d);
    assert Pow10(2) == 100;
  }

  lemma LongerIsLarger(a: string, b: string)
    requires Digits(a) && Digits(b) && 0 < |a| < |b| && b[0] != '0'
    ensures Value(a) < Value(b)
  {
    ValueBelow(a);
    PlainIsLarge(b);
    PowGrows(|a|, |b| - 1);
  }

  /** Comparing the texts has the sign of the difference in cents, whatever zeros, signs or decimals they carry. */
  lemma CompareIsNumeric(left: string, right: string)
    requires PriceText(left) && PriceText(right)
    ensures Sign(Compare(left, right)) == Sign(PriceCents(left) - PriceCents(right))
  {
    hide Normalize; hide Value; hide PriceText; hide PriceCents;
    var l, r := Normalize(left), Normalize(right);
    NormalizedIsCents(left);
    NormalizedIsCents(right);
    if |l| < |r| {
      LongerIsLarger(l, r);
    } else if |r| < |l| {
      LongerIsLarger(r, l);
    } else {
      CollateIsNumeric(l, r);
    }
  }

  /** With at most two decimals that is the sign of the numeric difference itself. */
  lemma MoneyComparesExactly(left: string, right: string)
    requires MoneyText(left) && MoneyText(right)
    ensures Sign(Compare(left, right)) ==
            Sign(Numerator(left) * Pow10(|Fraction(right)|) - Numerator(right) * Pow10(|Fraction(left)|))
  {
    MoneyHasNoSign(left);
    MoneyHasNoSign(right);
    CompareIsNumeric(left, right);
    CentsAreExact(left);
    CentsAreExact(right);
    hide Compare; hide Cents; hide Numerator; hide Fraction;
    CrossMultiply(Cents(left), Cents(right), Numerator(left), Numerator(right),
                  Pow10(|Fraction(left)|), Pow10(|Fraction(right)|));
  }

  lemma MoneyHasNoSign(s: string)
    requires MoneyText(s)
    ensures Unsigned(s) == s
  {
    assert Digit(Whole(s)[0]);
  }

  lemma CrossMultiply(a: nat, b: nat, m: nat, n: nat, p: nat, q: nat)
    requires p > 0 && q > 0 && a * p == 100 * m && b * q == 100 * n
    ensures Sign(a - b) == Sign(m * q - n * p)
  {
    assert 100 * (m * q) == a * (p * q) by {
      assert (100 * m) * q == (a * p) * q;
    }
    assert 100 * (n * p) == b * (p * q) by {
      assert (100 * n) * p == (b * q) * p;
    }
    if a < b {
      Times(a + 1, b, p * q);
    } else if a > b {
      Times(b + 1, a, p * q);
    }
  }

  // ---------------------------------------------------------------- lowest price

  function LowestPrice(prices: seq<string>): Option<string> {
    if |prices| == 0 then None
    else
      var price := prices[|prices| - 1];
      match LowestPrice(prices[..|prices| - 1])
      case None => Some(price)
      case Some(lowest) => Some(if Compare(price, lowest) < 0 then price else lowest)
  }

  /** The lowest price is one of the prices, none is lower, and it is the first that low. */
  lemma {:induction false} LowestPriceIsMinimum(prices: seq<string>) returns (first: nat)
    requires |prices| > 0 && forall i :: 0 <= i < |prices| ==> PriceText(prices[i])
    ensures first < |prices| && LowestPrice(prices) == Some(prices[first])
    ensures forall i :: 0 <= i < |prices| ==> PriceCents(prices[first]) <= PriceCents(prices[i])
    ensures forall i :: 0 <= i < first ==> PriceCents(prices[first]) < PriceCents(prices[i])
  {
    hide PriceText; hide Compare; hide PriceCents;
    var n := |prices| - 1;
    if n == 0 {
      first := 0;
    } else {
      first := LowestPriceIsMinimum(prices[..n]);
      CompareIsNumeric(prices[n], prices[first]);
      if Compare(prices[n], prices[first]) < 0 {
        first := n;
      }
    }
  }
}

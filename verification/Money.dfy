/**
 Money as decimal text, turned into cents, back into text and compared without floating point.
 A decimal text is digits, at most one point, and digits.
 */
module Money {
  import opened Wrappers
  import opened Inventory

  // -------------------------------------------------------------- digits and values

  predicate Digit(c: char) {
    '0' <= c <= '9'
  }

  predicate Digits(s: string) {
    forall i :: 0 <= i < |s| ==> Digit(s[i])
  }

  function DigitValue(c: char): (d: nat)
    requires Digit(c)
    ensures d < 10
  {
    (c as int) - ('0' as int)
  }

  function DigitOf(d: nat): (c: char)
    requires d < 10
    ensures Digit(c) && DigitValue(c) == d
  {
    (('0' as int) + d) as char
  }

  function Value(s: string): nat
    requires Digits(s)
  {
    if s == "" then 0 else Value(s[..|s| - 1]) * 10 + DigitValue(s[|s| - 1])
  }

  function Pow10(n: nat): (p: nat)
    ensures p > 0
  {
    if n == 0 then 1 else 10 * Pow10(n - 1)
  }

  /** How a number is written: no leading zero, and "0" for zero. */
  function Written(n: nat): string {
    if n < 10 then [DigitOf(n)] else Written(n / 10) + [DigitOf(n % 10)]
  }

  predicate Plain(s: string) {
    Digits(s) && |s| > 0 && (|s| > 1 ==> s[0] != '0')
  }

  lemma {:induction false} ValueConcat(a: string, b: string)
    requires Digits(a) && Digits(b)
    ensures Digits(a + b) && Value(a + b) == Value(a) * Pow10(|b|) + Value(b)
  {
    if b == "" {
      assert a + b == a;
    } else {
      var n := |b| - 1;
      ValueConcat(a, b[..n]);
      assert (a + b)[..|a + b| - 1] == a + b[..n] && (a + b)[|a + b| - 1] == b[n];
      assert Value(a + b) == Value(a + b[..n]) * 10 + DigitValue(b[n]);
      Scale(Value(a), Pow10(n));
    }
  }

  lemma Scale(x: nat, p: nat)
    ensures (x * p) * 10 == x * (10 * p)
  {
  }

  lemma ValueOne(c: char)
    requires Digit(c)
    ensures Value([c]) == DigitValue(c)
  {
    assert [c][..0] == "";
  }

  lemma {:induction false} ValueBelow(s: string)
    requires Digits(s)
    ensures Value(s) < Pow10(|s|)
  {
    if s != "" {
      ValueBelow(s[..|s| - 1]);
    }
  }

  lemma {:induction false} WrittenIsPlain(n: nat)
    ensures Plain(Written(n)) && Value(Written(n)) == n
    ensures n > 0 ==> Written(n)[0] != '0'
  {
    if n >= 10 {
      WrittenIsPlain(n / 10);
      assert Written(n)[..|Written(n)| - 1] == Written(n / 10);
    }
  }

  lemma {:induction false} PlainIsWritten(s: string)
    requires Plain(s)
    ensures Written(Value(s)) == s
  {
    var n := |s| - 1;
    if n > 0 {
      PlainIsWritten(s[..n]);
      PlainIsLarge(s[..n]);
      assert Value(s) / 10 == Value(s[..n]) && Value(s) % 10 == DigitValue(s[n]);
      assert s == s[..n] + [s[n]];
    } else {
      assert s == [s[0]] && s[..0] == "";
    }
  }

  /** Without a leading zero the length bounds the value from below. */
  lemma {:induction false} PlainIsLarge(s: string)
    requires Digits(s) && |s| > 0 && s[0] != '0'
    ensures Value(s) >= Pow10(|s| - 1)
  {
    if |s| > 1 {
      PlainIsLarge(s[..|s| - 1]);
    } else {
      assert s[..0] == "";
    }
  }

  // ------------------------------------------------------------------ decimal texts

  /** Where the first point is, or the end. */
  function PointAt(s: string): (k: nat)
    ensures k <= |s| && '.' !in s[..k] && (k < |s| ==> s[k] == '.')
  {
    if s == "" || s[0] == '.' then 0
    else
      var k := 1 + PointAt(s[1..]);
      assert s[..k] == [s[0]] + s[1..][..k - 1];
      k
  }

  function Whole(s: string): string {
    s[..PointAt(s)]
  }

  function Fraction(s: string): string {
    if PointAt(s) == |s| then "" else s[PointAt(s) + 1..]
  }

  predicate DecimalText(s: string) {
    Digits(Whole(s)) && Digits(Fraction(s))
  }

  /** What a price column accepts. */
  predicate MoneyText(s: string) {
    && DecimalText(s) && 1 <= |Whole(s)| <= 10
    && (PointAt(s) == |s| || 1 <= |Fraction(s)| <= 2)
  }

  /** The number a text denotes is Numerator over ten to the number of decimals. */
  function Numerator(s: string): nat
    requires DecimalText(s)
  {
    assert Digits(Whole(s) + Fraction(s));
    Value(Whole(s) + Fraction(s))
  }

  /** Two decimals: filled up with zeros, or cut. */
  function TwoDecimals(fraction: string): (d: string)
    ensures |d| == 2 && (Digits(fraction) ==> Digits(d))
  {
    if |fraction| >= 2 then fraction[..2] else if |fraction| == 1 then fraction + "0" else "00"
  }

  function Cents(s: string): nat
    requires DecimalText(s)
  {
    Value(Whole(s)) * 100 + Value(TwoDecimals(Fraction(s)))
  }

  lemma {:induction false} Parts(whole: string, fraction: string)
    requires '.' !in whole
    ensures PointAt(whole + ['.'] + fraction) == |whole|
    ensures Whole(whole + ['.'] + fraction) == whole && Fraction(whole + ['.'] + fraction) == fraction
  {
    var s := whole + ['.'] + fraction;
    if whole != "" {
      Parts(whole[1..], fraction);
      assert s[1..] == whole[1..] + ['.'] + fraction;
    }
  }

  lemma Times(a: nat, b: nat, p: nat)
    requires a <= b
    ensures a * p <= b * p
  {
  }

  lemma Quotient(q: nat, p: nat, r: nat)
    requires r < p
    ensures (q * p + r) / p == q
  {
    var x := q * p + r;
    var d, m := x / p, x % p;
    assert x == d * p + m;
    if d < q {
      Times(d + 1, q, p);
    } else if d > q {
      Times(q + 1, d, p);
    }
  }

  lemma DropHundred(x: nat, p: nat)
    requires p > 0
    ensures (100 * x) / (100 * p) == x / p
  {
    var q, r := x / p, x % p;
    assert x == q * p + r;
    assert 100 * x == q * (100 * p) + 100 * r;
    Quotient(q, 100 * p, 100 * r);
  }

  lemma NumeratorIs(s: string)
    requires DecimalText(s)
    ensures Numerator(s) == Value(Whole(s)) * Pow10(|Fraction(s)|) + Value(Fraction(s))
  {
    ValueConcat(Whole(s), Fraction(s));
  }

  /** More than two decimals: the rest `g` is cut. */
  lemma CentsCut(s: string)
    requires DecimalText(s) && |Fraction(s)| >= 2
    ensures var p, g := Pow10(|Fraction(s)| - 2), Fraction(s)[2..];
            Pow10(|Fraction(s)|) == 100 * p && Value(g) < p && Numerator(s) == Cents(s) * p + Value(g)
  {
    var f := Fraction(s);
    var d, g, p := f[..2], f[2..], Pow10(|f| - 2);
    NumeratorIs(s);
    assert f == d + g;
    ValueConcat(d, g);
    ValueBelow(g);
    assert Pow10(|f|) == 10 * Pow10(|f| - 1);
    hide Value; hide Pow10; hide Whole;
    Regroup(Value(Whole(s)), Value(d), p);
  }

  lemma Regroup(w: nat, d: nat, p: nat)
    ensures w * (100 * p) + d * p == (w * 100 + d) * p
  {
  }

  lemma CentsFilled(s: string)
    requires DecimalText(s) && |Fraction(s)| < 2
    ensures Cents(s) * Pow10(|Fraction(s)|) == 100 * Numerator(s)
  {
    var f := Fraction(s);
    NumeratorIs(s);
    assert Pow10(0) == 1 && Pow10(1) == 10;
    if |f| == 1 {
      ValueConcat(f, "0");
      assert "0"[..0] == "" && Value("0") == 0;
    } else {
      assert "00"[..1] == "0" && "0"[..0] == "" && Value("00") == 0;
    }
  }

  /** The cents are a hundred times the number, further decimals cut; with at most two decimals they are exact. */
  lemma CentsAreExact(s: string)
    requires DecimalText(s)
    ensures Cents(s) == 100 * Numerator(s) / Pow10(|Fraction(s)|)
    ensures |Fraction(s)| <= 2 ==> Cents(s) * Pow10(|Fraction(s)|) == 100 * Numerator(s)
  {
    hide Cents; hide Numerator; hide Value; hide Whole; hide Fraction;
    var f := Fraction(s);
    if |f| >= 2 {
      CentsCut(s);
      Quotient(Cents(s), Pow10(|f| - 2), Value(f[2..]));
      DropHundred(Numerator(s), Pow10(|f| - 2));
    } else {
      CentsFilled(s);
      Quotient(Cents(s), Pow10(|f|), 0);
    }
  }

  // --------------------------------------------------------------- cents and back

  function ToCents(amount: string): Result<nat>
    requires DecimalText(amount)
  {
    if 0 < Cents(amount) <= MAX_SAFE_INTEGER then Ok(Cents(amount)) else Err(Conflict)
  }

  function CentsToAmount(cents: nat): string {
    var decimals := Written(cents % 100);
    Written(cents / 100) + ['.'] + if |decimals| < 2 then "0" + decimals else decimals
  }

  lemma TwoDigits(n: nat)
    requires n < 100
    ensures var t := if |Written(n)| < 2 then "0" + Written(n) else Written(n);
            |t| == 2 && Digits(t) && Value(t) == n
  {
    WrittenIsPlain(n);
    if n < 10 {
      ValueConcat("0", Written(n));
      assert "0"[..0] == "" && Value("0") == 0;
    }
  }

  lemma {:induction false} WrittenLength(n: nat, k: nat)
    requires k > 0
    ensures |Written(n)| <= k <==> n < Pow10(k)
  {
    assert Pow10(1) == 10;
    if n >= 10 && k > 1 {
      WrittenLength(n / 10, k - 1);
    } else if n < 10 {
      PowGrows(1, k);
    }
  }

  lemma {:induction false} PowGrows(m: nat, n: nat)
    requires m <= n
    ensures Pow10(m) <= Pow10(n)
  {
    if m < n {
      PowGrows(m, n - 1);
    }
  }

  lemma AmountParts(cents: nat)
    ensures var s := CentsToAmount(cents);
            && DecimalText(s) && Cents(s) == cents
            && Whole(s) == Written(cents / 100) && |Fraction(s)| == 2
  {
    var t := if |Written(cents % 100)| < 2 then "0" + Written(cents % 100) else Written(cents % 100);
    TwoDigits(cents % 100);
    WrittenIsPlain(cents / 100);
    Parts(Written(cents / 100), t);
    assert TwoDecimals(t) == t;
  }

  /** Cents become text and come back unchanged; the text fits a price column below ten digits of whole units. */
  lemma CentsRoundTrip(cents: nat)
    requires 1 <= cents <= MAX_SAFE_INTEGER
    ensures DecimalText(CentsToAmount(cents)) && ToCents(CentsToAmount(cents)) == Ok(cents)
    ensures MoneyText(CentsToAmount(cents)) <==> cents < 1_000_000_000_000
  {
    AmountParts(cents);
    WrittenIsPlain(cents / 100);
    WrittenLength(cents / 100, 10);
    assert Pow10(10) == 10_000_000_000 by {
      assert Pow10(2) == 100;
      assert Pow10(4) == 100 * Pow10(2);
      assert Pow10(6) == 100 * Pow10(4);
      assert Pow10(8) == 100 * Pow10(6);
      assert Pow10(10) == 100 * Pow10(8);
    }
  }

  /** A text with two decimals and no superfluous zero in front. */
  predicate Standard(s: string) {
    Plain(Whole(s)) && |Fraction(s)| == 2
  }

  /** An accepted text comes back as it was exactly when it is in standard form. */
  lemma AmountRoundTrip(s: string)
    requires DecimalText(s) && ToCents(s).Ok?
    ensures CentsToAmount(ToCents(s).value) == s <==> Standard(s)
  {
    var cents := Cents(s);
    AmountParts(cents);
    WrittenIsPlain(cents / 100);
    if Standard(s) {
      var t := Fraction(s);
      ValueBelow(t);
      assert Pow10(2) == 100;
      assert TwoDecimals(t) == t;
      assert cents / 100 == Value(Whole(s)) && cents % 100 == Value(t);
      PlainIsWritten(Whole(s));
      SameTwoDigits(t, cents % 100);
      assert s == Whole(s) + ['.'] + t;
    }
  }

  lemma SameTwoDigits(t: string, n: nat)
    requires |t| == 2 && Digits(t) && Value(t) == n < 100
    ensures t == if |Written(n)| < 2 then "0" + Written(n) else Written(n)
  {
    assert t[..1] == [t[0]] && t[..1][..0] == "";
    assert n == DigitValue(t[0]) * 10 + DigitValue(t[1]);
    if t[0] == '0' {
      assert Written(n) == [t[1]];
    } else {
      PlainIsWritten(t);
    }
  }

  /** Every money text is converted exactly, except zero, which is refused; the safe-integer bound never applies. */
  lemma MoneyTextConverts(s: string)
    requires MoneyText(s)
    ensures ToCents(s) == if Numerator(s) > 0 then Ok(Cents(s)) else Err(Conflict)
    ensures Cents(s) * Pow10(|Fraction(s)|) == 100 * Numerator(s)
    ensures Cents(s) < 1_000_000_000_000
  {
    CentsAreExact(s);
    ValueBelow(Whole(s));
    ValueBelow(TwoDecimals(Fraction(s)));
    PowGrows(|Whole(s)|, 10);
    assert Pow10(2) == 100;
    assert Pow10(10) == 10_000_000_000 by {
      assert Pow10(4) == 100 * Pow10(2);
      assert Pow10(6) == 100 * Pow10(4);
      assert Pow10(8) == 100 * Pow10(6);
      assert Pow10(10) == 100 * Pow10(8);
    }
    if Cents(s) > 0 {
      Times(1, Cents(s), Pow10(|Fraction(s)|));
    }
  }
}

/** Money as integer cents, and the decimal strings the application stores amounts as:
  * the amount pattern of the validation schema, `toFixed(2)` on non-negative values and
  * `parseFloat` on strings that match the pattern. */
module Money {

  type Cents = int

  predicate IsDigit(c: char)
  {
    '0' <= c <= '9'
  }

  predicate AllDigits(s: string)
  {
    forall i :: 0 <= i < |s| ==> IsDigit(s[i])
  }

  function DigitValue(c: char): nat
    requires IsDigit(c)
  {
    (c as int - '0' as int) as nat
  }

  function DigitChar(d: nat): (c: char)
    requires d < 10
    ensures IsDigit(c) && DigitValue(c) == d
  {
    ('0' as int + d) as char
  }

  /** Length of the run of decimal digits that starts `s`. */
  function DigitPrefix(s: string): (k: nat)
    ensures k <= |s| && AllDigits(s[..k])
    ensures k < |s| ==> !IsDigit(s[k])
  {
    if s == [] || !IsDigit(s[0]) then 0
    else
      var k := 1 + DigitPrefix(s[1..]);
      assert s[..k] == [s[0]] + s[1..][..k - 1];
      k
  }

  lemma {:induction false} DigitPrefixIs(s: string, k: nat)
    requires k <= |s| && AllDigits(s[..k]) && (k < |s| ==> !IsDigit(s[k]))
    ensures DigitPrefix(s) == k
  {
    if k > 0 {
      assert IsDigit(s[..k][0]);
      assert s[1..][..k - 1] == s[..k][1..];
      DigitPrefixIs(s[1..], k - 1);
    }
  }

  /** The amount pattern `^\d+(\.\d{1,2})?$` of the purchase and payment schemas. */
  predicate IsAmount(s: string)
    ensures IsAmount(s) ==> 1 <= |s| && IsDigit(s[0]) && IsDigit(s[|s| - 1])
  {
    var k := DigitPrefix(s);
    1 <= k && (k == |s| || (s[k] == '.' && 2 <= |s| - k <= 3 && AllDigits(s[k + 1..])))
  }

  /** The pattern read as a description of strings: one or more digits, optionally
    * followed by a point and one or two digits. */
  lemma AmountShape(s: string)
    ensures IsAmount(s) <==>
      (|s| >= 1 && AllDigits(s)) ||
      (exists k :: 1 <= k && k + 2 <= |s| <= k + 3 && AllDigits(s[..k]) && s[k] == '.' && AllDigits(s[k + 1..]))
  {
    if |s| >= 1 && AllDigits(s) {
      assert s[..|s|] == s;
      DigitPrefixIs(s, |s|);
    }
    if k :| 1 <= k && k + 2 <= |s| <= k + 3 && AllDigits(s[..k]) && s[k] == '.' && AllDigits(s[k + 1..]) {
      DigitPrefixIs(s, k);
    }
    if IsAmount(s) && DigitPrefix(s) < |s| {
      var k := DigitPrefix(s);
      assert 1 <= k && k + 2 <= |s| <= k + 3 && AllDigits(s[..k]) && s[k] == '.' && AllDigits(s[k + 1..]);
    }
  }

  /** Strings the pattern refuses: the empty string, a sign, a leading or a trailing point,
    * and three or more digits after the point. */
  lemma AmountRejects(s: string, whole: string, frac: string)
    ensures !IsAmount("")
    ensures |s| > 0 && (s[0] == '-' || s[0] == '+' || s[0] == '.') ==> !IsAmount(s)
    ensures |s| > 0 && s[|s| - 1] == '.' ==> !IsAmount(s)
    ensures AllDigits(whole) && |frac| >= 3 ==> !IsAmount(whole + "." + frac)
  {
    var t := whole + "." + frac;
    if AllDigits(whole) && |frac| >= 3 {
      assert t[..|whole|] == whole && t[|whole|] == '.';
      DigitPrefixIs(t, |whole|);
    }
  }

  /** Decimal digits of `n` without leading zeros, as `Number.prototype.toString` writes them. */
  function NatToDigits(n: nat): (s: string)
    ensures |s| >= 1 && AllDigits(s)
  {
    if n < 10 then [DigitChar(n)] else NatToDigits(n / 10) + [DigitChar(n % 10)]
  }

  /** The number a string of decimal digits denotes. */
  function DigitsValue(s: string): nat
    requires AllDigits(s)
  {
    if s == [] then 0 else DigitsValue(s[..|s| - 1]) * 10 + DigitValue(s[|s| - 1])
  }

  lemma {:induction false} DigitsRoundTrip(n: nat)
    ensures DigitsValue(NatToDigits(n)) == n
  {
    if n >= 10 {
      var s := NatToDigits(n);
      assert s[..|s| - 1] == NatToDigits(n / 10);
      DigitsRoundTrip(n / 10);
    }
  }

  /** `toFixed(2)` on a non-negative amount of cents. */
  function FormatCents(c: nat): (s: string)
    ensures |s| >= 4 && s[|s| - 3] == '.' && IsDigit(s[|s| - 2]) && IsDigit(s[|s| - 1])
    ensures AllDigits(s[..|s| - 3])
  {
    NatToDigits(c / 100) + "." + [DigitChar(c % 100 / 10), DigitChar(c % 10)]
  }

  /** `parseFloat` on a string that matches the amount pattern, in cents. */
  function ParseAmount(s: string): (c: nat)
    requires IsAmount(s)
    ensures c / 100 == DigitsValue(s[..DigitPrefix(s)])
    ensures DigitPrefix(s) == |s| ==> c % 100 == 0
    ensures DigitPrefix(s) < |s| ==>
      AllDigits(s[..DigitPrefix(s)] + s[DigitPrefix(s) + 1..]) &&
      c == DigitsValue(s[..DigitPrefix(s)] + s[DigitPrefix(s) + 1..]) * (if |s| - DigitPrefix(s) == 2 then 10 else 1)
  {
    var k := DigitPrefix(s);
    var whole := DigitsValue(s[..k]) * 100;
    if k == |s| then whole
    else
      DropPoint(s[..k], s[k + 1..]);
      if |s| - k == 2 then whole + DigitValue(s[k + 1]) * 10
      else whole + DigitValue(s[k + 1]) * 10 + DigitValue(s[k + 2])
  }

  /** Reading the digits before and after the point as one number: the whole part
    * shifted by the number of decimals, plus the decimals. */
  lemma DropPoint(a: string, f: string)
    requires AllDigits(a) && AllDigits(f) && 1 <= |f| <= 2
    ensures AllDigits(a + f)
    ensures |f| == 1 ==> DigitsValue(a + f) == DigitsValue(a) * 10 + DigitValue(f[0])
    ensures |f| == 2 ==> DigitsValue(a + f) == DigitsValue(a) * 100 + DigitValue(f[0]) * 10 + DigitValue(f[1])
  {
    assert AllDigits(a + f) by {
      forall i | 0 <= i < |a + f| ensures IsDigit((a + f)[i]) {
        if i >= |a| { assert (a + f)[i] == f[i - |a|]; }
      }
    }
    if |f| == 1 {
      assert (a + f)[..|a|] == a;
    } else {
      assert (a + f)[..|a| + 1] == a + [f[0]] && (a + [f[0]])[..|a|] == a;
    }
  }

  /** `parseFloat` on amounts with one and two decimals and a leading zero. */
  lemma ParseAmountExamples()
    ensures IsAmount("1.5") && ParseAmount("1.5") == 150
    ensures IsAmount("0.05") && ParseAmount("0.05") == 5
  {
    DigitPrefixIs("1.5", 1);
    DigitPrefixIs("0.05", 1);
    assert "1.5"[..1] == "1" && "1"[..0] == "";
    assert "0.05"[..1] == "0" && "0"[..0] == "";
  }

  /** Every amount written by `toFixed(2)` matches the amount pattern, and reads back as
    * the same number of cents. */
  lemma FormatCentsRoundTrip(c: nat)
    ensures IsAmount(FormatCents(c))
    ensures ParseAmount(FormatCents(c)) == c
  {
    var w := NatToDigits(c / 100);
    var s := FormatCents(c);
    assert s[..|w|] == w && s[|w|] == '.';
    DigitPrefixIs(s, |w|);
    assert s[|w| + 1..] == [DigitChar(c % 100 / 10), DigitChar(c % 10)];
    DigitsRoundTrip(c / 100);
  }

  /** `(remaining / n).toFixed(2)` in cents: the nearest cent, halves rounded up. */
  function InstallmentCents(remaining: Cents, n: nat): (q: Cents)
    requires n > 0
    ensures -(n as int) <= 2 * (remaining - q * n) < n
  {
    (2 * remaining + n) / (2 * n)
  }
}

/**
 * The human-readable order number assigned by the order schema's pre-save hook:
 * "RFL" followed by the decimal sequence number, left-padded with '0' to six digits.
 * The formatter is paired with a parser, and the round trip is proved.
 */
module OrderNumber {
  import opened Common

  const Prefix: string := "RFL"
  const Width: nat := 6

  predicate IsDigit(c: char) { '0' <= c <= '9' }

  predicate AllDigits(s: string) { forall i | 0 <= i < |s| :: IsDigit(s[i]) }

  function DigitChar(d: nat): (c: char)
    requires d < 10
    ensures IsDigit(c)
  {
    ('0' as int + d) as char
  }

  function DigitValue(c: char): (d: nat)
    requires IsDigit(c)
    ensures d < 10
  {
    c as int - '0' as int
  }

  function Pow10(k: nat): (p: nat)
    ensures p >= 1
  {
    if k == 0 then 1 else 10 * Pow10(k - 1)
  }

  /** Decimal rendering of n without leading zeros, like JavaScript's `String(n)`. */
  function Digits(n: nat): (s: string)
    ensures |s| >= 1 && AllDigits(s)
    decreases n
  {
    if n < 10 then [DigitChar(n)] else Digits(n / 10) + [DigitChar(n % 10)]
  }

  /** `s.padStart(width, fill)`: pads on the left up to `width`, never truncates. */
  function PadStart(s: string, width: nat, fill: char): (r: string)
    ensures |r| == if |s| >= width then |s| else width
    ensures r[|r| - |s|..] == s
    ensures forall i | 0 <= i < |r| - |s| :: r[i] == fill
  {
    if |s| >= width then s else seq(width - |s|, _ => fill) + s
  }

  /** The number generated for sequence value n: the prefix, then at least six decimal digits. */
  function Format(n: nat): (r: string)
    ensures |r| >= |Prefix| + Width
    ensures r[..|Prefix|] == Prefix && AllDigits(r[|Prefix|..])
  {
    var padded := PadStart(Digits(n), Width, '0');
    assert forall i | 0 <= i < |padded| :: IsDigit(padded[i]) by {
      forall i | 0 <= i < |padded|
        ensures IsDigit(padded[i])
      {
        var d := Digits(n);
        if i >= |padded| - |d| {
          assert padded[i] == padded[|padded| - |d|..][i - (|padded| - |d|)];
        }
      }
    }
    assert (Prefix + padded)[|Prefix|..] == padded;
    Prefix + padded
  }

  /** The value of a string of decimal digits (leading zeros allowed). */
  function ParseDigits(s: string): nat
    requires AllDigits(s)
  {
    if s == [] then 0 else ParseDigits(s[..|s| - 1]) * 10 + DigitValue(s[|s| - 1])
  }

  /** Reads an order number back: the prefix, then one or more decimal digits. */
  function Parse(s: string): (r: Option<nat>)
    ensures r.Some? <==> |s| > |Prefix| && s[..|Prefix|] == Prefix && AllDigits(s[|Prefix|..])
  {
    if |s| > |Prefix| && s[..|Prefix|] == Prefix && AllDigits(s[|Prefix|..])
    then Some(ParseDigits(s[|Prefix|..]))
    else None
  }

  lemma {:induction false} ParseDigitsOfDigits(n: nat)
    ensures ParseDigits(Digits(n)) == n
    decreases n
  {
    if n >= 10 {
      var s := Digits(n);
      assert s[..|s| - 1] == Digits(n / 10);
      ParseDigitsOfDigits(n / 10);
    }
  }

  /** Leading '0' characters do not change the parsed value. */
  lemma {:induction false} LeadingZeros(k: nat, s: string)
    requires AllDigits(s)
    ensures AllDigits(seq(k, _ => '0') + s)
    ensures ParseDigits(seq(k, _ => '0') + s) == ParseDigits(s)
    decreases |s|, k
  {
    var z := seq(k, _ => '0');
    assert AllDigits(z + s);
    if s == [] {
      assert z + s == z;
      if k > 0 {
        assert z[..k - 1] == seq(k - 1, _ => '0');
        LeadingZeros(k - 1, []);
        assert seq(k - 1, _ => '0') + [] == seq(k - 1, _ => '0');
      }
    } else {
      var init := s[..|s| - 1];
      assert (z + s)[..|z + s| - 1] == z + init;
      LeadingZeros(k, init);
    }
  }

  /** Round trip: parsing a generated number gives back its sequence value. */
  lemma RoundTrip(n: nat)
    ensures Parse(Format(n)) == Some(n)
  {
    var d := Digits(n);
    var padded := PadStart(d, Width, '0');
    assert padded == seq(|padded| - |d|, _ => '0') + d;
    LeadingZeros(|padded| - |d|, d);
    ParseDigitsOfDigits(n);
    assert Format(n)[..|Prefix|] == Prefix;
    assert Format(n)[|Prefix|..] == padded;
  }

  /** Distinct sequence values give distinct order numbers. */
  lemma FormatInjective(a: nat, b: nat)
    requires Format(a) == Format(b)
    ensures a == b
  {
    RoundTrip(a);
    RoundTrip(b);
  }

  lemma {:induction false} DigitsLength(n: nat, k: nat)
    requires k >= 1
    ensures |Digits(n)| <= k <==> n < Pow10(k)
    decreases n
  {
    if n >= 10 {
      if k == 1 {
        assert Pow10(1) == 10;
        DigitsLength(n / 10, 1);
      } else {
        DigitsLength(n / 10, k - 1);
      }
    } else if k > 1 {
      assert Pow10(k) == 10 * Pow10(k - 1);
    }
  }

  /** Numbers stay nine characters long up to sequence value 999999. */
  lemma FormatLength(n: nat)
    requires 1 <= n <= 999999
    ensures |Format(n)| == 9
  {
    assert Pow10(6) == 1000000;
    DigitsLength(n, Width);
  }

  /**
   * Padding never truncates: the number is at least nine characters, starts with
   * the prefix and ends with every digit of n; past 999999 it simply grows.
   */
  lemma FormatNeverTruncates(n: nat)
    ensures |Format(n)| >= 9
    ensures Format(n)[..3] == Prefix
    ensures Format(n)[|Format(n)| - |Digits(n)|..] == Digits(n)
    ensures n > 999999 ==> |Format(n)| == 3 + |Digits(n)| > 9
  {
    var d := Digits(n);
    var padded := PadStart(d, Width, '0');
    var f := Prefix + padded;
    assert f == Format(n);
    assert f[..3] == Prefix;
    assert f[|f| - |d|..] == padded[|padded| - |d|..];
    if n > 999999 {
      assert Pow10(6) == 1000000;
      DigitsLength(n, Width);
    }
  }
}

/** Decimal text: `String(n)`, `padStart` and the part of `parseInt` the
    storefront relies on (an optional sign followed by decimal digits). */
module Format {
  import opened Tickets

  predicate IsDigit(c: char) {
    '0' <= c <= '9'
  }

  predicate AllDigits(s: string) {
    forall i :: 0 <= i < |s| ==> IsDigit(s[i])
  }

  function DigitChar(d: nat): (c: char)
    requires d < 10
    ensures IsDigit(c) && c as int - '0' as int == d
  {
    ('0' as int + d) as char
  }

  function DigitValue(c: char): nat
    requires IsDigit(c)
  {
    c as int - '0' as int
  }

  /** `String(n)` for a non-negative integer: its decimal digits, no leading zeros. */
  function DecimalString(n: nat): (s: string)
    ensures 1 <= |s| && AllDigits(s)
    ensures |s| > 1 ==> s[0] != '0'
  {
    if n < 10 then [DigitChar(n)] else DecimalString(n / 10) + [DigitChar(n % 10)]
  }

  /** The value of a string of decimal digits, leading zeros allowed. */
  function DigitsValue(s: string): nat
    requires AllDigits(s)
  {
    if s == [] then 0 else 10 * DigitsValue(s[..|s| - 1]) + DigitValue(s[|s| - 1])
  }

  /** Reading back the digits of `String(n)` gives `n`. */
  lemma {:induction false} DecimalStringValue(n: nat)
    ensures DigitsValue(DecimalString(n)) == n
  {
    if n >= 10 {
      DecimalStringValue(n / 10);
      var s := DecimalString(n);
      assert s[..|s| - 1] == DecimalString(n / 10);
    }
  }

  /** `String(n)` has at most three characters exactly when `n < 1000`, and
      exactly three when `100 <= n < 1000`. */
  lemma {:induction false} DecimalStringLength(n: nat)
    ensures |DecimalString(n)| <= 3 <==> n < 1000
    ensures 100 <= n < 1000 ==> |DecimalString(n)| == 3
    ensures n < 10 ==> |DecimalString(n)| == 1
    ensures 10 <= n < 100 ==> |DecimalString(n)| == 2
  {
    if n >= 10 {
      DecimalStringLength(n / 10);
    }
  }

  /** `k` copies of `c`. */
  function Repeat(c: char, k: nat): (r: string)
    ensures |r| == k && forall i :: 0 <= i < k ==> r[i] == c
  {
    if k == 0 then [] else Repeat(c, k - 1) + [c]
  }

  /** `s.padStart(width, fill)` with a one-character fill. */
  function PadStart(s: string, width: nat, fill: char): (r: string)
    ensures |s| >= width ==> r == s
    ensures |r| == if |s| >= width then |s| else width
    ensures r[|r| - |s|..] == s
    ensures forall i :: 0 <= i < |r| - |s| ==> r[i] == fill
  {
    if |s| >= width then s else Repeat(fill, width - |s|) + s
  }

  /** Leading zeros do not change the value of a digit string. */
  lemma {:induction false} LeadingZeros(k: nat, s: string)
    requires AllDigits(s)
    ensures AllDigits(Repeat('0', k) + s)
    ensures DigitsValue(Repeat('0', k) + s) == DigitsValue(s)
  {
    var z := Repeat('0', k);
    if s == [] {
      assert z + s == z;
      ZerosValue(k);
    } else {
      var init := s[..|s| - 1];
      LeadingZeros(k, init);
      assert (z + s)[..|z + s| - 1] == z + init;
    }
  }

  lemma {:induction false} ZerosValue(k: nat)
    ensures AllDigits(Repeat('0', k)) && DigitsValue(Repeat('0', k)) == 0
  {
    if k > 0 {
      ZerosValue(k - 1);
      assert Repeat('0', k)[..k - 1] == Repeat('0', k - 1);
    }
  }

  /** Length of the longest prefix of `s` made of decimal digits. */
  function DigitRun(s: string): (k: nat)
    ensures k <= |s| && AllDigits(s[..k])
    ensures k < |s| ==> !IsDigit(s[k])
  {
    if s == [] || !IsDigit(s[0]) then 0
    else
      var k := 1 + DigitRun(s[1..]);
      assert s[..k] == [s[0]] + s[1..][..k - 1];
      k
  }

  /** `parseInt(s)` for text without leading white space or a radix prefix:
      an optional sign, then the longest run of decimal digits; `None` is NaN. */
  function ParseInt(s: string): (r: Option<int>)
  {
    if |s| > 0 && (s[0] == '-' || s[0] == '+') then
      var body := s[1..];
      var k := DigitRun(body);
      var v: int := if k == 0 then 0 else DigitsValue(body[..k]);
      if k == 0 then None else if s[0] == '-' then Some(-v) else Some(v)
    else
      var k := DigitRun(s);
      if k == 0 then None else Some(DigitsValue(s[..k]))
  }

  /** A non-empty string of digits parses to its value. */
  lemma DigitsParse(s: string)
    requires s != [] && AllDigits(s)
    ensures ParseInt(s) == Some(DigitsValue(s))
  {
    DigitRunAll(s);
    assert s[..|s|] == s;
  }

  lemma {:induction false} DigitRunAll(s: string)
    requires AllDigits(s)
    ensures DigitRun(s) == |s|
  {
    if s != [] {
      DigitRunAll(s[1..]);
    }
  }

  /** The empty string, and text that starts with neither a sign nor a digit, are NaN. */
  lemma ParseIntNaN(s: string)
    requires s == [] || (!IsDigit(s[0]) && s[0] != '-' && s[0] != '+')
    ensures ParseInt(s).None?
  {
  }

  /** `parseInt(String(n).padStart(w, '0')) == n`: zero-padded labels read back. */
  lemma PaddedDecimalRoundTrip(n: nat, width: nat)
    ensures ParseInt(PadStart(DecimalString(n), width, '0')) == Some(n)
  {
    var d := DecimalString(n);
    DecimalStringValue(n);
    if |d| >= width {
      DigitsParse(d);
    } else {
      LeadingZeros(width - |d|, d);
      DigitsParse(Repeat('0', width - |d|) + d);
    }
  }

  /** The three-character label of a raffle number, as every grid shows it. */
  function Label(n: nat): (r: string)
    ensures ParseInt(r) == Some(n)
    ensures AllDigits(r)
    ensures n < 1000 ==> |r| == 3
    ensures n >= 100 ==> r == DecimalString(n)
    ensures |r| >= |DecimalString(n)| && r[|r| - |DecimalString(n)|..] == DecimalString(n)
    ensures forall i :: 0 <= i < |r| - |DecimalString(n)| ==> r[i] == '0'
  {
    PaddedDecimalRoundTrip(n, 3);
    DecimalStringLength(n);
    PadStart(DecimalString(n), 3, '0')
  }
}

/** Decimal numerals as the icon scripts read them: `int(s)` for a whole number and
    `int(float(s))` for a size such as "83.5". Only plain ASCII numerals are modelled:
    an optional sign, decimal digits and, for floats, one optional fractional part. */
module Numbers {
  import opened Wrappers

  predicate IsDigit(c: char) {
    '0' <= c <= '9'
  }

  predicate AllDigits(s: string) {
    forall i :: 0 <= i < |s| ==> IsDigit(s[i])
  }

  function DigitValue(c: char): nat
    requires IsDigit(c)
  {
    (c as int - '0' as int) as nat
  }

  /** Value of a run of digits, most significant first. */
  function DigitsValue(s: string): nat
    requires AllDigits(s)
  {
    if s == [] then 0 else 10 * DigitsValue(s[..|s| - 1]) + DigitValue(s[|s| - 1])
  }

  /** Splits an optional leading '+' or '-' off; the flag says whether it was '-'. */
  function SplitSign(s: string): (r: (bool, string))
    ensures |r.1| <= |s|
    ensures r.1 == s || r.1 == s[1..]
  {
    if |s| > 0 && (s[0] == '-' || s[0] == '+') then (s[0] == '-', s[1..]) else (false, s)
  }

  /** `int(s)` on a plain numeral: a sign, then at least one digit. */
  function ParseInt(s: string): (r: Option<int>)
    ensures r.Some? ==> s != []
  {
    var (neg, body) := SplitSign(s);
    if body == [] || !AllDigits(body) then None
    else
      var v: int := DigitsValue(body);
      Some(if neg then -v else v)
  }

  /** Index of the first c in s, or |s| when there is none. */
  function IndexOf(s: string, c: char): (i: nat)
    ensures i <= |s|
    ensures forall j :: 0 <= j < i ==> s[j] != c
    ensures i < |s| ==> s[i] == c
  {
    if s == [] then 0 else if s[0] == c then 0 else 1 + IndexOf(s[1..], c)
  }

  /** `int(float(s))` on a plain decimal: a sign, digits, optionally a '.' and more digits,
      with at least one digit in all. The fraction is dropped, which is truncation toward
      zero for either sign. */
  function ParseFloatTrunc(s: string): (r: Option<int>)
  {
    var (neg, body) := SplitSign(s);
    var k := IndexOf(body, '.');
    var whole := body[..k];
    var frac := if k < |body| then body[k + 1..] else [];
    if !AllDigits(whole) || !AllDigits(frac) || (whole == [] && frac == []) then None
    else
      var v: int := DigitsValue(whole);
      Some(if neg then -v else v)
  }

  // ----- Printing, the partner of parsing -----

  /** Decimal digits of n, without leading zeros ("0" for zero). */
  function ShowNat(n: nat): (s: string)
    ensures s != [] && AllDigits(s)
  {
    if n < 10 then [DigitChar(n)] else ShowNat(n / 10) + [DigitChar(n % 10)]
  }

  function DigitChar(d: nat): (c: char)
    requires d < 10
    ensures IsDigit(c) && DigitValue(c) == d
  {
    ('0' as int + d) as char
  }

  function ShowInt(n: int): (s: string)
    ensures s != []
  {
    if n < 0 then "-" + ShowNat(-n) else ShowNat(n)
  }

  lemma {:induction false} ShowNatValue(n: nat)
    ensures DigitsValue(ShowNat(n)) == n
  {
    if n >= 10 {
      var s := ShowNat(n);
      ShowNatValue(n / 10);
      assert s[..|s| - 1] == ShowNat(n / 10);
    }
  }

  /** Reading back a printed integer gives the integer. */
  lemma ParseShowInt(n: int)
    ensures ParseInt(ShowInt(n)) == Some(n)
  {
    if n < 0 {
      ShowNatValue(-n);
      assert ShowInt(n)[1..] == ShowNat(-n);
    } else {
      ShowNatValue(n);
    }
  }

  /** The unsigned body of a float numeral: digits, then optionally '.' and more digits. */
  lemma FloatBody(digits: string, frac: string, dotted: bool)
    requires digits != [] && AllDigits(digits) && AllDigits(frac)
    ensures var body := if dotted then digits + "." + frac else digits;
      var k := IndexOf(body, '.');
      && body[..k] == digits
      && (if k < |body| then body[k + 1..] else []) == (if dotted then frac else [])
  {
    if dotted {
      var t := digits + "." + frac;
      IndexOfDotAfterDigits(digits, frac);
      assert t[..|digits|] == digits;
      assert t[|digits| + 1..] == frac;
    } else {
      IndexOfDotInDigits(digits);
    }
  }

  /** A whole number reads the same through `int(float(...))`, and so does one with a
      fractional part appended: the fraction never rounds the value up. */
  lemma ParseFloatOfInt(n: int, frac: string, dotted: bool)
    requires AllDigits(frac)
    ensures ParseFloatTrunc(if dotted then ShowInt(n) + "." + frac else ShowInt(n)) == Some(n)
  {
    var m: nat := if n < 0 then -n else n;
    var digits := ShowNat(m);
    ShowNatValue(m);
    var body := if dotted then digits + "." + frac else digits;
    var t := if n < 0 then "-" + body else body;
    assert t == (if dotted then ShowInt(n) + "." + frac else ShowInt(n));
    assert SplitSign(t) == (n < 0, body) by {
      if n < 0 { assert t[1..] == body; } else { assert t[0] == digits[0]; }
    }
    ParseFloatBody(n < 0, body, digits, frac, dotted);
  }

  lemma ParseFloatBody(neg: bool, body: string, digits: string, frac: string, dotted: bool)
    requires digits != [] && AllDigits(digits) && AllDigits(frac)
    requires body == if dotted then digits + "." + frac else digits
    ensures var t := if neg then "-" + body else body;
      SplitSign(t) == (neg, body) ==>
      ParseFloatTrunc(t) == Some(if neg then -(DigitsValue(digits) as int) else DigitsValue(digits))
  {
    FloatBody(digits, frac, dotted);
  }

  lemma {:induction false} IndexOfDotInDigits(s: string)
    requires AllDigits(s)
    ensures IndexOf(s, '.') == |s|
  {
    if s != [] {
      IndexOfDotInDigits(s[1..]);
    }
  }

  lemma {:induction false} IndexOfDotAfterDigits(s: string, frac: string)
    requires AllDigits(s)
    ensures IndexOf(s + "." + frac, '.') == |s|
  {
    if s != [] {
      assert (s + "." + frac)[1..] == s[1..] + "." + frac;
      IndexOfDotAfterDigits(s[1..], frac);
    }
  }
}

/** Decimal conversion between integers and strings: JavaScript's
    `String(n)` / template interpolation of an integer, and the integer
    part of `+s` (unary plus on a string). */
module Numbers {
  import opened Wrappers

  predicate IsDigit(ch: char)
  {
    '0' <= ch <= '9'
  }

  predicate AllDigits(s: string)
  {
    forall i :: 0 <= i < |s| ==> IsDigit(s[i])
  }

  function DigitValue(ch: char): (d: nat)
    requires IsDigit(ch)
    ensures d < 10
  {
    ch as int - '0' as int
  }

  function DigitChar(d: nat): (ch: char)
    requires d < 10
    ensures IsDigit(ch) && DigitValue(ch) == d
  {
    ('0' as int + d) as char
  }

  /** The value of a string of decimal digits, most significant first. */
  function DigitsValue(s: string): nat
    requires AllDigits(s)
    decreases |s|
  {
    if s == [] then 0 else DigitsValue(s[..|s| - 1]) * 10 + DigitValue(s[|s| - 1])
  }

  /** Shortest decimal spelling of a natural number. */
  function ShowNat(n: nat): (r: string)
    ensures |r| >= 1 && AllDigits(r)
    ensures DigitsValue(r) == n
    ensures |r| > 1 ==> r[0] != '0'
  {
    if n < 10 then [DigitChar(n)]
    else
      var init := ShowNat(n / 10);
      var r := init + [DigitChar(n % 10)];
      assert r[..|r| - 1] == init;
      r
  }

  /** `String(n)` for an integer `n`. */
  function ShowInt(n: int): (r: string)
  {
    if n < 0 then "-" + ShowNat(-n) else ShowNat(n)
  }

  /** The integer part of JavaScript's `+s`: the empty string is 0, an
      optional sign followed by one or more decimal digits is that number,
      and anything else is NaN (None). */
  function ParseNumber(s: string): (r: Option<int>)
  {
    if s == [] then Some(0)
    else if s[0] == '-' || s[0] == '+' then
      if |s| > 1 && AllDigits(s[1..]) then
        var m: int := DigitsValue(s[1..]);
        Some(if s[0] == '-' then -m else m)
      else None
    else if AllDigits(s) then Some(DigitsValue(s))
    else None
  }

  /** Printing an integer and reading it back gives the same integer. */
  lemma ParseShowInt(n: int)
    ensures ParseNumber(ShowInt(n)) == Some(n)
  {
    if n < 0 {
      var r := ShowInt(n);
      assert r[1..] == ShowNat(-n);
    } else {
      var r := ShowNat(n);
      assert IsDigit(r[0]);
    }
  }

  /** A string that parses to a number and has no superfluous characters
      is the printed form of that number; leading zeros and a '+' sign are
      what make two spellings of one number differ. */
  lemma {:induction false} ShowNatDigitsValue(s: string)
    requires AllDigits(s) && |s| >= 1 && (|s| > 1 ==> s[0] != '0')
    ensures ShowNat(DigitsValue(s)) == s
    decreases |s|
  {
    var init, last := s[..|s| - 1], s[|s| - 1];
    if |s| > 1 {
      assert init[0] == s[0];
      ShowNatDigitsValue(init);
      assert DigitsValue(init) >= 1 by {
        LeadingDigitPositive(init);
      }
      assert s == init + [last];
    }
  }

  /** A digit string not starting with '0' denotes a positive number. */
  lemma {:induction false} LeadingDigitPositive(s: string)
    requires AllDigits(s) && |s| >= 1 && s[0] != '0'
    ensures DigitsValue(s) >= 1
    decreases |s|
  {
    if |s| > 1 {
      LeadingDigitPositive(s[..|s| - 1]);
    }
  }
}

/** The decimal conversions of java.lang.Integer and java.lang.Long, and
    String.trim, as the auction code relies on them. */
module JavaText {
  import opened Domain

  const INT_MIN := -0x8000_0000
  const INT_MAX := 0x7FFF_FFFF
  const LONG_MIN := -0x8000_0000_0000_0000
  const LONG_MAX := 0x7FFF_FFFF_FFFF_FFFF

  predicate IsDigit(c: char) { '0' <= c <= '9' }

  predicate AllDigits(s: string) { forall i :: 0 <= i < |s| ==> IsDigit(s[i]) }

  function DigitChar(d: nat): char
    requires d < 10
  {
    ('0' as int + d) as char
  }

  function DigitValue(c: char): nat
    requires IsDigit(c)
  {
    c as int - '0' as int
  }

  /** The decimal digits of n, most significant first, with no leading zero. */
  function Digits(n: nat): (s: string)
    ensures |s| > 0 && AllDigits(s)
    ensures |s| > 1 ==> s[0] != '0'
    decreases n
  {
    if n < 10 then [DigitChar(n)] else Digits(n / 10) + [DigitChar(n % 10)]
  }

  /** The number a non-empty run of digits denotes. */
  function DigitsValue(s: string): nat
    requires AllDigits(s)
  {
    if s == [] then 0 else DigitsValue(s[..|s| - 1]) * 10 + DigitValue(s[|s| - 1])
  }

  lemma {:induction false} DigitsValueOfDigits(n: nat)
    ensures DigitsValue(Digits(n)) == n
    decreases n
  {
    if n >= 10 {
      DigitsValueOfDigits(n / 10);
      var s := Digits(n);
      assert s[..|s| - 1] == Digits(n / 10);
    }
  }

  /** Integer.toString / Long.toString. */
  function IntToString(n: int): string
  {
    if n < 0 then "-" + Digits(-n) else Digits(n)
  }

  /** Integer.parseInt / Long.parseLong with the range [lo, hi]: an optional
      sign, then one or more ASCII digits; None where Java throws
      NumberFormatException (null, empty, stray characters, out of range). */
  function ParseDecimal(s: Option<string>, lo: int, hi: int): (r: Option<int>)
    ensures r.Some? ==> lo <= r.value <= hi
    ensures s.None? || s.value == [] ==> r.None?
  {
    match s
    case None => None
    case Some(t) =>
      if t == [] then None
      else
        var body := if t[0] == '-' || t[0] == '+' then t[1..] else t;
        if body == [] || !AllDigits(body) then None
        else
          var v := if t[0] == '-' then -(DigitsValue(body) as int) else DigitsValue(body);
          if lo <= v <= hi then Some(v) else None
  }

  function ParseInt(s: Option<string>): Option<int> { ParseDecimal(s, INT_MIN, INT_MAX) }

  function ParseLong(s: Option<string>): Option<int> { ParseDecimal(s, LONG_MIN, LONG_MAX) }

  /** Reading back what toString wrote gives the number again, for every value in range. */
  lemma {:induction false} ParseDecimalOfIntToString(n: int, lo: int, hi: int)
    requires lo <= n <= hi
    ensures ParseDecimal(Some(IntToString(n)), lo, hi) == Some(n)
  {
    if n < 0 {
      DigitsValueOfDigits(-n);
      assert ("-" + Digits(-n))[1..] == Digits(-n);
    } else {
      DigitsValueOfDigits(n);
    }
  }

  /** toString never writes a comma. */
  lemma IntToStringHasNoComma(n: int)
    ensures ',' !in IntToString(n)
  {
    var s := IntToString(n);
    forall i | 0 <= i < |s| ensures s[i] != ',' {
      if n < 0 && i > 0 { assert s[i] == Digits(-n)[i - 1]; }
    }
  }

  predicate IsSpace(c: char) { c <= ' ' }

  /** String.trim: drops every leading and trailing character at or below ' '. */
  function Trim(s: string): (r: string)
    ensures |r| <= |s|
    ensures r != [] ==> !IsSpace(r[0]) && !IsSpace(r[|r| - 1])
  {
    TrimEnd(TrimStart(s))
  }

  function TrimStart(s: string): (r: string)
    ensures |r| <= |s|
    ensures r != [] ==> !IsSpace(r[0])
    ensures r != [] ==> r[|r| - 1] == s[|s| - 1]
  {
    if s != [] && IsSpace(s[0]) then TrimStart(s[1..]) else s
  }

  function TrimEnd(s: string): (r: string)
    ensures |r| <= |s|
    ensures r != [] ==> !IsSpace(r[|r| - 1])
    ensures r != [] ==> r[0] == s[0]
  {
    if s != [] && IsSpace(s[|s| - 1]) then TrimEnd(s[..|s| - 1]) else s
  }
}

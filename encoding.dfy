/** The text encodings the server applies to argument values before they are
    sent: Python's `str()` on an integer (decimal digits, a leading '-' for a
    negative number) and the literals "true"/"false" for a boolean. Each
    encoding comes with the parser that reads it back, and the round-trip
    lemmas show that nothing is lost in the encoding. */
module Encoding {
  import opened Wrappers

  /** The character for a decimal digit. */
  function DigitChar(d: nat): (c: char)
    requires d < 10
    ensures '0' <= c <= '9'
    ensures c as int - '0' as int == d
  {
    (d + '0' as int) as char
  }

  predicate IsDigit(c: char) {
    '0' <= c <= '9'
  }

  predicate AllDigits(s: string) {
    forall i :: 0 <= i < |s| ==> IsDigit(s[i])
  }

  /** Decimal text of a natural number, most significant digit first, no leading zeros. */
  function NatToString(n: nat): (s: string)
    decreases n
  {
    if n < 10 then [DigitChar(n)] else NatToString(n / 10) + [DigitChar(n % 10)]
  }

  /** Python's `str(n)` for an int: the decimal digits, preceded by '-' when n is negative. */
  function IntToString(n: int): (s: string)
  {
    if n < 0 then "-" + NatToString(-n) else NatToString(n)
  }

  /** The number a non-empty string of decimal digits denotes (read from the last digit back). */
  function DigitsValue(s: string): (n: nat)
    requires AllDigits(s)
    decreases |s|
  {
    if s == [] then 0
    else DigitsValue(s[..|s| - 1]) * 10 + (s[|s| - 1] as int - '0' as int)
  }

  /** The decimal text `str()` gives for a natural number: a non-empty run of
      digits with no leading zero, except for "0" itself. */
  predicate Canonical(s: string) {
    s != [] && AllDigits(s) && (s[0] == '0' ==> |s| == 1)
  }

  /** Reads a natural number back from its decimal text; None unless the text is canonical. */
  function ParseNat(s: string): (r: Option<nat>)
    ensures r.Some? <==> Canonical(s)
  {
    if Canonical(s) then Some(DigitsValue(s)) else None
  }

  /** Reads an integer back from the text `str()` gives for it: canonical digits,
      preceded by '-' when the number is negative ("-0" is not such a text). */
  function ParseInt(s: string): (r: Option<int>)
    ensures r.Some? ==> s != [] && (s[0] == '-' || Canonical(s))
  {
    if s != [] && s[0] == '-' then
      match ParseNat(s[1..])
      case Some(n) => if n == 0 then None else Some(-(n as int))
      case None => None
    else
      match ParseNat(s)
      case Some(n) => Some(n)
      case None => None
  }

  /** The decimal text of a natural number is canonical and denotes that number. */
  lemma {:induction false} NatToStringDigits(n: nat)
    ensures Canonical(NatToString(n))
    ensures n >= 1 ==> NatToString(n)[0] != '0'
    ensures DigitsValue(NatToString(n)) == n
    decreases n
  {
    var s := NatToString(n);
    if n >= 10 {
      NatToStringDigits(n / 10);
      var p := NatToString(n / 10);
      assert s == p + [DigitChar(n % 10)];
      assert s[..|s| - 1] == p;
      assert s[0] == p[0];
    } else {
      assert s[..|s| - 1] == [];
    }
  }

  /** Digits that do not start with '0' denote a positive number. */
  lemma {:induction false} LeadingDigitPositive(s: string)
    requires s != [] && AllDigits(s) && s[0] != '0'
    ensures DigitsValue(s) >= 1
    decreases |s|
  {
    if |s| > 1 {
      var init := s[..|s| - 1];
      assert init[0] == s[0];
      LeadingDigitPositive(init);
    }
  }

  /** Canonical text is the only text of its number: `str()` gives it back. */
  lemma {:induction false} CanonicalIsNatToString(s: string)
    requires Canonical(s)
    ensures NatToString(DigitsValue(s)) == s
    decreases |s|
  {
    var n := DigitsValue(s);
    if |s| == 1 {
      assert s[..|s| - 1] == [];
      assert DigitsValue(s[..|s| - 1]) == 0;
      assert s[|s| - 1] == s[0];
      assert n == s[0] as int - '0' as int;
      assert NatToString(n) == [DigitChar(n)];
    } else {
      var init := s[..|s| - 1];
      assert init[0] == s[0];
      LeadingDigitPositive(init);
      CanonicalIsNatToString(init);
      var m := DigitsValue(init);
      var d := s[|s| - 1] as int - '0' as int;
      assert n == m * 10 + d && 0 <= d < 10;
      assert n / 10 == m && n % 10 == d;
      assert NatToString(n) == NatToString(m) + [DigitChar(d)];
      assert s == init + [s[|s| - 1]];
    }
  }

  /** Exactly one text reads as a given integer: the one `str()` gives. */
  lemma ParseIntExact(s: string, n: int)
    ensures ParseInt(s) == Some(n) <==> s == IntToString(n)
  {
    IntRoundTrip(n);
    if ParseInt(s) == Some(n) {
      if s[0] == '-' {
        var rest := s[1..];
        CanonicalIsNatToString(rest);
        assert s == "-" + rest;
      } else {
        CanonicalIsNatToString(s);
      }
    }
  }

  /** `str()` of an integer has no character other than digits and a leading '-':
      in particular no '/' and no space, so it cannot run into a path separator. */
  lemma IntToStringChars(n: int)
    ensures IntToString(n) != []
    ensures forall i :: 0 < i < |IntToString(n)| ==> IsDigit(IntToString(n)[i])
    ensures IsDigit(IntToString(n)[0]) || IntToString(n)[0] == '-'
  {
    if n < 0 {
      NatToStringDigits(-n);
    } else {
      NatToStringDigits(n);
    }
  }

  /** Round trip: reading back the decimal text of any integer gives that integer. */
  lemma IntRoundTrip(n: int)
    ensures ParseInt(IntToString(n)) == Some(n)
  {
    var s := IntToString(n);
    if n < 0 {
      NatToStringDigits(-n);
      assert s[1..] == NatToString(-n);
      assert ParseNat(s[1..]) == Some(-n) && -n != 0;
    } else {
      NatToStringDigits(n);
      assert s[0] != '-' by { assert IsDigit(s[0]); }
    }
  }

  /** Distinct integers are never sent as the same text. */
  lemma IntToStringInjective(a: int, b: int)
    ensures IntToString(a) == IntToString(b) <==> a == b
  {
    IntRoundTrip(a);
    IntRoundTrip(b);
  }

  /** The text the server sends for a boolean argument. */
  function BoolText(b: bool): (s: string)
    ensures s == "true" || s == "false"
  {
    if b then "true" else "false"
  }

  /** Reads a boolean back from its text; anything but "true" and "false" is None. */
  function ParseBool(s: string): (r: Option<bool>)
    ensures r.Some? <==> s == "true" || s == "false"
  {
    if s == "true" then Some(true) else if s == "false" then Some(false) else None
  }

  /** Round trip: the text of a boolean reads back as that boolean. */
  lemma BoolRoundTrip(b: bool)
    ensures ParseBool(BoolText(b)) == Some(b)
  {
  }
}

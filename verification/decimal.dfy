/** Decimal text of integers, as `strconv.Itoa` writes it, together with a strict
    reader for that text. The reader is the partner of the writer: it shows that
    the writer loses no information, so an identifier sent as text to the DNS
    provider names exactly one identifier value. */
module Decimal {
  import opened Results

  predicate IsDigit(c: char) {
    '0' <= c <= '9'
  }

  function DigitChar(d: int): (c: char)
    requires 0 <= d < 10
    ensures IsDigit(c)
    ensures c as int - '0' as int == d
  {
    ('0' as int + d) as char
  }

  function DigitValue(c: char): (d: int)
    requires IsDigit(c)
    ensures 0 <= d < 10
  {
    c as int - '0' as int
  }

  predicate AllDigits(s: string) {
    forall i :: 0 <= i < |s| ==> IsDigit(s[i])
  }

  /** Non-empty decimal digits without a superfluous leading zero. */
  predicate IsCanonicalDigits(s: string) {
    && |s| > 0
    && AllDigits(s)
    && (s[0] == '0' ==> |s| == 1)
  }

  /** The value of a string of decimal digits, most significant first. */
  function DigitsValue(s: string): nat
    requires AllDigits(s)
    decreases |s|
  {
    if s == [] then 0 else DigitsValue(s[..|s| - 1]) * 10 + DigitValue(s[|s| - 1])
  }

  /** Decimal digits of a natural number, most significant first. */
  function NatToString(n: nat): (s: string)
    ensures IsCanonicalDigits(s)
    ensures s == "0" <==> n == 0
    decreases n
  {
    if n < 10 then [DigitChar(n)] else NatToString(n / 10) + [DigitChar(n % 10)]
  }

  /** `strconv.Itoa`: a leading minus sign for negative numbers, then the digits. */
  function Itoa(n: int): (s: string)
    ensures n < 0 <==> (|s| > 0 && s[0] == '-')
  {
    if n < 0 then "-" + NatToString(-n) else NatToString(n)
  }

  /** Reads exactly the texts `Itoa` writes (`ReadIntItoa`, `ReadIntOnlyItoa`):
      an optional minus sign before canonical digits, and no negative zero. */
  function ReadInt(s: string): Option<int> {
    if |s| > 0 && s[0] == '-' then
      if IsCanonicalDigits(s[1..]) && s[1..] != "0" then Some(0 - DigitsValue(s[1..]) as int) else None
    else if IsCanonicalDigits(s) then Some(DigitsValue(s) as int)
    else None
  }

  lemma DigitsValueSnoc(s: string, c: char)
    requires AllDigits(s) && IsDigit(c)
    ensures AllDigits(s + [c])
    ensures DigitsValue(s + [c]) == DigitsValue(s) * 10 + DigitValue(c)
  {
  }

  lemma {:induction false} NatToStringValue(n: nat)
    ensures DigitsValue(NatToString(n)) == n
    decreases n
  {
    if n >= 10 {
      NatToStringValue(n / 10);
      DigitsValueSnoc(NatToString(n / 10), DigitChar(n % 10));
    }
  }

  /** Reading back what `Itoa` wrote gives the original number. */
  lemma ReadIntItoa(n: int)
    ensures ReadInt(Itoa(n)) == Some(n)
  {
    if n < 0 {
      var s := Itoa(n);
      assert s[1..] == NatToString(-n);
      NatToStringValue(-n);
    } else {
      NatToStringValue(n);
    }
  }

  /** Canonical digits are what `NatToString` writes for their value. */
  lemma {:induction false} NatToStringOfDigits(s: string)
    requires IsCanonicalDigits(s)
    ensures NatToString(DigitsValue(s)) == s
    decreases |s|
  {
    if |s| > 1 {
      var p := s[..|s| - 1];
      var c := s[|s| - 1];
      assert s == p + [c];
      assert IsCanonicalDigits(p);
      NatToStringOfDigits(p);
      assert DigitsValue(p) != 0;
      assert DigitChar(DigitValue(c)) == c;
    } else {
      assert DigitChar(DigitValue(s[0])) == s[0];
    }
  }

  /** The reader accepts no text other than what `Itoa` writes for its result. */
  lemma ReadIntOnlyItoa(s: string, n: int)
    requires ReadInt(s) == Some(n)
    ensures s == Itoa(n)
  {
    if |s| > 0 && s[0] == '-' {
      NatToStringOfDigits(s[1..]);
      assert s == "-" + s[1..];
    } else {
      NatToStringOfDigits(s);
    }
  }

  /** Different numbers have different decimal texts. */
  lemma ItoaInjective(m: int, n: int)
    ensures Itoa(m) == Itoa(n) <==> m == n
  {
    if Itoa(m) == Itoa(n) {
      ReadIntItoa(m);
      ReadIntItoa(n);
    }
  }
}

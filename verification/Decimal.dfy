/** Signed decimal numbers as `%d` prints them, and reading them back. */
module Decimal {

  function DigitChar(d: nat): char
    requires d < 10
  {
    '0' + d as char
  }

  predicate IsDigit(c: char) {
    '0' <= c <= '9'
  }

  function Natural(n: nat): (s: string)
    ensures |s| > 0 && forall c | c in s :: IsDigit(c)
  {
    if n < 10 then [DigitChar(n)] else Natural(n / 10) + [DigitChar(n % 10)]
  }

  function Integer(n: int): string {
    if n < 0 then "-" + Natural(-n) else Natural(n)
  }

  predicate Int32(n: int) {
    -0x8000_0000 <= n < 0x8000_0000
  }

  function Pow10(k: nat): nat {
    if k == 0 then 1 else 10 * Pow10(k - 1)
  }

  lemma {:induction false} NaturalLength(n: nat, k: nat)
    requires k > 0
    ensures |Natural(n)| <= k <==> n < Pow10(k)
  {
    if n < 10 {
      PowGrows(k);
    } else if k == 1 {
      assert Pow10(1) == 10 * Pow10(0);
    } else {
      NaturalLength(n / 10, k - 1);
      assert n / 10 < Pow10(k - 1) <==> n < 10 * Pow10(k - 1);
    }
  }

  lemma {:induction false} PowGrows(k: nat)
    requires k > 0
    ensures Pow10(k) >= 10
  {
    if k > 1 {
      PowGrows(k - 1);
    }
  }

  lemma TenDigits()
    ensures Pow10(10) == 1_00000_00000 && Pow10(11) == 10_00000_00000
  {
    assert Pow10(5) == 1_00000;
    assert Pow10(11) == 10 * Pow10(10);
    assert Pow10(10) == 10 * (10 * (10 * (10 * (10 * Pow10(5)))));
  }

  /** Which numbers fit eleven characters, sign included: all 32-bit ones are among them. */
  lemma IntegerLength(n: int)
    ensures |Integer(n)| <= 11 <==> -1_00000_00000 < n < 10_00000_00000
  {
    TenDigits();
    if n < 0 {
      NaturalLength(-n, 10);
    } else {
      NaturalLength(n, 11);
    }
  }

  // ---------- Reading back ----------

  /** How many digits the text starts with. */
  function Span(text: string): (k: nat)
    ensures k <= |text| && forall c | c in text[..k] :: IsDigit(c)
  {
    if text == [] || !IsDigit(text[0]) then 0 else 1 + Span(text[1..])
  }

  function Value(digits: string): nat
    requires forall c | c in digits :: IsDigit(c)
  {
    if digits == [] then 0
    else
      var n := |digits| - 1;
      assert digits[n] in digits && IsDigit(digits[n]);
      10 * Value(digits[..n]) + (digits[n] as int - '0' as int)
  }

  lemma {:induction false} ValueOfNatural(n: nat)
    ensures Value(Natural(n)) == n
  {
    if n < 10 {
      assert Natural(n)[..0] == [];
    } else {
      ValueOfNatural(n / 10);
      assert Natural(n)[..|Natural(n)| - 1] == Natural(n / 10);
    }
  }

  /** No leading zero. */
  lemma {:induction false} NaturalLeads(n: nat)
    ensures n > 0 ==> Natural(n)[0] != '0'
  {
    if n >= 10 {
      NaturalLeads(n / 10);
      assert Natural(n)[0] == Natural(n / 10)[0];
    }
  }

  /** A numeral as `%d` writes it: digits only, and no zero in front of another digit. */
  predicate Numeral(s: string) {
    s != [] && (forall c | c in s :: IsDigit(c)) && (|s| > 1 ==> s[0] != '0')
  }

  lemma {:induction false} NaturalOfValue(s: string)
    requires Numeral(s)
    ensures Natural(Value(s)) == s
    ensures s[0] != '0' ==> Value(s) > 0
  {
    var n := |s| - 1;
    var init, last := s[..n], s[n];
    assert s == init + [last] && IsDigit(last);
    if n == 0 {
      assert Value(init) == 0;
    } else {
      assert init[0] == s[0];
      NaturalOfValue(init);
    }
  }

  /** The text of an integer is the one numeral of its value, behind a minus sign if it is negative. */
  lemma IntegerExactly(n: int, s: string)
    ensures s == Integer(n) <==>
      if n < 0 then s != [] && s[0] == '-' && Numeral(s[1..]) && Value(s[1..]) == -n
      else Numeral(s) && Value(s) == n
  {
    var digits := if n < 0 && s != [] then s[1..] else s;
    var size := if n < 0 then -n else n;
    NaturalLeads(size);
    ValueOfNatural(size);
    if Numeral(digits) {
      NaturalOfValue(digits);
    }
    if n < 0 && s != [] {
      assert s == [s[0]] + digits;
    }
  }

  lemma {:induction false} SpanOfDigits(digits: string, rest: string)
    requires forall c | c in digits :: IsDigit(c)
    requires rest == [] || !IsDigit(rest[0])
    ensures Span(digits + rest) == |digits|
  {
    if digits == [] {
      assert digits + rest == rest;
    } else {
      assert digits[0] in digits;
      assert (digits + rest)[1..] == digits[1..] + rest;
      SpanOfDigits(digits[1..], rest);
    }
  }
}

/** Tokens as the (external) tokenizer hands them to the parser, and the
    decimal conversion `Integer.parseInt` that the number rule applies to
    an integer token's text. */
module Tokens {
  import opened Wrappers

  /** The closed set of token tags. */
  datatype Tag =
    | IntLiteral
    | DoubleLiteral
    | Identifier
    | Literal
    | Assignment
    | Declaration
    | NewLine
    | EndOfStream

  datatype Token = Token(tag: Tag, value: string)

  /** Bounds of a Java `int`. */
  const IntMin: int := -0x8000_0000
  const IntMax: int := 0x7fff_ffff

  predicate IsDigit(c: char) {
    '0' <= c <= '9'
  }

  predicate AllDigits(s: string) {
    forall i | 0 <= i < |s| :: IsDigit(s[i])
  }

  /** The value of a string of decimal digits, most significant first. */
  function DigitsValue(s: string): nat
    requires AllDigits(s)
  {
    if s == [] then 0
    else DigitsValue(s[..|s| - 1]) * 10 + (s[|s| - 1] as int - '0' as int)
  }

  /** `Integer.parseInt`: an optional sign, then one or more decimal
      digits, and the value must fit a Java `int`; anything else throws
      NumberFormatException, here `None`. */
  function ParseInt(s: string): (r: Option<int>)
    ensures r.Some? ==> IntMin <= r.value <= IntMax
  {
    if s == [] then None
    else
      var signed := s[0] == '-' || s[0] == '+';
      var digits := if signed then s[1..] else s;
      if digits == [] || !AllDigits(digits) then None
      else
        var magnitude: int := DigitsValue(digits);
        var v: int := if s[0] == '-' then -magnitude else magnitude;
        if IntMin <= v <= IntMax then Some(v) else None
  }

  /** Decimal spelling of a natural number (what `Integer.toString` prints
      for it); the reference that `ParseInt` is checked against. */
  function Decimal(n: nat): (s: string)
    ensures |s| > 0 && AllDigits(s)
  {
    var d := ('0' as int + n % 10) as char;
    if n < 10 then [d] else Decimal(n / 10) + [d]
  }

  lemma {:induction false} DigitsValueOfDecimal(n: nat)
    ensures DigitsValue(Decimal(n)) == n
  {
    var s := Decimal(n);
    assert s[..|s| - 1] == if n < 10 then [] else Decimal(n / 10);
    if n >= 10 {
      DigitsValueOfDecimal(n / 10);
    }
  }

  /** Parsing what is printed gives the number back, for every value of a
      Java `int`, negative ones written with a leading minus. */
  lemma ParseIntRoundTrip(n: int)
    requires IntMin <= n <= IntMax
    ensures n >= 0 ==> ParseInt(Decimal(n)) == Some(n)
    ensures n < 0 ==> ParseInt("-" + Decimal(-n)) == Some(n)
  {
    if n >= 0 {
      DigitsValueOfDecimal(n);
    } else {
      DigitsValueOfDecimal(-n);
      assert ("-" + Decimal(-n))[1..] == Decimal(-n);
    }
  }

  /** Text that is empty, a bare sign, or holds a non-digit is rejected. */
  lemma ParseIntRejectsNonNumbers(s: string)
    requires s == [] || s == "-" || s == "+" || (|s| > 1 && exists i | 1 <= i < |s| :: !IsDigit(s[i]))
    ensures ParseInt(s) == None
  {
    if |s| > 1 && s[0] != '-' && s[0] != '+' {
      var i :| 1 <= i < |s| && !IsDigit(s[i]);
      assert !AllDigits(s);
    } else if |s| > 1 {
      var i :| 1 <= i < |s| && !IsDigit(s[i]);
      assert !IsDigit(s[1..][i - 1]);
    }
  }
}

/** The two conversions the wire format rests on: `bigint.toString()` (the
    canonical decimal text of an integer) and `BigInt(text)` (which JavaScript
    accepts for decimal text with an optional sign, for `0x`/`0o`/`0b`
    prefixed unsigned literals, for surrounding white space, and for white
    space only or the empty text, which give 0; anything else throws a
    SyntaxError, modelled as `None`). */
module BigIntCodec {
  import opened Wrappers
  import opened JsString

  /** Value of a digit character in radix 2, 8, 10 or 16, or -1. */
  function DigitValue(c: char, radix: nat): (d: int)
    ensures -1 <= d < radix
  {
    var v :=
      if '0' <= c <= '9' then c as int - '0' as int
      else if 'a' <= c <= 'f' then c as int - 'a' as int + 10
      else if 'A' <= c <= 'F' then c as int - 'A' as int + 10
      else -1;
    if v < radix then v else -1
  }

  predicate AllDigits(s: string, radix: nat)
  {
    forall k :: 0 <= k < |s| ==> DigitValue(s[k], radix) >= 0
  }

  /** Value of a digit string, most significant digit first. */
  function DigitsValue(s: string, radix: nat): (n: nat)
    requires AllDigits(s, radix)
  {
    if s == [] then 0
    else DigitsValue(s[..|s| - 1], radix) * radix + DigitValue(s[|s| - 1], radix)
  }

  /** The radix selected by the second character of a `0x`/`0o`/`0b` literal, or 0. */
  function RadixOf(c: char): nat
  {
    if c == 'x' || c == 'X' then 16
    else if c == 'o' || c == 'O' then 8
    else if c == 'b' || c == 'B' then 2
    else 0
  }

  /** `BigInt(s)`: white space around the literal is ignored. */
  function ParseBigInt(s: string): (r: Option<int>)
  {
    ParseLiteral(Trim(s))
  }

  /** The value of a literal with no surrounding white space. */
  function ParseLiteral(t: string): (r: Option<int>)
  {
    if t == [] then Some(0)
    else if |t| >= 2 && t[0] == '0' && RadixOf(t[1]) != 0 then
      var digits := t[2..];
      if digits != [] && AllDigits(digits, RadixOf(t[1])) then Some(DigitsValue(digits, RadixOf(t[1]))) else None
    else if t[0] == '-' || t[0] == '+' then
      var digits := t[1..];
      if digits != [] && AllDigits(digits, 10) then
        var v: int := if t[0] == '-' then -(DigitsValue(digits, 10) as int) else DigitsValue(digits, 10);
        Some(v)
      else None
    else if AllDigits(t, 10) then Some(DigitsValue(t, 10))
    else None
  }

  lemma ParseOfTrimmed(s: string)
    requires Trim(s) == s
    ensures ParseBigInt(s) == ParseLiteral(s)
  {
  }

  /** A plain digit string is its decimal value (leading zeros allowed). */
  lemma UnsignedLiteral(t: string)
    requires |t| >= 1 && AllDigits(t, 10)
    ensures ParseLiteral(t) == Some(DigitsValue(t, 10))
  {
    assert DigitValue(t[0], 10) >= 0;
    if |t| >= 2 {
      assert DigitValue(t[1], 10) >= 0;
      assert RadixOf(t[1]) == 0;
    }
  }

  /** A minus sign before a digit string negates its value. */
  lemma NegativeLiteral(t: string)
    requires |t| >= 2 && t[0] == '-' && AllDigits(t[1..], 10)
    ensures ParseLiteral(t) == Some(-(DigitsValue(t[1..], 10) as int))
  {
  }

  function DigitChar(d: nat): (c: char)
    requires d < 10
    ensures DigitValue(c, 10) == d
  {
    ('0' as int + d) as char
  }

  /** Decimal text of a natural number, no leading zeros. */
  function NatToDecimal(n: nat): (s: string)
    ensures |s| >= 1 && AllDigits(s, 10)
    ensures (s[0] == '0') == (n == 0)
  {
    if n < 10 then [DigitChar(n)] else NatToDecimal(n / 10) + [DigitChar(n % 10)]
  }

  /** `n.toString()` for a bigint `n`. */
  function IntToDecimal(n: int): string
  {
    if n < 0 then "-" + NatToDecimal(-n) else NatToDecimal(n)
  }

  /** Text that `toString` can produce: a digit string without leading zeros,
      optionally behind a minus sign when it is not zero. */
  predicate CanonicalNat(s: string)
  {
    |s| >= 1 && AllDigits(s, 10) && (s[0] == '0' ==> |s| == 1)
  }

  predicate Canonical(s: string)
  {
    CanonicalNat(s) || (|s| >= 2 && s[0] == '-' && s[1] != '0' && CanonicalNat(s[1..]))
  }

  lemma {:induction false} DigitsOfNatToDecimal(n: nat)
    ensures DigitsValue(NatToDecimal(n), 10) == n
  {
    var s := NatToDecimal(n);
    if n >= 10 {
      DigitsOfNatToDecimal(n / 10);
      assert s[..|s| - 1] == NatToDecimal(n / 10);
    }
  }

  lemma {:induction false} LeadingNonZeroValue(s: string)
    requires CanonicalNat(s) && s[0] != '0'
    ensures DigitsValue(s, 10) >= 1
    ensures |s| >= 2 ==> DigitsValue(s, 10) >= 10
  {
    if |s| >= 2 {
      var p := s[..|s| - 1];
      assert p[0] == s[0];
      LeadingNonZeroValue(p);
    }
  }

  lemma DivModTen(a: nat, d: nat)
    requires d < 10
    ensures (a * 10 + d) / 10 == a && (a * 10 + d) % 10 == d
  {
  }

  lemma {:induction false} NatToDecimalOfDigits(s: string)
    requires CanonicalNat(s)
    ensures NatToDecimal(DigitsValue(s, 10)) == s
  {
    if |s| >= 2 {
      var p := s[..|s| - 1];
      assert p[0] == s[0];
      LeadingNonZeroValue(s);
      NatToDecimalOfDigits(p);
      var n := DigitsValue(s, 10);
      var d := DigitValue(s[|s| - 1], 10);
      assert n == DigitsValue(p, 10) * 10 + d;
      DivModTen(DigitsValue(p, 10), d);
      calc {
        NatToDecimal(n);
        NatToDecimal(n / 10) + [DigitChar(n % 10)];
        p + [DigitChar(d)];
        { assert DigitChar(d) == s[|s| - 1]; }
        s;
      }
    }
  }

  lemma CanonicalHasNoWhiteSpaceEnds(s: string)
    requires Canonical(s)
    ensures Trim(s) == s
  {
    TrimNoop(s);
  }

  /** `n.toString()` is canonical and reads back as `n`. */
  lemma LiteralOfIntToDecimal(n: int)
    ensures ParseLiteral(IntToDecimal(n)) == Some(n)
    ensures Canonical(IntToDecimal(n))
  {
    var s := IntToDecimal(n);
    if n < 0 {
      DigitsOfNatToDecimal(-n);
      assert s[1..] == NatToDecimal(-n);
      NegativeLiteral(s);
    } else {
      DigitsOfNatToDecimal(n);
      UnsignedLiteral(s);
    }
  }

  /** `BigInt(n.toString()) == n` for every integer, however large. */
  lemma ParseOfToString(n: int)
    ensures ParseBigInt(IntToDecimal(n)) == Some(n)
    ensures Canonical(IntToDecimal(n))
  {
    LiteralOfIntToDecimal(n);
    CanonicalHasNoWhiteSpaceEnds(IntToDecimal(n));
    ParseOfTrimmed(IntToDecimal(n));
  }

  /** A canonical negative text is the minus sign before the text of its magnitude. */
  lemma NegativeText(s: string)
    requires |s| >= 2 && s[0] == '-' && s[1] != '0' && CanonicalNat(s[1..])
    ensures IntToDecimal(-(DigitsValue(s[1..], 10) as int)) == s
  {
    var d := s[1..];
    LeadingNonZeroValue(d);
    NatToDecimalOfDigits(d);
    assert s == "-" + d;
  }

  /** `BigInt(s).toString() == s` exactly when `s` is canonical. */
  lemma ToStringOfParse(s: string)
    ensures Canonical(s) ==> ParseBigInt(s).Some? && IntToDecimal(ParseBigInt(s).value) == s
    ensures ParseBigInt(s).Some? && IntToDecimal(ParseBigInt(s).value) == s ==> Canonical(s)
  {
    if Canonical(s) {
      CanonicalHasNoWhiteSpaceEnds(s);
      ParseOfTrimmed(s);
      if CanonicalNat(s) {
        UnsignedLiteral(s);
        NatToDecimalOfDigits(s);
      } else {
        NegativeLiteral(s);
        NegativeText(s);
      }
    }
    if ParseBigInt(s).Some? && IntToDecimal(ParseBigInt(s).value) == s {
      ParseOfToString(ParseBigInt(s).value);
    }
  }

  /** The empty text is accepted and becomes 0, which re-encodes as "0". */
  lemma EmptyTextIsZero()
    ensures ParseBigInt("") == Some(0) && IntToDecimal(0) == "0"
  {
  }
}

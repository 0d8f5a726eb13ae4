/** Python's `str()` of an integer and `int()` of a string, as the driver
    uses them to turn node ids into node names and back. */
module Decimal {
  import opened Wrappers
  import Strings

  predicate IsDigit(c: char)
  {
    '0' <= c <= '9'
  }

  predicate AllDigits(s: string)
  {
    forall i :: 0 <= i < |s| ==> IsDigit(s[i])
  }

  function DigitChar(d: int): (c: char)
    requires 0 <= d < 10
    ensures IsDigit(c) && c as int - '0' as int == d
  {
    (d + '0' as int) as char
  }

  /** The value of a string of decimal digits, most significant first. */
  function DigitsValue(s: string): nat
    requires AllDigits(s)
  {
    if s == [] then 0
    else DigitsValue(s[..|s| - 1]) * 10 + (s[|s| - 1] as int - '0' as int)
  }

  /** The decimal digits of `n`, without leading zeros (characterised by
      `NatToStringDigits`). */
  function NatToString(n: nat): (s: string)
    ensures s != []
  {
    if n < 10 then [DigitChar(n)] else NatToString(n / 10) + [DigitChar(n % 10)]
  }

  /** `str(n)` is made of digits only and has no leading zero. */
  lemma {:induction false} NatToStringDigits(n: nat)
    ensures AllDigits(NatToString(n))
    ensures |NatToString(n)| > 1 ==> NatToString(n)[0] != '0'
  {
    if n >= 10 {
      NatToStringDigits(n / 10);
      var s := NatToString(n);
      assert s == NatToString(n / 10) + [DigitChar(n % 10)];
      assert s[0] == NatToString(n / 10)[0];
      assert |NatToString(n / 10)| == 1 ==> NatToString(n / 10)[0] != '0';
    }
  }

  /** Python's `str(i)` for an integer `i`. */
  function IntToString(i: int): (s: string)
    ensures s != []
  {
    if i < 0 then "-" + NatToString(-i) else NatToString(i)
  }

  /** Python 2's `int(s)` on a decimal literal: surrounding whitespace, an
      optional sign, whitespace after the sign, and at least one digit.
      Anything else raises ValueError, modelled as None (characterised by
      `ParseIntAccepts`). */
  function ParseInt(s: string): Option<int>
  {
    var t := Strings.Strip(s);
    if t != [] && (t[0] == '-' || t[0] == '+') then
      var body := Strings.TrimLeft(t[1..]);
      if body != [] && AllDigits(body) then
        var magnitude: int := DigitsValue(body);
        Some(if t[0] == '-' then -magnitude else magnitude)
      else None
    else if t != [] && AllDigits(t) then Some(DigitsValue(t))
    else None
  }

  /** `int` accepts exactly a text that, once stripped, is one optional
      sign, then optional whitespace, then a non-empty run of digits, and
      nothing else. */
  lemma ParseIntAccepts(s: string)
    ensures ParseInt(s).Some? <==>
      exists sign, gap, digits :: LiteralParts(Strings.Strip(s), sign, gap, digits)
  {
    var t := Strings.Strip(s);
    if t != [] && (t[0] == '-' || t[0] == '+') {
      SignedAccepts(t);
    } else {
      UnsignedAccepts(t);
    }
  }

  /** The signed case of `ParseIntAccepts`. */
  lemma SignedAccepts(t: string)
    requires t != [] && (t[0] == '-' || t[0] == '+')
    ensures var body := Strings.TrimLeft(t[1..]);
      (body != [] && AllDigits(body)) <==> exists sign, gap, digits :: LiteralParts(t, sign, gap, digits)
  {
    var rest := t[1..];
    var body := Strings.TrimLeft(rest);
    Strings.TrimLeftShape(rest);
    var gap := rest[..|rest| - |body|];
    assert rest == gap + body;
    assert t == t[..1] + gap + body;
    if body != [] && AllDigits(body) {
      assert LiteralParts(t, t[..1], gap, body);
    }
    forall sign, gap', digits | LiteralParts(t, sign, gap', digits)
      ensures body != [] && AllDigits(body)
    {
      SignedParts(t, sign, gap', digits);
    }
  }

  /** The unsigned case of `ParseIntAccepts`. */
  lemma UnsignedAccepts(t: string)
    requires !(t != [] && (t[0] == '-' || t[0] == '+'))
    ensures (t != [] && AllDigits(t)) <==> exists sign, gap, digits :: LiteralParts(t, sign, gap, digits)
  {
    if t != [] && AllDigits(t) {
      assert LiteralParts(t, "", "", t);
    }
    forall sign, gap, digits | LiteralParts(t, sign, gap, digits)
      ensures t != [] && AllDigits(t)
    {
      UnsignedParts(t, sign, gap, digits);
    }
  }

  /** `t` is a sign (possibly none), whitespace only after a sign, and a
      non-empty run of digits. */
  predicate LiteralParts(t: string, sign: string, gap: string, digits: string)
  {
    && t == sign + gap + digits
    && (sign == "" || sign == "-" || sign == "+")
    && (sign == "" ==> gap == "")
    && (forall i :: 0 <= i < |gap| ==> Strings.IsSpace(gap[i]))
    && digits != [] && AllDigits(digits)
  }

  /** A signed literal's digits are what is left once the sign and the
      whitespace after it are dropped. */
  lemma SignedParts(t: string, sign: string, gap: string, digits: string)
    requires LiteralParts(t, sign, gap, digits)
    requires t != [] && (t[0] == '-' || t[0] == '+')
    ensures Strings.TrimLeft(t[1..]) == digits
  {
    assert t[1..] == gap + digits;
    GapDigits(t[1..], gap, digits);
  }

  /** An unsigned literal is all digits. */
  lemma UnsignedParts(t: string, sign: string, gap: string, digits: string)
    requires LiteralParts(t, sign, gap, digits)
    requires !(t != [] && (t[0] == '-' || t[0] == '+'))
    ensures t == digits
  {
  }

  /** Trimming whitespace followed by digits leaves exactly the digits. */
  lemma {:induction false} GapDigits(rest: string, gap: string, digits: string)
    requires rest == gap + digits
    requires forall i :: 0 <= i < |gap| ==> Strings.IsSpace(gap[i])
    requires digits != [] && AllDigits(digits)
    ensures Strings.TrimLeft(rest) == digits
    decreases |gap|
  {
    if gap == [] {
      assert rest == digits;
      assert !Strings.IsSpace(rest[0]) by { assert IsDigit(digits[0]); }
    } else {
      assert rest[1..] == gap[1..] + digits;
      GapDigits(rest[1..], gap[1..], digits);
    }
  }

  lemma {:induction false} NatToStringValue(n: nat)
    requires AllDigits(NatToString(n))
    ensures DigitsValue(NatToString(n)) == n
  {
    if n >= 10 {
      NatToStringDigits(n / 10);
      var s := NatToString(n);
      NatToStringValue(n / 10);
      assert s[..|s| - 1] == NatToString(n / 10);
    }
  }

  /** `int(str(i)) == i` for every integer. */
  lemma ParseIntToString(i: int)
    ensures ParseInt(IntToString(i)) == Some(i)
  {
    var s := IntToString(i);
    var digits := NatToString(if i < 0 then -i else i);
    NatToStringDigits(if i < 0 then -i else i);
    NatToStringValue(if i < 0 then -i else i);
    assert IsDigit(s[|s| - 1]);
    assert !Strings.IsSpace(s[0]) by {
      if i >= 0 { assert IsDigit(s[0]); }
    }
    Strings.StripUnchanged(s);
    if i < 0 {
      assert s[1..] == digits;
      assert !Strings.IsSpace(digits[0]) by { assert IsDigit(digits[0]); }
      assert Strings.TrimLeft(s[1..]) == digits;
    } else {
      assert IsDigit(s[0]);
    }
  }

  /** Different integers have different decimal names. */
  lemma IntToStringInjective(a: int, b: int)
    requires IntToString(a) == IntToString(b)
    ensures a == b
  {
    ParseIntToString(a);
    ParseIntToString(b);
  }
}

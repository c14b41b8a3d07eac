/** Decimal conversions between Python integers and strings: `str(n)` and `int(s)`.
    Both are built-ins of the host language; the actors use them when they substitute a
    value into an expression, build an error message, or read a 1-based class index. */
module Numbers {
  import opened Wrappers

  predicate IsDigit(c: char) { '0' <= c <= '9' }

  function DigitChar(d: nat): (c: char)
    requires d < 10
    ensures IsDigit(c)
    ensures d > 0 ==> c != '0'
  {
    ('0' as int + d) as char
  }

  function DigitValue(c: char): (d: nat)
    requires IsDigit(c)
    ensures d < 10
  {
    (c as int - '0' as int) as nat
  }

  lemma DigitRoundTrip(d: nat)
    requires d < 10
    ensures DigitValue(DigitChar(d)) == d
  {
  }

  predicate AllDigits(s: string) { forall i :: 0 <= i < |s| ==> IsDigit(s[i]) }

  /** Decimal text of a natural number, most significant digit first, no leading zeros. */
  function NatToString(n: nat): (s: string)
    ensures |s| > 0 && AllDigits(s)
    ensures n > 0 ==> s[0] != '0'
    ensures |s| > 1 ==> s[0] != '0'
    decreases n
  {
    if n < 10 then [DigitChar(n)] else NatToString(n / 10) + [DigitChar(n % 10)]
  }

  /** Python's `str(i)` for an int: an optional minus sign and the decimal digits. */
  function IntToString(i: int): (s: string)
    ensures |s| > 0
    ensures i >= 0 ==> AllDigits(s)
    ensures i < 0 ==> s[0] == '-' && AllDigits(s[1..])
  {
    if i < 0 then "-" + NatToString(-i) else NatToString(i)
  }

  /** Value of a string of decimal digits. */
  function DigitsValue(s: string): nat
    requires AllDigits(s)
    decreases |s|
  {
    if s == [] then 0 else DigitsValue(s[..|s| - 1]) * 10 + DigitValue(s[|s| - 1])
  }

  /** The characters Python's `int()` strips from both ends of its argument. */
  predicate IsSpace(c: char) { c == ' ' || c == '\t' || c == '\n' || c == '\r' || c == 11 as char || c == 12 as char }

  function StripLeft(s: string): string
    decreases |s|
  {
    if s != [] && IsSpace(s[0]) then StripLeft(s[1..]) else s
  }

  function StripRight(s: string): string
    decreases |s|
  {
    if s != [] && IsSpace(s[|s| - 1]) then StripRight(s[..|s| - 1]) else s
  }

  function Strip(s: string): string { StripRight(StripLeft(s)) }

  /** White space only. */
  predicate AllSpace(w: string) { forall i :: 0 <= i < |w| ==> IsSpace(w[i]) }

  /** `StripLeft(x)` is what follows a run of white space at the front of x. */
  lemma {:induction false} StripLeftShape(x: string)
    ensures |StripLeft(x)| <= |x| && StripLeft(x) == x[|x| - |StripLeft(x)|..]
    ensures forall i :: 0 <= i < |x| - |StripLeft(x)| ==> IsSpace(x[i])
    decreases |x|
  {
    if x != [] && IsSpace(x[0]) {
      StripLeftShape(x[1..]);
      assert x[1..][|x[1..]| - |StripLeft(x[1..])|..] == x[|x| - |StripLeft(x)|..];
      forall i | 0 <= i < |x| - |StripLeft(x)|
        ensures IsSpace(x[i])
      {
        if i > 0 {
          assert x[i] == x[1..][i - 1];
        }
      }
    }
  }

  /** White space in front of a text that does not start with white space is stripped. */
  lemma {:induction false} StripLeftSpaces(w: string, x: string)
    requires AllSpace(w) && (x == [] || !IsSpace(x[0]))
    ensures StripLeft(w + x) == x
    decreases |w|
  {
    if w == [] {
      assert w + x == x;
    } else {
      assert (w + x)[1..] == w[1..] + x;
      StripLeftSpaces(w[1..], x);
    }
  }

  /** White space after a text that does not end with white space is stripped. */
  lemma {:induction false} StripRightSpaces(x: string, w: string)
    requires AllSpace(w) && (x == [] || !IsSpace(x[|x| - 1]))
    ensures StripRight(x + w) == x
    decreases |w|
  {
    if w == [] {
      assert x + w == x;
    } else {
      assert (x + w)[..|x + w| - 1] == x + w[..|w| - 1];
      StripRightSpaces(x, w[..|w| - 1]);
    }
  }

  /** The shape of a signed text whose digits follow the sign after optional white space. */
  lemma SignedTextShape(t: string)
    requires t != [] && (t[0] == '-' || t[0] == '+')
    requires StripLeft(t[1..]) != [] && AllDigits(StripLeft(t[1..]))
    ensures IsDigit(t[|t| - 1])
    ensures forall i :: 0 < i < |t| ==> IsDigit(t[i]) || IsSpace(t[i])
  {
    var x := t[1..];
    var d := StripLeft(x);
    var gap := LeadingSpace(x);
    assert t[|t| - 1] == d[|d| - 1];
    forall i | 0 < i < |t|
      ensures IsDigit(t[i]) || IsSpace(t[i])
    {
      assert t[i] == (gap + d)[i - 1];
    }
  }

  /** Python 2's `int(s)` for a string in base 10: surrounding white space is ignored, then
      an optional sign, white space after the sign, and at least one digit. `None` stands
      for the ValueError it raises on anything else. An accepted text (once stripped) ends
      in a digit, starts with a digit or a sign, holds nothing but digits and white space
      after its first character, and gives a negative number only after a minus. */
  function ParseInt(s: string): (r: Option<int>)
    ensures r.Some? ==> |Strip(s)| > 0
    ensures r.Some? ==>
      var t := Strip(s);
      && IsDigit(t[|t| - 1]) && (IsDigit(t[0]) || t[0] == '-' || t[0] == '+')
      && (forall i :: 0 < i < |t| ==> IsDigit(t[i]) || IsSpace(t[i]))
      && (r.value < 0 ==> t[0] == '-')
  {
    var t := Strip(s);
    if t != [] && (t[0] == '-' || t[0] == '+') then
      var d := StripLeft(t[1..]);
      if d != [] && AllDigits(d) then
        SignedTextShape(t);
        Some(if t[0] == '-' then 0 - DigitsValue(d) as int else DigitsValue(d) as int)
      else None
    else if t != [] && AllDigits(t) then Some(DigitsValue(t))
    else None
  }

  lemma {:induction false} DigitsOfNat(n: nat)
    ensures DigitsValue(NatToString(n)) == n
    decreases n
  {
    var s := NatToString(n);
    if n < 10 {
      assert s[..|s| - 1] == [];
      DigitRoundTrip(n);
    } else {
      DigitsOfNat(n / 10);
      assert s[..|s| - 1] == NatToString(n / 10);
      DigitRoundTrip(n % 10);
    }
  }

  /** White space around a text that neither starts nor ends with white space is stripped. */
  lemma StripAround(lead: string, core: string, trail: string)
    requires AllSpace(lead) && AllSpace(trail)
    requires core != [] && !IsSpace(core[0]) && !IsSpace(core[|core| - 1])
    ensures Strip(lead + core + trail) == core
  {
    assert lead + core + trail == lead + (core + trail);
    assert (core + trail)[0] == core[0];
    StripLeftSpaces(lead, core + trail);
    StripRightSpaces(core, trail);
  }

  /** Unsigned digits between white space are read as their value. */
  lemma ParseIntOfUnsigned(lead: string, digits: string, trail: string)
    requires AllSpace(lead) && AllSpace(trail)
    requires digits != [] && AllDigits(digits)
    ensures ParseInt(lead + digits + trail) == Some(DigitsValue(digits) as int)
  {
    StripAround(lead, digits, trail);
    assert IsDigit(digits[0]);
  }

  /** A sign, white space and digits between white space are read as the digits' value,
      negated after a minus. */
  lemma ParseIntOfSigned(lead: string, sign: string, gap: string, digits: string, trail: string)
    requires AllSpace(lead) && AllSpace(gap) && AllSpace(trail)
    requires sign == "+" || sign == "-"
    requires digits != [] && AllDigits(digits)
    ensures ParseInt(lead + (sign + gap + digits) + trail)
            == Some(if sign == "-" then 0 - DigitsValue(digits) as int else DigitsValue(digits) as int)
  {
    var core := sign + gap + digits;
    assert core[0] == sign[0];
    assert core[|core| - 1] == digits[|digits| - 1];
    StripAround(lead, core, trail);
    assert core[1..] == gap + digits;
    StripLeftSpaces(gap, digits);
  }

  /** Every text made of white space, an optional sign, white space after a sign, digits and
      white space is read as the value of its digits, negated after a minus. */
  lemma ParseIntOfLiteral(lead: string, sign: string, gap: string, digits: string, trail: string)
    requires AllSpace(lead) && AllSpace(gap) && AllSpace(trail)
    requires sign == "" || sign == "+" || sign == "-"
    requires sign == "" ==> gap == ""
    requires digits != [] && AllDigits(digits)
    ensures ParseInt(lead + sign + gap + digits + trail)
            == Some(if sign == "-" then 0 - DigitsValue(digits) as int else DigitsValue(digits) as int)
  {
    if sign == "" {
      assert lead + sign + gap + digits + trail == lead + digits + trail;
      ParseIntOfUnsigned(lead, digits, trail);
    } else {
      assert lead + sign + gap + digits + trail == lead + (sign + gap + digits) + trail;
      ParseIntOfSigned(lead, sign, gap, digits, trail);
    }
  }

  /** `StripRight(x)` is what precedes a run of white space at the end of x. */
  lemma {:induction false} StripRightShape(x: string)
    ensures |StripRight(x)| <= |x| && StripRight(x) == x[..|StripRight(x)|]
    ensures forall i :: |StripRight(x)| <= i < |x| ==> IsSpace(x[i])
    decreases |x|
  {
    if x != [] && IsSpace(x[|x| - 1]) {
      var y := x[..|x| - 1];
      StripRightShape(y);
      assert y[..|StripRight(y)|] == x[..|StripRight(x)|];
      forall i | |StripRight(x)| <= i < |x|
        ensures IsSpace(x[i])
      {
        if i < |x| - 1 {
          assert x[i] == y[i];
        }
      }
    }
  }

  /** `text` is white space, an optional sign, white space after a sign, digits and white
      space, in that order. */
  predicate Literal(text: string, lead: string, sign: string, gap: string, digits: string, trail: string)
  {
    && AllSpace(lead) && AllSpace(gap) && AllSpace(trail)
    && (sign == "" || sign == "+" || sign == "-")
    && (sign == "" ==> gap == "")
    && digits != [] && AllDigits(digits)
    && text == lead + sign + gap + digits + trail
  }

  /** The value of a literal with the given sign and digits. */
  function Signed(sign: string, digits: string): int
    requires AllDigits(digits)
  {
    if sign == "-" then 0 - DigitsValue(digits) as int else DigitsValue(digits) as int
  }

  /** The text around its stripped core is white space on both sides. */
  lemma StripSplits(s: string) returns (lead: string, trail: string)
    ensures AllSpace(lead) && AllSpace(trail) && s == lead + Strip(s) + trail
  {
    var l := StripLeft(s);
    StripLeftShape(s);
    StripRightShape(l);
    var core := Strip(s);
    lead, trail := s[..|s| - |l|], l[|core|..];
    assert l == core + trail;
    assert s == lead + l;
    forall i | 0 <= i < |trail| ensures IsSpace(trail[i]) {
      assert trail[i] == l[|core| + i];
    }
    assert lead + (core + trail) == lead + core + trail;
  }

  /** What an accepted text is once stripped: signed digits after optional white space, or
      plain digits. */
  lemma AcceptedCore(s: string)
    requires ParseInt(s).Some?
    ensures Strip(s) != []
    ensures Strip(s)[0] == '-' || Strip(s)[0] == '+' ==>
      StripLeft(Strip(s)[1..]) != [] && AllDigits(StripLeft(Strip(s)[1..]))
    ensures !(Strip(s)[0] == '-' || Strip(s)[0] == '+') ==> AllDigits(Strip(s))
  {
  }

  /** A text is the white space `StripLeft` removes, then what it keeps. */
  lemma LeadingSpace(x: string) returns (gap: string)
    ensures AllSpace(gap) && x == gap + StripLeft(x)
  {
    var d := StripLeft(x);
    StripLeftShape(x);
    gap := x[..|x| - |d|];
    forall i | 0 <= i < |gap| ensures IsSpace(gap[i]) {
      assert gap[i] == x[i];
    }
  }

  /** An accepted text whose core starts with a sign is a signed literal. */
  lemma SignedWitness(s: string, lead: string, trail: string) returns (sign: string, gap: string, digits: string)
    requires AllSpace(lead) && AllSpace(trail) && s == lead + Strip(s) + trail
    requires Strip(s) != [] && (Strip(s)[0] == '-' || Strip(s)[0] == '+')
    requires StripLeft(Strip(s)[1..]) != [] && AllDigits(StripLeft(Strip(s)[1..]))
    ensures Literal(s, lead, sign, gap, digits, trail) && ParseInt(s) == Some(Signed(sign, digits))
  {
    var t := Strip(s);
    gap := LeadingSpace(t[1..]);
    sign, digits := t[..1], StripLeft(t[1..]);
    assert sign == "-" || sign == "+";
    assert t == sign + t[1..];
    assert t == sign + gap + digits;
    ParseIntOfSigned(lead, sign, gap, digits, trail);
    assert s == lead + sign + gap + digits + trail;
  }

  /** An accepted text whose core is plain digits is an unsigned literal. */
  lemma UnsignedWitness(s: string, lead: string, trail: string)
    requires AllSpace(lead) && AllSpace(trail) && s == lead + Strip(s) + trail
    requires Strip(s) != [] && AllDigits(Strip(s))
    ensures Literal(s, lead, "", "", Strip(s), trail) && ParseInt(s) == Some(Signed("", Strip(s)))
  {
    ParseIntOfUnsigned(lead, Strip(s), trail);
    assert s == lead + "" + "" + Strip(s) + trail;
  }

  /** Conversely, `int()` accepts nothing but such literals: whatever it reads is a literal,
      and its value is the signed value of the literal's digits. */
  lemma ParseIntOnlyLiterals(s: string)
    requires ParseInt(s).Some?
    ensures exists lead, sign, gap, digits, trail ::
      Literal(s, lead, sign, gap, digits, trail) && ParseInt(s) == Some(Signed(sign, digits))
  {
    var lead, trail := StripSplits(s);
    AcceptedCore(s);
    if Strip(s)[0] == '-' || Strip(s)[0] == '+' {
      var sign, gap, digits := SignedWitness(s, lead, trail);
    } else {
      UnsignedWitness(s, lead, trail);
    }
  }

  /** `int(str(i)) == i`: reading back the text of an integer gives the integer. */
  lemma {:induction false} ParseIntOfIntToString(i: int)
    ensures ParseInt(IntToString(i)) == Some(i)
  {
    if i < 0 {
      ParseIntOfNegative(i);
    } else {
      ParseIntOfNatToString(i);
    }
  }

  /** `int(str(n)) == n` for a natural number n. */
  lemma ParseIntOfNatToString(n: nat)
    ensures ParseInt(NatToString(n)) == Some(n)
  {
    DigitsOfNat(n);
    StripOfDigits(NatToString(n));
  }

  /** `int(str(i)) == i` for a negative i, whose text is a minus and the digits of -i. */
  lemma ParseIntOfNegative(i: int)
    requires i < 0
    ensures ParseInt(IntToString(i)) == Some(i)
  {
    var d := NatToString(-i);
    DigitsOfNat(-i);
    assert IntToString(i) == "-" + d;
    ParseIntOfMinusDigits(IntToString(i), d);
  }

  /** A minus followed by digits is read as the negated value of the digits. */
  lemma ParseIntOfMinusDigits(s: string, d: string)
    requires d != [] && AllDigits(d) && s == "-" + d
    ensures ParseInt(s) == Some(0 - DigitsValue(d) as int)
  {
    StripOfNegated(d);
  }

  /** A minus followed by digits is left as it is by `Strip`, and the digits follow the sign. */
  lemma StripOfNegated(d: string)
    requires d != [] && AllDigits(d)
    ensures Strip("-" + d) == "-" + d && ("-" + d)[1..] == d && StripLeft(d) == d
  {
    var s := "-" + d;
    assert s[1..] == d && s[|s| - 1] == d[|d| - 1];
    assert IsDigit(d[0]);
  }

  /** Digits are left as they are by `StripLeft` and `Strip`. */
  lemma StripOfDigits(d: string)
    requires d != [] && AllDigits(d)
    ensures StripLeft(d) == d && Strip(d) == d
  {
    assert IsDigit(d[0]) && IsDigit(d[|d| - 1]);
  }

  /** No integer's text is a word such as "first" or "last". */
  lemma IntToStringStartsWithSignOrDigit(i: int)
    ensures IntToString(i)[0] == '-' || IsDigit(IntToString(i)[0])
  {
  }
}

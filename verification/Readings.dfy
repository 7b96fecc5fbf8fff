/** What `atoi` and `atof` make of a text, in the text's own terms, and so what is stored for it. */
module Readings {
  import opened CText
  import opened Decimal
  import opened Json
  import opened CjsonHandler

  predicate IsBlank(c: char) { c in {' ', '\t', '\n', '\r'} || c as int in {11, 12} }

  predicate Blanks(s: string) { forall i :: 0 <= i < |s| ==> IsBlank(s[i]) }

  predicate IsSign(s: string) { s in {"", "-", "+"} }

  /** The integer that a sign and a magnitude stand for. */
  function WithMinus(sign: string, n: int): int { if sign == "-" then -n else n }

  lemma {:induction false} BlanksSkipped(blanks: string, t: string)
    requires Blanks(blanks) && (t == [] || !IsBlank(t[0]))
    ensures SkipSpace(blanks + t) == t
  {
    if blanks == [] {
      assert blanks + t == t;
    } else {
      assert IsBlank(blanks[0]) && (blanks + t)[1..] == blanks[1..] + t;
      BlanksSkipped(blanks[1..], t);
    }
  }

  lemma {:induction false} RunIsDigits(d: string, rest: string)
    requires AllDigits(d) && NoDigitFirst(rest)
    ensures LeadingNat(d + rest) == NatOf(d)
  {
    RunOf(d, rest);
  }

  /** `atoi`: blanks, a sign, digits, and anything that is no digit after them. */
  lemma {:induction false} AtoiReads(blanks: string, sign: string, d: string, rest: string)
    requires Blanks(blanks) && IsSign(sign) && AllDigits(d) && NoDigitFirst(rest)
    requires d == [] && sign == "" && rest != [] ==> !IsBlank(rest[0]) && rest[0] !in {'-', '+'}
    ensures Atoi(blanks + (sign + (d + rest))) == WithMinus(sign, NatOf(d))
  {
    var t := sign + (d + rest);
    BlanksSkipped(blanks, t);
    RunIsDigits(d, rest);
    if sign == "" { assert t == d + rest; } else { assert t[1..] == d + rest; }
  }

  /** The value of a run of digits is the sum of its digits by place. */
  lemma {:induction false} NatOfFirst(c: char, s: string)
    requires IsDigit(c) && AllDigits(s)
    ensures NatOf([c] + s) == (c as int - '0' as int) * Pow10(|s|) + NatOf(s)
    decreases |s|
  {
    if s == [] {
      assert NatOf([]) == 0 && [c][..0] == [];
      assert [c] + s == [c] && Pow10(0) == 1;
    } else {
      var n := |s| - 1;
      var digit := c as int - '0' as int;
      NatOfFirst(c, s[..n]);
      assert ([c] + s)[..|s|] == [c] + s[..n];
      TimesTen(digit, n);
    }
  }

  lemma {:induction false} TimesTen(m: int, k: nat)
    ensures m * Pow10(k + 1) == 10 * (m * Pow10(k))
  {
  }

  // ----- what a decimal stands for --------------------------------------------------------

  /** The decimal is m * 10^x. */
  predicate Equals(d: Decimal, m: int, x: int) {
    if x >= 0 then d == Dec(m * Pow10(x), 0)
    else d.e <= -x && d.m * Pow10(-x - d.e) == m
  }

  lemma {:induction false} ShiftedIs(m: int, k: nat)
    ensures Shifted(m, k) == m * Pow10(k)
  {
    if k > 0 {
      ShiftedIs(m, k - 1);
      TimesTen(m, k - 1);
    }
  }

  lemma {:induction false} ReduceIs(m: int, e: nat)
    ensures Reduce(m, e).e <= e && Reduce(m, e).m * Pow10(e - Reduce(m, e).e) == m
    decreases e
  {
    var d := Reduce(m, e);
    if e > 0 && m % 10 == 0 {
      ReduceIs(m / 10, e - 1);
      TimesTen(d.m, e - 1 - d.e);
    } else {
      assert Pow10(0) == 1;
    }
  }

  lemma {:induction false} ScaleIs(m: int, x: int)
    ensures Equals(Scale(m, x), m, x)
  {
    if x >= 0 { ShiftedIs(m, x); } else { ReduceIs(m, -x); }
  }

  // ----- decimal texts --------------------------------------------------------------------

  lemma {:induction false} ExponentReads(e: char, letters: string, sign: string, g: string, rest: string)
    requires e in letters && IsSign(sign) && AllDigits(g) && g != [] && NoDigitFirst(rest)
    ensures Exponent([e] + (sign + (g + rest)), letters) == (WithMinus(sign, NatOf(g)), 1 + |sign| + |g|)
  {
    var u := [e] + (sign + (g + rest));
    RunOf(g, rest);
    if sign == "" {
      assert u[1..] == g + rest;
    } else {
      assert u[1] == sign[0] && u[2..] == g + rest;
    }
  }

  /** The exponent part of a number: a letter, a sign, digits. */
  predicate IsExponent(e: char, sign: string, g: string) {
    e in {'e', 'E'} && IsSign(sign) && AllDigits(g) && g != []
  }

  lemma {:induction false} DecimalReads(t: string, u: string, a: string, b: string, tail: string)
    requires t == a + u && u == "." + (b + tail)
    requires AllDigits(a) && a != [] && AllDigits(b) && NoDigitFirst(tail)
    ensures DecimalNumber(t) == Assembled(a, b, tail, |a| + 1 + |b|)
  {
    DecimalParts(t, u, a, b, tail);
  }

  lemma {:induction false} HeadIsDecimal(t: string)
    requires t != [] && IsDigit(t[0]) && (|t| > 1 ==> t[1] !in {'x', 'X'})
    ensures Magnitude(t) == DecimalNumber(t)
  {
    if |t| >= 3 { assert t[..3][0] == t[0]; }
    assert !HasName(t);
  }

  /** A number and what follows it: digits, a point, digits, and then an exponent or not. */
  function Written(a: string, b: string, tail: string): string { a + ("." + (b + tail)) }

  lemma {:induction false} MagnitudeReads(a: string, b: string, tail: string)
    requires AllDigits(a) && a != [] && AllDigits(b) && NoDigitFirst(tail)
    ensures var r := Magnitude(Written(a, b, tail));
            r.value == Finite(Scale(NatOf(a + b), Exponent(tail, "eE").0 - |b|)) && r.len > 0
  {
    DecimalReads(Written(a, b, tail), "." + (b + tail), a, b, tail);
    WrittenStarts(a, b, tail);
    HeadIsDecimal(Written(a, b, tail));
  }

  lemma {:induction false} SignedHead(magnitude: string -> Scan, sign: string, t: string, d: Decimal)
    requires IsSign(sign) && t != [] && IsDigit(t[0]) && magnitude(t).value == Finite(d) && magnitude(t).len > 0
    ensures SignedBy(magnitude, sign + t).value == Finite(if sign == "-" then Opposite(d) else d)
    ensures SignedBy(magnitude, sign + t).len == |sign| + magnitude(t).len
    ensures sign + t != [] && !IsBlank((sign + t)[0])
  {
    if sign == "" { assert sign + t == t; } else { assert (sign + t)[1..] == t; }
  }

  lemma {:induction false} SignedReads(blanks: string, sign: string, t: string, d: Decimal)
    requires Blanks(blanks) && IsSign(sign) && t != [] && IsDigit(t[0])
    requires Magnitude(t).value == Finite(d) && Magnitude(t).len > 0
    ensures Atof(blanks + (sign + t)) == Finite(if sign == "-" then Opposite(d) else d)
  {
    SignedHead(Magnitude, sign, t, d);
    BlanksSkipped(blanks, sign + t);
  }

  /** The decimal with this sign. */
  function SignedDecimal(sign: string, d: Decimal): Decimal { if sign == "-" then Opposite(d) else d }

  lemma {:induction false} WrittenScans(blanks: string, sign: string, a: string, b: string, tail: string)
    requires Blanks(blanks) && IsSign(sign) && AllDigits(a) && a != [] && AllDigits(b) && NoDigitFirst(tail)
    ensures Atof(blanks + (sign + Written(a, b, tail)))
         == Finite(SignedDecimal(sign, Scale(NatOf(a + b), Exponent(tail, "eE").0 - |b|)))
  {
    MagnitudeReads(a, b, tail);
    WrittenStarts(a, b, tail);
    SignedReads(blanks, sign, Written(a, b, tail), Scale(NatOf(a + b), Exponent(tail, "eE").0 - |b|));
  }

  /** The number read is the one written. */
  lemma {:induction false} WrittenReads(text: string, blanks: string, sign: string, a: string, b: string, tail: string, x: int)
    requires Blanks(blanks) && IsSign(sign) && AllDigits(a) && a != [] && AllDigits(b) && NoDigitFirst(tail)
    requires text == blanks + (sign + Written(a, b, tail)) && x == Exponent(tail, "eE").0 - |b|
    ensures Atof(text).Finite? && Equals(Atof(text).d, WithMinus(sign, NatOf(a + b)), x)
  {
    WrittenScans(blanks, sign, a, b, tail);
    SignedScale(sign, NatOf(a + b), x);
  }

  lemma {:induction false} SignedScale(sign: string, m: int, x: int)
    ensures Equals(SignedDecimal(sign, Scale(m, x)), WithMinus(sign, m), x)
  {
    ScaleIs(m, x);
    if sign == "-" { EqualsOpposite(Scale(m, x), m, x); }
  }

  lemma {:induction false} WrittenStarts(a: string, b: string, tail: string)
    requires AllDigits(a) && a != []
    ensures var t := Written(a, b, tail); t != [] && IsDigit(t[0]) && |t| > 1 && t[1] !in {'x', 'X'}
  {
    var t := Written(a, b, tail);
    assert t[0] == a[0];
    assert t[1] == if |a| > 1 then a[1] else '.';
  }

  /** `atof` of blanks, a sign, digits with a point and an exponent, whatever follows: the number that
      is written there. */
  lemma {:induction false} AtofReads(blanks: string, sign: string, a: string, b: string,
                                     e: char, xsign: string, g: string, rest: string, tail: string)
    requires Blanks(blanks) && IsSign(sign) && AllDigits(a) && a != [] && AllDigits(b)
    requires IsExponent(e, xsign, g) && NoDigitFirst(rest) && tail == [e] + (xsign + (g + rest))
    ensures var v := Atof(blanks + (sign + Written(a, b, tail)));
            v.Finite? && Equals(v.d, WithMinus(sign, NatOf(a + b)), WithMinus(xsign, NatOf(g)) - |b|)
  {
    ExponentReads(e, "eE", xsign, g, rest);
    WrittenReads(blanks + (sign + Written(a, b, tail)), blanks, sign, a, b, tail, WithMinus(xsign, NatOf(g)) - |b|);
  }

  lemma {:induction false} EqualsOpposite(d: Decimal, m: int, x: int)
    requires Equals(d, m, x)
    ensures Equals(Opposite(d), -m, x)
  {
    if x >= 0 {
      assert (-m) * Pow10(x) == -(m * Pow10(x));
    } else {
      assert (-d.m) * Pow10(-x - d.e) == -(d.m * Pow10(-x - d.e));
    }
  }

  /** Digits without a point or an exponent, whatever else follows. */
  lemma {:induction false} IntegerReads(blanks: string, sign: string, a: string, rest: string)
    requires Blanks(blanks) && IsSign(sign) && AllDigits(a) && a != [] && IntegerEnds(a, rest)
    ensures Atof(blanks + (sign + (a + rest))) == Finite(Int(WithMinus(sign, NatOf(a))))
  {
    var t := a + rest;
    IntegerParts(a, rest);
    IntegerHead(a, rest);
    assert a + [] == a;
    assert DecimalNumber(t) == Assembled(a, [], rest, |a|);
    SignedReads(blanks, sign, t, Int(NatOf(a)));
  }

  /** No digit, point or exponent goes on with the number, and no x after a zero. */
  predicate IntegerEnds(a: string, rest: string) {
    rest == [] || (!IsDigit(rest[0]) && rest[0] !in {'.', 'e', 'E'} && (a == "0" ==> rest[0] !in {'x', 'X'}))
  }

  lemma {:induction false} IntegerHead(a: string, rest: string)
    requires AllDigits(a) && a != [] && IntegerEnds(a, rest)
    ensures Magnitude(a + rest) == DecimalNumber(a + rest) && IsDigit((a + rest)[0])
  {
    var t := a + rest;
    assert t[0] == a[0];
    assert |t| > 1 ==> t[1] == if |a| > 1 then a[1] else rest[0];
    if |a| == 1 && a[0] == '0' { assert a == "0"; }
    if |t| >= 3 { assert t[..3][0] == t[0]; }
    assert !HasName(t) && !HasHexPrefix(t);
  }

  /** Without a letter for it, or without a digit after it, there is no exponent. */
  lemma {:induction false} NoExponent(u: string, letters: string)
    requires || u == [] || u[0] !in letters
             || (NoDigitFirst(u[1..]) && (|u| > 1 && u[1] in ['+', '-'] ==> NoDigitFirst(u[2..])))
    ensures Exponent(u, letters) == (0, 0)
  {
  }

  // ----- the other forms ------------------------------------------------------------------

  /** The words that stand for numbers that are not finite, in any case. */
  predicate NamesNumber(t: string) {
    |t| >= 3 && ((t[0] in {'i', 'I'} && t[1] in {'n', 'N'} && t[2] in {'f', 'F'})
                 || (t[0] in {'n', 'N'} && t[1] in {'a', 'A'} && t[2] in {'n', 'N'}))
  }

  lemma {:induction false} NamesAre(t: string)
    ensures HasName(t) <==> NamesNumber(t)
  {
    if |t| >= 3 {
      var u := t[..3];
      assert u[0] == t[0] && u[1] == t[1] && u[2] == t[2];
      LowerIs(t[0]);
      LowerIs(t[1]);
      LowerIs(t[2]);
      assert Lower('i') == 'i' && Lower('n') == 'n' && Lower('f') == 'f' && Lower('a') == 'a';
      assert EqFold(u, "inf") <==> Lower(t[0]) == 'i' && Lower(t[1]) == 'n' && Lower(t[2]) == 'f';
      assert EqFold(u, "nan") <==> Lower(t[0]) == 'n' && Lower(t[1]) == 'a' && Lower(t[2]) == 'n';
    }
  }

  /** A letter in lower case comes from itself or from its capital. */
  lemma {:induction false} LowerIs(c: char)
    ensures Lower(c) == 'i' <==> c in {'i', 'I'}
    ensures Lower(c) == 'n' <==> c in {'n', 'N'}
    ensures Lower(c) == 'f' <==> c in {'f', 'F'}
    ensures Lower(c) == 'a' <==> c in {'a', 'A'}
  {
  }

  /** A hexadecimal integer. */
  lemma {:induction false} HexReads(h: string)
    requires AllHex(h) && h != []
    ensures Magnitude("0x" + h).value == Finite(Int(HexOf(h)))
  {
    var t := "0x" + h;
    HexRunOf(h);
    assert t[2..] == h && h[..|h|] == h && h[|h|..] == [];
    assert t[0] == '0' && t[1] == 'x' && t[2] == h[0];
    if |t| >= 3 { assert t[..3][0] == '0'; }
    assert !HasName(t);
    assert h[..|h|] + [] == h;
    assert HexNumber(h).value == Finite(ScaleBinary(HexOf(h), 0));
  }

  lemma {:induction false} HexRunOf(h: string)
    requires AllHex(h)
    ensures HexRun(h) == |h|
  {
    if h != [] { HexRunOf(h[1..]); }
  }

  lemma {:induction false} HexRunStops(h: string, rest: string)
    requires AllHex(h) && (rest == [] || !IsHex(rest[0]))
    ensures HexRun(h + rest) == |h| && (h + rest)[..|h|] == h && (h + rest)[|h|..] == rest
  {
    if h == [] {
      assert h + rest == rest;
    } else {
      assert (h + rest)[1..] == h[1..] + rest;
      HexRunStops(h[1..], rest);
    }
  }

  lemma {:induction false} HexParts(h: string, u: string, a: string, b: string, tail: string)
    requires h == a + u && u == "." + (b + tail)
    requires AllHex(a) && a != [] && AllHex(b) && (tail == [] || !IsHex(tail[0]))
    ensures HexNumber(h) == AssembledHex(a, b, tail, |a| + 1 + |b|)
  {
    HexRunStops(a, u);
    assert u[1..] == b + tail;
    HexRunStops(b, tail);
    assert h[|a| + 1 + |b|..] == tail;
  }

  lemma {:induction false} HexHead(t: string, h: string)
    requires t == "0x" + h && h != [] && IsHex(h[0])
    ensures Magnitude(t).value == HexNumber(h).value
  {
    assert t[2..] == h && t[0] == '0' && t[1] == 'x' && t[2] == h[0];
    assert t[..3][0] == '0';
    assert !HasName(t);
  }

  /** A hexadecimal number with a point: each digit after it counts for four binary places, and the
      exponent after p for one each. */
  lemma {:induction false} HexFractionReads(a: string, b: string, tail: string)
    requires AllHex(a) && a != [] && AllHex(b) && (tail == [] || !IsHex(tail[0]))
    ensures Magnitude("0x" + (a + ("." + (b + tail)))).value
         == Finite(ScaleBinary(HexOf(a + b), Exponent(tail, "pP").0 - 4 * |b|))
  {
    HexParts(a + ("." + (b + tail)), "." + (b + tail), a, b, tail);
    HexHead("0x" + (a + ("." + (b + tail))), a + ("." + (b + tail)));
  }

  lemma {:induction false} PowerOfTwo(k: nat)
    ensures Power(2, k) * Power(5, k) == Pow10(k)
  {
    if k > 0 {
      PowerOfTwo(k - 1);
      assert Power(2, k) * Power(5, k) == 10 * (Power(2, k - 1) * Power(5, k - 1));
    }
  }

  /** m * 2^x as an exact decimal: m * 2^x itself, or m / 2^-x. */
  lemma {:induction false} ScaleBinaryIs(m: int, x: int)
    ensures x >= 0 ==> ScaleBinary(m, x) == Int(m * Power(2, x))
    ensures x < 0 ==> Equals(ScaleBinary(m, x), m * Power(5, -x), x) && Power(2, -x) * Power(5, -x) == Pow10(-x)
  {
    if x < 0 {
      ReduceIs(m * Power(5, -x), -x);
      PowerOfTwo(-x);
    }
  }

  /** 0x without a hexadecimal digit after it is just the zero. */
  lemma {:induction false} NoHexReads(x: char, rest: string)
    requires x in {'x', 'X'} && (rest == [] || !IsHex(rest[0]))
    requires |rest| > 1 && rest[0] == '.' ==> !IsHex(rest[1])
    ensures Magnitude("0" + ([x] + rest)).value == Finite(Int(0))
  {
    var t, u := "0" + ([x] + rest), [x] + rest;
    IntegerParts("0", u);
    assert "0" + [] == "0" && NatOf("0") == 0;
    assert DecimalNumber(t) == Assembled("0", [], u, 1);
    NoHexHead(t);
  }

  lemma {:induction false} NoHexHead(t: string)
    requires |t| > 1 && t[0] == '0' && (|t| > 2 ==> !IsHex(t[2])) && (|t| > 3 && t[2] == '.' ==> !IsHex(t[3]))
    ensures Magnitude(t) == DecimalNumber(t)
  {
    if |t| >= 3 { assert t[..3][0] == '0'; }
    assert !HasName(t) && !HasHexPrefix(t);
  }

  /** The hexadecimal digits. */
  lemma HexDigits(c: char)
    ensures IsHex(c) <==> c in "0123456789abcdefABCDEF"
    ensures HexOf([]) == 0
  {
  }

  /** By place, and both cases of the letters. */
  lemma {:induction false} HexOfLast(s: string, c: char)
    requires AllHex(s) && IsHex(c)
    ensures HexOf(s + [c]) == 16 * HexOf(s)
         + (if '0' <= c <= '9' then c as int - 48 else if 'a' <= c <= 'f' then c as int - 87 else c as int - 55)
  {
    assert (s + [c])[..|s|] == s;
  }

  // ----- what INTPARSE stores -------------------------------------------------------------

  /** The text holds no number at its head: blanks, and then nothing or a byte that starts none. */
  predicate NoNumber(value: string) {
    exists n :: 0 <= n <= |value| && Blanks(value[..n]) && StartsNone(value[n..])
  }

  predicate StartsNone(t: string) {
    t == [] || (!IsBlank(t[0]) && !IsDigit(t[0]) && t[0] !in {'-', '+', '.'} && !NamesNumber(t))
  }

  lemma {:induction false} NoDigitsNoNumber(t: string)
    requires StartsNone(t)
    ensures StrToD(t) == Scan(Finite(Int(0)), 0)
  {
    NamesAre(t);
    assert DigitRun(t) == 0 && t[0..] == t;
  }

  /** Such a text is stored as it is, under INTPARSE or not. */
  lemma {:induction false} TextStaysText(value: CString)
    requires NoNumber(value)
    ensures MakeValue(value, OVERRIDE_INT) == Some(Str(value)) && IntItem(value) == Str(value)
  {
    var n :| 0 <= n <= |value| && Blanks(value[..n]) && StartsNone(value[n..]);
    assert value[..n] + value[n..] == value;
    BlanksSkipped(value[..n], value[n..]);
    NoDigitsNoNumber(value[n..]);
  }

  /** So is a text with a sign or a point that no digit follows. */
  lemma {:induction false} SignStaysText(sign: CString, t: CString)
    requires sign in {"-", "+", ".", "-.", "+."}
    requires t == [] || (!IsDigit(t[0]) && t[0] != '.' && !NamesNumber(t))
    ensures IntItem(sign + t) == Str(sign + t)
  {
    var s := sign + t;
    assert SkipSpace(s) == s;
    NamesAre(t);
    if sign == "." {
      PointReadsNothing(s);
    } else if |sign| == 1 {
      assert s[1..] == t;
      NothingAtHead(t);
    } else {
      assert s[1..] == "." + t;
      PointReadsNothing(s[1..]);
    }
  }

  lemma {:induction false} NothingAtHead(t: string)
    requires t == [] || (!IsDigit(t[0]) && t[0] != '.')
    requires !HasName(t)
    ensures Magnitude(t) == NOTHING
  {
    assert DigitRun(t) == 0 && t[0..] == t;
  }

  lemma {:induction false} PointReadsNothing(s: string)
    requires s != [] && s[0] == '.' && NoDigitFirst(s[1..])
    ensures Magnitude(s) == NOTHING
  {
    if |s| >= 3 { assert s[..3][0] == '.'; }
    assert DigitRun(s) == 0 && s[0..] == s;
  }

  /** A number that is not finite is stored as null. */
  lemma {:induction false} NamesBecomeNull(t: CString)
    requires NamesNumber(t)
    ensures IntItem(t) == Word(Null) && IntItem("-" + t) == Word(Null) && IntItem("+" + t) == Word(Null)
  {
    NamesAre(t);
    assert ("-" + t)[1..] == t && ("+" + t)[1..] == t;
  }

  /** The text is stored as the number m * 10^x, or as itself if that is zero. */
  predicate StoredAs(text: CString, m: int, x: int) {
    if m == 0 then IntItem(text) == Str(text) else IntItem(text).Num? && Equals(IntItem(text).d, m, x)
  }

  lemma {:induction false} ReadingIsStored(text: CString, m: int, x: int)
    requires Atof(text).Finite? && Equals(Atof(text).d, m, x)
    ensures StoredAs(text, m, x)
  {
    EqualsZero(Atof(text).d, m, x);
  }

  /** Any other text is stored as the number that is written at its head, unless that is zero. */
  lemma {:induction false} NumberIsStored(text: CString, blanks: string, sign: string, a: string, b: string, tail: string, x: int)
    requires Blanks(blanks) && IsSign(sign) && AllDigits(a) && a != [] && AllDigits(b) && NoDigitFirst(tail)
    requires text == blanks + (sign + Written(a, b, tail)) && x == Exponent(tail, "eE").0 - |b|
    ensures StoredAs(text, WithMinus(sign, NatOf(a + b)), x)
  {
    WrittenReads(text, blanks, sign, a, b, tail, x);
    ReadingIsStored(text, WithMinus(sign, NatOf(a + b)), x);
  }

  lemma {:induction false} EqualsZero(d: Decimal, m: int, x: int)
    requires Equals(d, m, x)
    ensures d.m == 0 <==> m == 0
  {
  }

  // ----- rounding --------------------------------------------------------------------------

  /** `k` is the integer nearest to n / q, an even one in a tie. */
  predicate IsNearest(k: nat, n: nat, q: nat) {
    && 2 * (k * q - n) <= q && 2 * (n - k * q) <= q
    && (2 * (k * q - n) == q || 2 * (n - k * q) == q ==> k % 2 == 0)
  }

  lemma {:induction false} RoundsToNearest(n: nat, q: nat)
    requires q > 0
    ensures IsNearest(RoundEven(n, q), n, q)
  {
    var f, r := n / q, n % q;
    assert n == f * q + r;
    assert (f + 1) * q == f * q + q;
  }

  /** `%f` of a number with more than six places is that of the nearest number of millionths. */
  lemma {:induction false} MillionthsAreNearest(n: nat, e: nat)
    requires e > 6
    ensures IsNearest(Millionths(n, e), n, Pow10(e - 6))
  {
    RoundsToNearest(n, Pow10(e - 6));
  }

  /** ... and otherwise the number itself. */
  lemma {:induction false} MillionthsAreExact(n: nat, e: nat)
    requires e <= 6
    ensures Millionths(n, e) * Pow10(e) == n * Pow10(6)
  {
    ShiftedIs(n, 6 - e);
    PowersAdd(6 - e, e);
    assert (n * Pow10(6 - e)) * Pow10(e) == n * (Pow10(6 - e) * Pow10(e));
  }

  lemma {:induction false} PowersAdd(a: nat, b: nat)
    ensures Pow10(a) * Pow10(b) == Pow10(a + b)
  {
    if a > 0 {
      PowersAdd(a - 1, b);
      assert Pow10(a) * Pow10(b) == 10 * (Pow10(a - 1) * Pow10(b));
    }
  }

  // ----- the shape of number texts ----------------------------------------------------------

  /** A minus when negative, digits, and `places` digits after a point. */
  ghost predicate HasPlaces(t: string, negative: bool, places: nat) {
    exists a, b :: AllDigits(a) && a != [] && AllDigits(b) && |b| == places
                   && t == (if negative then "-" else "") + (a + "." + b)
  }

  /** `%f` has six places; a fraction printed in full has just as many as it needs. */
  lemma {:induction false} NumberTextsHavePlaces(d: Decimal)
    ensures HasPlaces(FloatText(d), d.m < 0, 6)
    ensures d.e > 0 ==> HasPlaces(DecText(d), d.m < 0, d.e)
    ensures d.e == 0 ==> DecText(d) == IntText(d.m)
  {
    var n := Millionths(Abs(d.m), d.e);
    var a, b := NatText(Units(n, 6)), Padded(n, 6);
    assert FloatText(d) == (if d.m < 0 then "-" else "") + (a + "." + b);
    if d.e > 0 {
      var c, f := NatText(Units(Abs(d.m), d.e)), Padded(Abs(d.m), d.e);
      assert DecText(d) == (if d.m < 0 then "-" else "") + (c + "." + f);
    } else {
      IntTextIsDec(d.m);
    }
  }
}

/** Numbers as the program reads and prints them: exact decimals, and `atof`, `%f` and plain text. */
module Decimal {
  import opened CText

  // ----- decimals ------------------------------------------------------------------------

  /** The number m / 10^e. */
  datatype Dec = Dec(m: int, e: nat)

  /** No zero at the end of the fraction. */
  predicate Lowest(d: Dec) { d.e == 0 || d.m % 10 != 0 }

  type Decimal = d: Dec | Lowest(d) witness Dec(0, 0)

  function Reduce(m: int, e: nat): Decimal
    decreases e
  {
    if e > 0 && m % 10 == 0 then Reduce(m / 10, e - 1) else Dec(m, e)
  }

  function Int(n: int): Decimal { Dec(n, 0) }

  function Abs(n: int): nat { if n < 0 then -n else n }

  // ----- strtod --------------------------------------------------------------------------

  datatype Reading = Finite(d: Decimal) | NotFinite

  /** What `strtod` makes of the head of a text, and how much of it it takes. */
  datatype Scan = Scan(value: Reading, len: nat)

  const NOTHING := Scan(Finite(Int(0)), 0)

  predicate HasPoint(u: string) { u != [] && u[0] == '.' }

  /** The exponent after one of these letters: an optional sign and at least one digit. */
  function Exponent(u: string, letters: string): (x: (int, nat))
    ensures x.1 <= |u|
  {
    if u == [] || u[0] !in letters then (0, 0)
    else
      var k := if |u| > 1 && u[1] in ['+', '-'] then 2 else 1;
      var r := DigitRun(u[k..]);
      if r == 0 then (0, 0)
      else (if u[1] == '-' then 0 - NatOf(u[k..][..r]) else NatOf(u[k..][..r]), k + r)
  }

  /** m * 10^k: `k` zeros more. */
  function Shifted(m: int, k: nat): (r: int)
    ensures m >= 0 ==> r >= 0
    decreases k
  {
    if k == 0 then m else 10 * Shifted(m, k - 1)
  }

  /** m * 10^x. */
  function Scale(m: int, x: int): Decimal {
    if x >= 0 then Int(Shifted(m, x)) else Reduce(m, -x)
  }

  /** The digits at the head of a text, and what follows them. */
  function IntegerPart(t: string): (d: string)
    ensures AllDigits(d) && |d| <= |t|
  {
    t[..DigitRun(t)]
  }

  function AfterInteger(t: string): (u: string)
    ensures |u| <= |t|
  {
    t[DigitRun(t)..]
  }

  /** The digits after a point, and what follows them. */
  function FractionPart(u: string): (d: string)
    ensures AllDigits(d)
  {
    if HasPoint(u) then IntegerPart(u[1..]) else []
  }

  function AfterFraction(u: string): (v: string)
    ensures |v| <= |u|
  {
    if HasPoint(u) then AfterInteger(u[1..]) else u
  }

  /** Digits, a point and more digits, an exponent. */
  function DecimalNumber(t: string): Scan {
    var a, u := IntegerPart(t), AfterInteger(t);
    var b, tail := FractionPart(u), AfterFraction(u);
    if a == [] && b == [] then NOTHING else Assembled(a, b, tail, |t| - |tail|)
  }

  /** The number with these digits before and after the point and what follows them, `n` bytes on. */
  function Assembled(a: string, b: string, tail: string, n: nat): Scan
    requires AllDigits(a) && AllDigits(b)
  {
    var (x, len) := Exponent(tail, "eE");
    Scan(Finite(Scale(NatOf(a + b), x - |b|)), n + len)
  }

  predicate IsHex(c: char) { IsDigit(c) || 'a' <= c <= 'f' || 'A' <= c <= 'F' }

  predicate AllHex(s: string) { forall i :: 0 <= i < |s| ==> IsHex(s[i]) }

  function HexDigitOf(c: char): nat
    requires IsHex(c)
  {
    if IsDigit(c) then DigitOf(c) else Lower(c) as int - 'a' as int + 10
  }

  function HexOf(s: string): nat
    requires AllHex(s)
  {
    if s == [] then 0 else HexOf(s[..|s| - 1]) * 16 + HexDigitOf(s[|s| - 1])
  }

  function HexRun(s: string): (r: nat)
    ensures r <= |s| && AllHex(s[..r])
  {
    if s == [] || !IsHex(s[0]) then 0
    else
      var r := HexRun(s[1..]);
      assert s[..r + 1] == [s[0]] + s[1..][..r];
      r + 1
  }

  function Power(b: nat, k: nat): nat { if k == 0 then 1 else b * Power(b, k - 1) }

  /** m * 2^x, an exact decimal too. */
  function ScaleBinary(m: int, x: int): Decimal {
    if x >= 0 then Int(m * Power(2, x)) else Reduce(m * Power(5, -x), -x)
  }

  /** 0x before a hexadecimal digit, or before a point and one. */
  predicate HasHexPrefix(t: string) {
    && |t| > 2 && t[0] == '0' && t[1] in ['x', 'X']
    && (IsHex(t[2]) || (t[2] == '.' && |t| > 3 && IsHex(t[3])))
  }

  /** What follows 0x. */
  function HexNumber(t: string): Scan {
    var r := HexRun(t);
    var u := t[r..];
    var f := if HasPoint(u) then HexRun(u[1..]) else 0;
    var n := if HasPoint(u) then r + 1 + f else r;
    AssembledHex(t[..r], if HasPoint(u) then u[1..][..f] else [], t[n..], n)
  }

  function AssembledHex(a: string, b: string, tail: string, n: nat): Scan
    requires AllHex(a) && AllHex(b)
  {
    var (x, len) := Exponent(tail, "pP");
    Scan(Finite(ScaleBinary(HexOf(a + b), x - 4 * |b|)), n + len)
  }

  predicate HasName(t: string) { |t| >= 3 && (EqFold(t[..3], "inf") || EqFold(t[..3], "nan")) }

  function Magnitude(t: string): Scan {
    if HasName(t) then Scan(NotFinite, 3)
    else if HasHexPrefix(t) then var h := HexNumber(t[2..]); Scan(h.value, h.len + 2)
    else DecimalNumber(t)
  }

  function Opposite(d: Decimal): Decimal { Dec(-d.m, d.e) }

  /** A sign in front of a number that was read. */
  function WithSign(c: char, r: Scan): Scan {
    if r.len == 0 then NOTHING
    else if c == '-' && r.value.Finite? then Scan(Finite(Opposite(r.value.d)), r.len + 1)
    else Scan(r.value, r.len + 1)
  }

  predicate HasSign(s: string) { s != [] && s[0] in ['-', '+'] }

  /** A sign, and what this reading makes of the rest. */
  function SignedBy(magnitude: string -> Scan, s: string): Scan {
    if HasSign(s) then WithSign(s[0], magnitude(s[1..])) else magnitude(s)
  }

  /** `strtod` after the blanks. */
  function StrToD(s: string): Scan { SignedBy(Magnitude, s) }

  /** `strtod` of a text without letters other than e. */
  function PlainNumber(s: string): Scan { SignedBy(DecimalNumber, s) }

  /** `atof`; a text with no number at its head reads as 0. */
  function Atof(s: string): Reading { StrToD(SkipSpace(s)).value }

  // ----- printing ------------------------------------------------------------------------

  /** The last `w` digits. */
  function Padded(n: nat, w: nat): (s: CString)
    ensures |s| == w && AllDigits(s)
  {
    if w == 0 then "" else Padded(n / 10, w - 1) + [(n % 10 + '0' as int) as char]
  }

  /** What is left of a number without its last `w` digits. */
  function Units(n: nat, w: nat): nat { if w == 0 then n else Units(n / 10, w - 1) }

  /** n / 10^e with exactly `e` digits after the point. */
  function FixedText(n: nat, e: nat): CString { NatText(Units(n, e)) + "." + Padded(n, e) }

  function Sign(m: int): CString { if m < 0 then "-" else "" }

  /** A number in full, with no more digits than it needs. */
  function DecText(d: Decimal): CString {
    Sign(d.m) + if d.e == 0 then NatText(Abs(d.m)) else FixedText(Abs(d.m), d.e)
  }

  /** n / q, rounded to the nearest integer, ties to even. */
  function RoundEven(n: nat, q: nat): nat
    requires q > 0
  {
    var f, r := n / q, n % q;
    if 2 * r < q || (2 * r == q && f % 2 == 0) then f else f + 1
  }

  /** The number in millionths. */
  function Millionths(n: nat, e: nat): nat {
    if e <= 6 then Shifted(n, 6 - e) else RoundEven(n, Pow10(e - 6))
  }

  /** `%f`. */
  function FloatText(d: Decimal): CString { Sign(d.m) + FixedText(Millionths(Abs(d.m), d.e), 6) }

  // ----- reading back what was printed ---------------------------------------------------

  lemma {:induction false} NatOfLast(s: string, n: nat)
    requires AllDigits(s) && NatOf(s) == n / 10
    ensures NatOf(s + [(n % 10 + '0' as int) as char]) == n
  {
    var c := (n % 10 + '0' as int) as char;
    assert (s + [c])[..|s|] == s && (s + [c])[|s|] == c;
  }

  /** Digits that spell a number without its last ones, followed by those, spell the number. */
  lemma {:induction false} PaddedCompletes(a: string, n: nat, e: nat)
    requires AllDigits(a) && NatOf(a) == Units(n, e)
    ensures NatOf(a + Padded(n, e)) == n
  {
    if e == 0 {
      assert a + Padded(n, 0) == a;
    } else {
      PaddedCompletes(a, n / 10, e - 1);
      NatOfLast(a + Padded(n / 10, e - 1), n);
      assert a + Padded(n, e) == a + Padded(n / 10, e - 1) + [(n % 10 + '0' as int) as char];
    }
  }

  lemma {:induction false} PlainHead(a: string, u: string)
    requires AllDigits(a) && |a| >= 1 && (u == [] || u[0] == '.')
    ensures !HasName(a + u) && !HasHexPrefix(a + u)
  {
    var t := a + u;
    assert IsDigit(t[0]);
    assert |t| > 1 ==> IsDigit(t[1]) || t[1] == '.';
    if |t| >= 3 { assert t[..3][0] == t[0]; }
  }

  /** A run of digits reads as an integer. */
  lemma {:induction false} DigitsRead(a: string)
    requires AllDigits(a) && |a| >= 1
    ensures Magnitude(a) == Scan(Finite(Int(NatOf(a))), |a|)
  {
    PlainHead(a, []);
    RunOf(a, []);
    assert a + [] == a && a[..|a|] == a;
  }

  lemma {:induction false} IntegerParts(a: string, u: string)
    requires AllDigits(a) && NoDigitFirst(u)
    ensures IntegerPart(a + u) == a && AfterInteger(a + u) == u
  {
    RunOf(a, u);
  }

  /** Where `strtod` finds the parts of digits, a point, digits and what follows. */
  lemma {:induction false} DecimalParts(t: string, u: string, a: string, b: string, tail: string)
    requires t == a + u && u == "." + (b + tail) && AllDigits(a) && AllDigits(b) && NoDigitFirst(tail)
    ensures IntegerPart(t) == a && AfterInteger(t) == u && FractionPart(u) == b && AfterFraction(u) == tail
  {
    IntegerParts(a, u);
    assert u[1..] == b + tail;
    IntegerParts(b, tail);
  }

  /** Digits, a point and digits read as the decimal they spell. */
  lemma {:induction false} FractionReads(a: string, b: string)
    requires AllDigits(a) && AllDigits(b) && |a| >= 1
    ensures Magnitude(a + "." + b) == Scan(Finite(Reduce(NatOf(a + b), |b|)), |a| + 1 + |b|)
  {
    var t, u := a + "." + b, "." + b;
    assert t == a + u && b + [] == b;
    DecimalParts(t, u, a, b, []);
    PlainHead(a, u);
    assert DecimalNumber(t) == Assembled(a, b, [], |a| + 1 + |b|);
    ScaleDown(NatOf(a + b), |b|);
  }

  lemma {:induction false} ScaleDown(m: nat, e: nat)
    ensures Scale(m, 0 - e) == Reduce(m, e)
  {
  }

  /** A number in lowest terms is left alone; extra zeros go. */
  lemma {:induction false} ReduceZeros(d: Decimal, k: nat)
    ensures Reduce(Shifted(d.m, k), d.e + k) == d
  {
    if k > 0 {
      var m := Shifted(d.m, k - 1);
      ReduceZeros(d, k - 1);
      assert (10 * m) % 10 == 0 && (10 * m) / 10 == m;
    }
  }

  lemma {:induction false} FixedReads(n: nat, e: nat)
    ensures Magnitude(FixedText(n, e)) == Scan(Finite(Reduce(n, e)), |FixedText(n, e)|)
  {
    NatTextReads(Units(n, e));
    PaddedCompletes(NatText(Units(n, e)), n, e);
    FractionReads(NatText(Units(n, e)), Padded(n, e));
  }

  lemma {:induction false} ReduceNegates(m: int, e: nat)
    ensures Reduce(-m, e) == Opposite(Reduce(m, e))
    decreases e
  {
    if e > 0 && m % 10 == 0 {
      assert (-m) % 10 == 0 && (-m) / 10 == -(m / 10);
      ReduceNegates(m / 10, e - 1);
    }
  }

  function Signed(m: int, n: nat): int { if m < 0 then 0 - n else n }

  /** The number rounded to six places. */
  function Rounded(d: Decimal): Decimal { Reduce(Signed(d.m, Millionths(Abs(d.m), d.e)), 6) }

  lemma {:induction false} SignedScan(magnitude: string -> Scan, m: int, t: string, d: Decimal)
    requires t != [] && IsDigit(t[0]) && magnitude(t) == Scan(Finite(d), |t|)
    ensures SignedBy(magnitude, Sign(m) + t) == Scan(Finite(if m < 0 then Opposite(d) else d), |Sign(m) + t|)
    ensures SkipSpace(Sign(m) + t) == Sign(m) + t
  {
    if m < 0 { assert (Sign(m) + t)[1..] == t; } else { assert Sign(m) + t == t; }
  }

  /** A sign in front of a text that starts with a digit. */
  lemma {:induction false} SignReads(m: int, t: string, n: nat, e: nat)
    requires t != [] && IsDigit(t[0]) && Magnitude(t) == Scan(Finite(Reduce(n, e)), |t|)
    ensures StrToD(Sign(m) + t) == Scan(Finite(Reduce(Signed(m, n), e)), |Sign(m) + t|)
    ensures SkipSpace(Sign(m) + t) == Sign(m) + t
  {
    SignedScan(Magnitude, m, t, Reduce(n, e));
    if m < 0 { ReduceNegates(n, e); }
  }

  predicate NumberChar(c: char) { IsDigit(c) || c in ['+', '-', '.', 'e', 'E'] }

  lemma {:induction false} PlainMagnitude(t: string)
    requires forall i :: 0 <= i < |t| ==> NumberChar(t[i])
    ensures Magnitude(t) == DecimalNumber(t)
  {
    assert !HasHexPrefix(t);
    if |t| >= 3 { assert t[..3][0] == t[0]; }
    assert !HasName(t);
  }

  /** Without letters other than e the two readings agree. */
  lemma {:induction false} PlainIsStrToD(s: string)
    requires forall i :: 0 <= i < |s| ==> NumberChar(s[i])
    ensures StrToD(s) == PlainNumber(s)
  {
    PlainMagnitude(if HasSign(s) then s[1..] else s);
  }

  /** Every decimal printed in full reads back as itself, and to the end. */
  lemma {:induction false} DecTextReads(d: Decimal)
    ensures StrToD(DecText(d)) == Scan(Finite(d), |DecText(d)|)
    ensures Atof(DecText(d)) == Finite(d)
  {
    ReduceLowest(d);
    if d.e == 0 { WholeTextReads(d.m); } else { FixedTextReads(d.m, d.e); }
  }

  lemma {:induction false} WholeTextReads(m: int)
    ensures var t := Sign(m) + NatText(Abs(m));
            StrToD(t) == Scan(Finite(Reduce(m, 0)), |t|) && SkipSpace(t) == t
  {
    NatTextReads(Abs(m));
    DigitsRead(NatText(Abs(m)));
    SignReads(m, NatText(Abs(m)), Abs(m), 0);
  }

  lemma {:induction false} FixedTextReads(m: int, e: nat)
    ensures var t := Sign(m) + FixedText(Abs(m), e);
            StrToD(t) == Scan(Finite(Reduce(m, e)), |t|) && SkipSpace(t) == t
  {
    FixedReads(Abs(m), e);
    SignReads(m, FixedText(Abs(m), e), Abs(m), e);
  }

  lemma {:induction false} ReduceLowest(d: Decimal)
    ensures Reduce(d.m, d.e) == d
  {
  }

  /** `atof` of `%f` is the number rounded to six places. */
  lemma {:induction false} FloatTextReads(d: Decimal)
    ensures Atof(FloatText(d)) == Finite(Rounded(d))
  {
    var n := Millionths(Abs(d.m), d.e);
    FixedReads(n, 6);
    SignReads(d.m, FixedText(n, 6), n, 6);
  }

  lemma {:induction false} ReduceShortens(m: int, e: nat)
    ensures Reduce(m, e).e <= e
    decreases e
  {
    if e > 0 && m % 10 == 0 { ReduceShortens(m / 10, e - 1); }
  }

  /** ... so it gives the number back exactly when six places are enough. */
  lemma {:induction false} FloatTextExactIff(d: Decimal)
    ensures Atof(FloatText(d)) == Finite(d) <==> d.e <= 6
  {
    FloatTextReads(d);
    if d.e <= 6 { RoundedIsSame(d); } else { RoundedIsShort(d); }
  }

  lemma {:induction false} RoundedIsSame(d: Decimal)
    requires d.e <= 6
    ensures Rounded(d) == d
  {
    ReduceZeros(d, 6 - d.e);
    SignedShift(d.m, 6 - d.e);
  }

  lemma {:induction false} RoundedIsShort(d: Decimal)
    ensures Rounded(d).e <= 6
  {
    ReduceShortens(Signed(d.m, Millionths(Abs(d.m), d.e)), 6);
  }

  lemma {:induction false} SignedShift(m: int, k: nat)
    ensures Signed(m, Shifted(Abs(m), k)) == Shifted(m, k)
  {
    if k > 0 { SignedShift(m, k - 1); }
  }

  // ----- integers ------------------------------------------------------------------------

  lemma {:induction false} IntTextIsDec(n: int)
    ensures DecText(Int(n)) == IntText(n)
  {
    if n >= 0 { assert Sign(n) + NatText(n) == NatText(n); }
  }

  function Zeros(k: nat): (z: CString)
    ensures |z| == k && forall i :: 0 <= i < k ==> z[i] == '0'
  {
    if k == 0 then "" else Zeros(k - 1) + "0"
  }

  lemma {:induction false} ZerosAtTheEnd(n: nat, k: nat)
    ensures Units(Shifted(n, k), k) == n && Padded(Shifted(n, k), k) == Zeros(k)
  {
    if k > 0 { ZerosAtTheEnd(n, k - 1); }
  }

  /** `%f` of an integer is `%d` and six zeros. */
  lemma {:induction false} FloatTextInt(n: int)
    ensures FloatText(Int(n)) == IntText(n) + ".000000"
  {
    ZerosAtTheEnd(Abs(n), 6);
    assert Zeros(6) == "000000";
    assert FixedText(Shifted(Abs(n), 6), 6) == NatText(Abs(n)) + ".000000";
    if n >= 0 { assert FloatText(Int(n)) == FixedText(Shifted(Abs(n), 6), 6); }
  }
}

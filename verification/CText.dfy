/** C strings as byte sequences without NUL, and the libc conversions the program relies on. */
module CText {
  /** Every character is a byte of a NUL-terminated buffer, the terminator excluded. */
  predicate IsCString(s: string) {
    forall i :: 0 <= i < |s| ==> 0 < s[i] as int < 256
  }

  type CString = s: string | IsCString(s)

  datatype Option<+T> = None | Some(value: T)

  // ----- letter case ---------------------------------------------------------------------

  function Lower(c: char): char {
    if 'A' <= c <= 'Z' then (c as int + 32) as char else c
  }

  /** Equality as `tolower` on every byte sees it. */
  predicate EqFold(a: string, b: string) {
    |a| == |b| && forall i :: 0 <= i < |a| ==> Lower(a[i]) == Lower(b[i])
  }

  /** One of the two letters is the other's capital. */
  predicate CapitalOf(a: char, b: char) { 'A' <= a <= 'Z' && b as int == a as int + ('a' as int - 'A' as int) }

  /** Two texts are equal ignoring case exactly when they differ in capitals only. */
  lemma FoldIs(a: string, b: string)
    ensures EqFold(a, b) <==>
            |a| == |b| && forall i :: 0 <= i < |a| ==> a[i] == b[i] || CapitalOf(a[i], b[i]) || CapitalOf(b[i], a[i])
  {
    forall i | 0 <= i < |a| && |a| == |b|
      ensures Lower(a[i]) == Lower(b[i]) <==> a[i] == b[i] || CapitalOf(a[i], b[i]) || CapitalOf(b[i], a[i])
    {
    }
  }

  // ----- decimal text --------------------------------------------------------------------

  predicate IsDigit(c: char) { '0' <= c <= '9' }

  predicate AllDigits(s: string) {
    forall i :: 0 <= i < |s| ==> IsDigit(s[i])
  }

  function DigitOf(c: char): (d: nat)
    requires IsDigit(c)
    ensures d < 10
  {
    c as int - '0' as int
  }

  /** `%d` of a natural number. */
  function NatText(n: nat): (s: CString)
    ensures |s| >= 1 && AllDigits(s)
  {
    if n < 10 then [(n + '0' as int) as char]
    else NatText(n / 10) + [(n % 10 + '0' as int) as char]
  }

  /** `%d`. */
  function IntText(n: int): CString {
    if n < 0 then "-" + NatText(-n) else NatText(n)
  }

  /** The number a run of digits denotes. */
  function NatOf(s: string): nat
    requires AllDigits(s)
  {
    if s == [] then 0 else NatOf(s[..|s| - 1]) * 10 + DigitOf(s[|s| - 1])
  }

  /** Length of the longest prefix made of digits. */
  function DigitRun(s: string): (r: nat)
    ensures r <= |s| && AllDigits(s[..r])
    ensures r < |s| ==> !IsDigit(s[r])
  {
    if s == [] || !IsDigit(s[0]) then 0
    else
      var r := DigitRun(s[1..]);
      assert s[..r + 1] == [s[0]] + s[1..][..r];
      r + 1
  }

  predicate NoDigitFirst(s: string) { s == [] || !IsDigit(s[0]) }

  lemma {:induction false} NatTextReads(n: nat)
    ensures NatOf(NatText(n)) == n
  {
    if n >= 10 {
      NatTextReads(n / 10);
      assert NatText(n)[..|NatText(n)| - 1] == NatText(n / 10);
    }
  }

  lemma {:induction false} RunOf(d: string, rest: string)
    requires AllDigits(d) && NoDigitFirst(rest)
    ensures DigitRun(d + rest) == |d|
    ensures (d + rest)[..|d|] == d && (d + rest)[|d|..] == rest
  {
    if d == [] {
      assert d + rest == rest;
    } else {
      RunOf(d[1..], rest);
      assert (d + rest)[1..] == d[1..] + rest;
    }
  }

  function Pow10(k: nat): (p: nat)
    ensures p >= 1
  {
    if k == 0 then 1 else 10 * Pow10(k - 1)
  }

  lemma {:induction false} NatTextFits(n: nat, k: nat)
    requires k >= 1 && n < Pow10(k)
    ensures |NatText(n)| <= k
  {
    if n >= 10 {
      assert k >= 2;
      NatTextFits(n / 10, k - 1);
    }
  }

  // ----- atoi ----------------------------------------------------------------------------

  predicate IsSpace(c: char) { c == ' ' || 9 <= c as int <= 13 }

  function SkipSpace(s: string): (t: string)
    ensures |t| <= |s|
    ensures t == [] || !IsSpace(t[0])
  {
    if s != [] && IsSpace(s[0]) then SkipSpace(s[1..]) else s
  }

  function LeadingNat(s: string): nat { NatOf(s[..DigitRun(s)]) }

  /** `atoi`: blanks, an optional sign, the longest run of digits. */
  function Atoi(s: string): int {
    var t := SkipSpace(s);
    if t != [] && t[0] == '-' then 0 - LeadingNat(t[1..])
    else if t != [] && t[0] == '+' then LeadingNat(t[1..])
    else LeadingNat(t)
  }

  lemma {:induction false} LeadingNatText(n: nat, rest: string)
    requires NoDigitFirst(rest)
    ensures LeadingNat(NatText(n) + rest) == n
    ensures DigitRun(NatText(n) + rest) == |NatText(n)| >= 1
  {
    NatTextReads(n);
    RunOf(NatText(n), rest);
  }

  lemma AtoiUnsigned(s: string)
    requires s != [] && IsDigit(s[0])
    ensures Atoi(s) == LeadingNat(s)
  {
  }

  lemma AtoiNegative(s: string)
    ensures Atoi("-" + s) == 0 - LeadingNat(s)
  {
    assert ("-" + s)[1..] == s;
  }

  lemma {:induction false} AtoiNatText(n: nat, rest: string)
    requires NoDigitFirst(rest)
    ensures Atoi(NatText(n) + rest) == n
  {
    LeadingNatText(n, rest);
    AtoiUnsigned(NatText(n) + rest);
  }

  lemma {:induction false} AtoiMinusText(n: nat, rest: string)
    requires NoDigitFirst(rest)
    ensures Atoi("-" + NatText(n) + rest) == 0 - n
  {
    LeadingNatText(n, rest);
    AtoiNegative(NatText(n) + rest);
    assert "-" + NatText(n) + rest == "-" + (NatText(n) + rest);
  }

  /** `atoi` inverts `%d`, whatever non-digit text follows the number. */
  lemma {:induction false} AtoiIntText(n: int, rest: string)
    requires NoDigitFirst(rest)
    ensures Atoi(IntText(n) + rest) == n
  {
    if n < 0 { AtoiMinusText(-n, rest); } else { AtoiNatText(n, rest); }
  }
}

/** Texts that the parser reads besides those the printer writes: any blanks between the parts. And a
    text that breaks off: no part of a printed object reads as anything. */
module Grammar {
  import opened CText
  import opened Decimal
  import opened Json
  import opened JsonText

  // ----- blanks anywhere -----------------------------------------------------------------

  predicate Blank(w: CString) { forall i :: 0 <= i < |w| ==> w[i] as int <= 32 }

  /** An item with the blanks `w` wherever blanks may stand, followed by `rest`. */
  function Spaced(j: Json, w: CString, rest: CString): CString
    decreases j, 2
  {
    match j
    case Str(s) => Quote(s, rest)
    case Num(n) => DecText(n) + rest
    case Word(word) => WordText(word) + rest
    case Obj(ms) => "{" + (w + (if ms.Nil? then "}" + rest else SpacedMembers(ms, w, rest)))
  }

  /** Members and the closing brace, without the blanks before the first. */
  function SpacedMembers(ms: Members, w: CString, rest: CString): CString
    requires ms.Cons?
    decreases ms, 0
  {
    Quote(ms.key, w + (":" + (w + Spaced(ms.val, w, AfterValue(ms.rest, w, rest)))))
  }

  /** After a value: a comma and more members, or the closing brace. */
  function AfterValue(r: Members, w: CString, rest: CString): CString
    decreases r, 1
  {
    if r.Nil? then w + ("}" + rest) else w + ("," + (w + SpacedMembers(r, w, rest)))
  }

  lemma {:induction false} SkipAll(w: CString, s: CString)
    requires Blank(w) && NoBlankFirst(s)
    ensures SkipBlank(w + s) == s
  {
    if w == [] {
      assert w + s == s;
    } else {
      SkipAll(w[1..], s);
      assert (w + s)[1..] == w[1..] + s;
    }
  }

  lemma {:induction false} ExpectAround(w: CString, c: char, s: CString)
    requires Blank(w) && IsByte(c) && c as int > 32 && NoBlankFirst(s)
    ensures Expect(w + ([c] + (w + s)), c) == Some(s)
  {
    SkipAll(w, [c] + (w + s));
    assert ([c] + (w + s))[1..] == w + s;
    SkipAll(w, s);
  }

  lemma {:induction false} ExpectOther(w: CString, c: char, s: CString, other: char)
    requires Blank(w) && IsByte(c) && c as int > 32 && c != other
    ensures Expect(w + ([c] + s), other) == None && SkipBlank(w + ([c] + s)) == [c] + s
  {
    SkipAll(w, [c] + s);
  }

  lemma {:induction false} SpacedStarts(j: Json, w: CString, rest: CString)
    ensures NoBlankFirst(Spaced(j, w, rest)) && Spaced(j, w, rest) != []
  {
  }

  lemma {:induction false} NumberEnds(w: CString, c: char, s: CString)
    requires Blank(w) && c in {',', '}'}
    ensures NoNumberFirst(w + ([c] + s))
  {
    if w != [] { assert (w + ([c] + s))[0] == w[0]; }
  }

  lemma {:induction false} AfterIsNoNumber(r: Members, w: CString, rest: CString)
    requires Blank(w)
    ensures NoNumberFirst(AfterValue(r, w, rest))
  {
    if r.Nil? { NumberEnds(w, '}', rest); } else { NumberEnds(w, ',', w + SpacedMembers(r, w, rest)); }
  }

  /** Whatever the blanks, the item is read and the rest is left. */
  lemma {:induction false} SpacedReads(j: Json, w: CString, rest: CString)
    requires Blank(w) && (j.Num? ==> NoNumberFirst(rest))
    ensures ParseValue(Spaced(j, w, rest)) == Ok(j, rest)
    decreases j
  {
    match j
    case Str(s) => StringRoundTrip(s, rest);
    case Num(n) => NumberRoundTrip(n, rest);
    case Word(word) => WordRoundTrip(word, rest);
    case Obj(ms) =>
      if ms.Nil? {
        SkipAll(w, "}" + rest);
        OpenBrace(w + ("}" + rest));
        assert ("}" + rest)[1..] == rest;
      } else {
        SpacedObject(ms, w, rest);
      }
  }

  lemma {:induction false} SpacedObject(ms: Members, w: CString, rest: CString)
    requires Blank(w) && ms.Cons?
    ensures ParseValue("{" + (w + SpacedMembers(ms, w, rest))) == Ok(Obj(ms), rest)
    decreases ms, 1
  {
    MembersRead(ms, w, rest);
    SkipAll(w, SpacedMembers(ms, w, rest));
    OpenBrace(w + SpacedMembers(ms, w, rest));
  }

  /** The parts of a member list: a key, a colon, a value, and what follows. */
  lemma {:induction false} MembersAre(s: CString, k: CString, r1: CString, r2: CString, v: Json, r3: CString)
    requires s != [] && s[0] == '\"' && ParseChars(s[1..]) == Ok(k, r1)
    requires Expect(r1, ':') == Some(r2) && ParseValue(r2) == Ok(v, r3)
    ensures ParseMembers(s) == ParseAfter(k, v, r3)
  {
  }

  lemma {:induction false} MembersRead(ms: Members, w: CString, rest: CString)
    requires Blank(w) && ms.Cons?
    ensures ParseMembers(SpacedMembers(ms, w, rest)) == Ok(ms, rest)
    ensures SpacedMembers(ms, w, rest) != [] && SpacedMembers(ms, w, rest)[0] == '\"'
    decreases ms, 0
  {
    var after := AfterValue(ms.rest, w, rest);
    var value := Spaced(ms.val, w, after);
    StringRoundTrip(ms.key, w + (":" + (w + value)));
    SpacedStarts(ms.val, w, after);
    ExpectAround(w, ':', value);
    AfterIsNoNumber(ms.rest, w, rest);
    SpacedReads(ms.val, w, after);
    AfterReads(ms, w, rest);
    var all := SpacedMembers(ms, w, rest);
    MembersAre(all, ms.key, w + (":" + (w + value)), value, ms.val, after);
  }

  lemma {:induction false} AfterReads(ms: Members, w: CString, rest: CString)
    requires Blank(w) && ms.Cons?
    ensures ParseAfter(ms.key, ms.val, AfterValue(ms.rest, w, rest)) == Ok(ms, rest)
    decreases ms.rest, 2
  {
    if ms.rest.Nil? {
      ExpectOther(w, '}', rest, ',');
      assert ("}" + rest)[1..] == rest;
    } else {
      MembersRead(ms.rest, w, rest);
      ExpectAround(w, ',', SpacedMembers(ms.rest, w, rest));
    }
  }

  /** A whole text: blanks, an item with blanks anywhere in it, and then anything at all, if only no
      number runs on. */
  lemma {:induction false} AnyBlanksParse(j: Json, w: CString, rest: CString)
    requires Blank(w) && (j.Num? ==> NoNumberFirst(rest))
    ensures Parse(w + Spaced(j, w, rest)) == Some(j)
  {
    SpacedStarts(j, w, rest);
    SkipAll(w, Spaced(j, w, rest));
    SpacedReads(j, w, rest);
  }

  // ----- escapes that the printer does not write -------------------------------------------

  /** A byte by its number, with digits of either case. */
  lemma {:induction false} NumberedByteReads(h: char, l: char, t: CString)
    requires IsHex(h) && IsHex(l) && 0 < HexOf([h, l]) < 128
    ensures ParseChars("\\u00" + ([h, l] + t)) == Prefixed(Some(HexOf([h, l]) as char), ParseChars(t))
  {
    var s: CString := "\\u00" + ([h, l] + t);
    HexPair(h, l);
    assert s[2..6] == ['0', '0', h, l] && s[6..] == t;
    HexValueIs(h);
    HexValueIs(l);
  }

  lemma {:induction false} HexPair(h: char, l: char)
    requires IsHex(h) && IsHex(l)
    ensures HexOf([h, l]) == 16 * HexDigitOf(h) + HexDigitOf(l)
  {
    var s := [h, l];
    assert s[..1] == [h] && [h][..0] == [];
    assert HexOf([h]) == HexDigitOf(h);
  }

  lemma {:induction false} HexValueIs(c: char)
    requires IsHex(c)
    ensures HexValue(c) == Some(HexDigitOf(c))
  {
  }

  /** The slash may be escaped; a byte that names no escape is an error. */
  lemma {:induction false} OtherEscapes(c: char, t: CString)
    requires IsByte(c)
    ensures ParseChars("\\/" + t) == Prefixed(Some('/'), ParseChars(t))
    ensures c !in {'\"', '\\', '/', 'b', 'f', 'n', 'r', 't', 'u'} ==> ParseChars("\\" + ([c] + t)) == Fail
  {
    var s, u := "\\/" + t, "\\" + ([c] + t);
    assert s[0] == '\\' && s[1] == '/' && s[2..] == t;
    assert u[0] == '\\' && u[1] == c;
  }

  /** A byte beyond ASCII, and one whose number has more than two digits, is outside the grammar. */
  lemma {:induction false} WideEscapesFail(a: char, b: char, h: char, l: char, t: CString)
    requires IsByte(a) && IsByte(b) && IsByte(h) && IsByte(l)
    requires a != '0' || b != '0' || (IsHex(h) && IsHex(l) && HexOf([h, l]) >= 128)
    ensures ParseChars("\\u" + ([a, b, h, l] + t)) == Fail
  {
    var s: CString := "\\u" + ([a, b, h, l] + t);
    assert s[0] == '\\' && s[1] == 'u' && s[2..6] == [a, b, h, l];
    if a == '0' && b == '0' {
      HexPair(h, l);
      HexValueIs(h);
      HexValueIs(l);
    }
  }

  /** A minus alone is no number. */
  lemma {:induction false} LoneMinusFails(t: CString)
    requires t == [] || !NumberChar(t[0])
    ensures ParseValue("-" + t) == Fail
  {
    var s := "-" + t;
    assert s[1..] == t;
    assert NumberRun(s) == 1 && s[..1] == "-" && "-"[1..] == "";
    assert DecimalNumber("") == NOTHING;
  }

  // ----- reading does not look ahead ------------------------------------------------------

  lemma {:induction false} PlainStep(s: CString, t: CString, v: CString, r: CString)
    requires s != [] && s[0] != '\"' && s[0] != '\\'
    requires ParseChars(s).Ok? && ParseChars(s[1..]) == Ok(v, r) && ParseChars(s[1..] + t) == Ok(v, r + t)
    ensures ParseChars(s + t) == Ok(ParseChars(s).value, ParseChars(s).rest + t)
  {
    assert (s + t)[0] == s[0] && (s + t)[1..] == s[1..] + t;
  }

  lemma {:induction false} ShortStep(s: CString, t: CString, v: CString, r: CString)
    requires |s| > 1 && s[0] == '\\' && s[1] != 'u'
    requires ParseChars(s).Ok? && ParseChars(s[2..]) == Ok(v, r) && ParseChars(s[2..] + t) == Ok(v, r + t)
    ensures ParseChars(s + t) == Ok(ParseChars(s).value, ParseChars(s).rest + t)
  {
    assert (s + t)[0] == s[0] && (s + t)[1] == s[1] && (s + t)[2..] == s[2..] + t;
  }

  lemma {:induction false} LongStep(s: CString, t: CString, v: CString, r: CString)
    requires |s| > 5 && s[0] == '\\' && s[1] == 'u'
    requires ParseChars(s).Ok? && ParseChars(s[6..]) == Ok(v, r) && ParseChars(s[6..] + t) == Ok(v, r + t)
    ensures ParseChars(s + t) == Ok(ParseChars(s).value, ParseChars(s).rest + t)
  {
    assert (s + t)[0] == s[0] && (s + t)[1] == s[1] && (s + t)[2..6] == s[2..6] && (s + t)[6..] == s[6..] + t;
  }

  lemma {:induction false} CharsExtend(s: CString, t: CString)
    requires ParseChars(s).Ok?
    ensures ParseChars(s + t) == Ok(ParseChars(s).value, ParseChars(s).rest + t)
    decreases |s|
  {
    if s[0] == '\"' {
      assert (s + t)[0] == s[0] && (s + t)[1..] == s[1..] + t;
    } else if s[0] != '\\' {
      CharsExtend(s[1..], t);
      PlainStep(s, t, ParseChars(s[1..]).value, ParseChars(s[1..]).rest);
    } else if s[1] != 'u' {
      CharsExtend(s[2..], t);
      ShortStep(s, t, ParseChars(s[2..]).value, ParseChars(s[2..]).rest);
    } else {
      CharsExtend(s[6..], t);
      LongStep(s, t, ParseChars(s[6..]).value, ParseChars(s[6..]).rest);
    }
  }

  lemma {:induction false} SkipExtends(s: CString, t: CString)
    requires SkipBlank(s) != []
    ensures SkipBlank(s + t) == SkipBlank(s) + t
  {
    assert (s + t)[0] == s[0];
    if s[0] as int <= 32 {
      SkipExtends(s[1..], t);
      assert (s + t)[1..] == s[1..] + t;
    }
  }

  lemma {:induction false} ExpectExtends(s: CString, c: char, t: CString)
    requires Expect(s, c).Some? && Expect(s, c).value != []
    ensures Expect(s + t, c) == Some(Expect(s, c).value + t)
  {
    var u := SkipBlank(s);
    SkipExtends(s, t);
    assert (u + t)[1..] == u[1..] + t;
    SkipExtends(u[1..], t);
  }

  lemma {:induction false} ScanWithin(s: string)
    ensures PlainNumber(s).len <= |s|
  {
    DecimalWithin(if HasSign(s) then s[1..] else s);
  }

  lemma {:induction false} DecimalWithin(t: string)
    ensures DecimalNumber(t).len <= |t|
  {
  }

  lemma {:induction false} RunExtends(s: CString, t: CString)
    requires NumberRun(s) < |s|
    ensures NumberRun(s + t) == NumberRun(s)
  {
    assert (s + t)[0] == s[0];
    if NumberChar(s[0]) {
      RunExtends(s[1..], t);
      assert (s + t)[1..] == s[1..] + t;
    }
  }

  lemma {:induction false} RunIsNumber(s: CString, i: nat)
    requires i < NumberRun(s)
    ensures NumberChar(s[i])
  {
    if i > 0 { RunIsNumber(s[1..], i - 1); }
  }

  /** Whatever the reading of the run, it is the same with more text behind it. */
  lemma {:induction false} NumberByExtends(scan: string -> Scan, s: CString, t: CString)
    requires scan(s[..NumberRun(s)]).len <= NumberRun(s)
    requires NumberBy(scan, s).Ok? && NumberBy(scan, s).rest != [] && !NumberChar(NumberBy(scan, s).rest[0])
    ensures NumberBy(scan, s + t) == Ok(NumberBy(scan, s).value, NumberBy(scan, s).rest + t)
  {
    var run := NumberRun(s);
    var n := scan(s[..run]).len;
    if n < run { RunIsNumber(s, n); }
    RunExtends(s, t);
    assert (s + t)[..run] == s[..run] && (s + t)[run..] == s[run..] + t;
  }

  lemma {:induction false} WordExtends(s: CString, t: CString)
    requires ParseWord(s).Ok?
    ensures ParseWord(s + t) == Ok(ParseWord(s).value, ParseWord(s).rest + t)
  {
    var n := |s| - |ParseWord(s).rest|;
    assert (s + t)[..n] == s[..n] && (s + t)[n..] == s[n..] + t;
    assert s[..n][0] == s[0] && (s + t)[0] == s[0];
    assert |s + t| >= 4 ==> (s + t)[..4][0] == s[0];
    assert |s + t| >= 5 ==> (s + t)[..5][0] == s[0];
  }

  /** A number that a following byte cannot continue. */
  predicate Ended(p: Parsed<Json>) {
    p.Ok? && (p.value.Num? ==> p.rest != [] && !NumberChar(p.rest[0]))
  }

  /** What was read stays read, whatever text is put behind. */
  lemma {:induction false} ValueExtends(s: CString, t: CString)
    requires Ended(ParseValue(s))
    ensures ParseValue(s + t) == Ok(ParseValue(s).value, ParseValue(s).rest + t)
    decreases |s|, 3
  {
    assert (s + t)[0] == s[0];
    if s[0] == '\"' {
      assert (s + t)[1..] == s[1..] + t;
      CharsExtend(s[1..], t);
    } else if s[0] == '{' {
      assert (s + t)[1..] == s[1..] + t;
      ObjectNotEmpty(SkipBlank(s[1..]));
      SkipExtends(s[1..], t);
      ObjectExtends(SkipBlank(s[1..]), t);
    } else if s[0] == '-' || IsDigit(s[0]) {
      ScanWithin(s[..NumberRun(s)]);
      NumberByExtends(PlainNumber, s, t);
    } else {
      WordExtends(s, t);
    }
  }

  lemma {:induction false} ObjectNotEmpty(s: CString)
    requires ParseObject(s).Ok?
    ensures s != []
  {
  }

  lemma {:induction false} ObjectExtends(s: CString, t: CString)
    requires ParseObject(s).Ok?
    ensures ParseObject(s + t) == Ok(ParseObject(s).value, ParseObject(s).rest + t)
    decreases |s|, 2
  {
    assert (s + t)[0] == s[0];
    if s[0] == '}' { assert (s + t)[1..] == s[1..] + t; } else { MembersExtend(s, t); }
  }

  /** After a value in an object something stands that is no part of a number. */
  lemma {:induction false} AfterEnds(k: CString, v: Json, s: CString)
    requires ParseAfter(k, v, s).Ok?
    ensures s != [] && !NumberChar(s[0])
  {
  }

  lemma {:induction false} MembersHave(s: CString)
    requires ParseMembers(s).Ok?
    ensures s != [] && s[0] == '\"' && ParseChars(s[1..]).Ok?
    ensures Expect(ParseChars(s[1..]).rest, ':').Some?
    ensures ParseValue(Expect(ParseChars(s[1..]).rest, ':').value).Ok?
  {
  }

  /** The key and the value of the first member. */
  lemma {:induction false} FirstExtends(s: CString, t: CString, k: CString, r1: CString, r2: CString, v: Json, r3: CString)
    requires ParseChars(s) == Ok(k, r1) && Expect(r1, ':') == Some(r2) && ParseValue(r2) == Ok(v, r3)
    requires r3 != [] && !NumberChar(r3[0])
    ensures ParseChars(s + t) == Ok(k, r1 + t) && Expect(r1 + t, ':') == Some(r2 + t)
    ensures ParseValue(r2 + t) == Ok(v, r3 + t)
    decreases |s|, 4
  {
    CharsExtend(s, t);
    ExpectExtends(r1, ':', t);
    ValueExtends(r2, t);
  }

  lemma {:induction false} MembersExtend(s: CString, t: CString)
    requires ParseMembers(s).Ok?
    ensures ParseMembers(s + t) == Ok(ParseMembers(s).value, ParseMembers(s).rest + t)
    decreases |s|, 1
  {
    MembersHave(s);
    var Ok(k, r1) := ParseChars(s[1..]);
    var r2 := Expect(r1, ':').value;
    var Ok(v, r3) := ParseValue(r2);
    MembersAre(s, k, r1, r2, v, r3);
    AfterEnds(k, v, r3);
    FirstExtends(s[1..], t, k, r1, r2, v, r3);
    AfterExtends(k, v, r3, t);
    LongerHead(s, t);
    MembersAre(s + t, k, r1 + t, r2 + t, v, r3 + t);
  }

  lemma {:induction false} LongerHead(s: CString, t: CString)
    requires s != []
    ensures s + t != [] && (s + t)[0] == s[0] && (s + t)[1..] == s[1..] + t
  {
  }

  lemma {:induction false} AfterExtends(k: CString, v: Json, s: CString, t: CString)
    requires ParseAfter(k, v, s).Ok?
    ensures ParseAfter(k, v, s + t) == Ok(ParseAfter(k, v, s).value, ParseAfter(k, v, s).rest + t)
    decreases |s|, 0
  {
    if Expect(s, ',').Some? {
      ExpectExtends(s, ',', t);
      MembersExtend(Expect(s, ',').value, t);
    } else {
      var u := SkipBlank(s);
      SkipExtends(s, t);
      assert (u + t)[0] == u[0] && (u + t)[1..] == u[1..] + t;
    }
  }

  // ----- texts that do not read -------------------------------------------------------------

  /** A text that does not go on with this byte, blanks apart. */
  predicate GoesOnOtherwise(s: CString, c: char) {
    SkipBlank(s) == [] || SkipBlank(s)[0] != c
  }

  /** A member needs a quoted key ... */
  lemma {:induction false} KeyNeeded(s: CString)
    requires s == [] || s[0] != '\"'
    ensures ParseMembers(s) == Fail
  {
  }

  /** ... a colon after it ... */
  lemma {:induction false} ColonNeeded(k: CString, s: CString)
    requires GoesOnOtherwise(s, ':')
    ensures ParseMembers(Quote(k, s)) == Fail
  {
    StringRoundTrip(k, s);
  }

  /** ... a comma or a brace after its value ... */
  lemma {:induction false} CommaNeeded(k: CString, j: Json, s: CString)
    requires GoesOnOtherwise(s, ',') && GoesOnOtherwise(s, '}')
    ensures ParseAfter(k, j, s) == Fail
  {
  }

  /** ... and after a comma another member must come. */
  lemma {:induction false} NoTrailingComma(k: CString, j: Json, w: CString, s: CString)
    requires Blank(w) && s != [] && s[0] as int > 32 && s[0] != '\"'
    ensures ParseAfter(k, j, w + ("," + (w + s))) == Fail
  {
    ExpectAround(w, ',', s);
    KeyNeeded(s);
  }

  // ----- texts that break off --------------------------------------------------------------

  lemma {:induction false} ObjectHeadFails(head: CString, tail: CString, ms: Members)
    requires head != [] && head[0] == '{' && tail != []
    requires ParseValue(head + tail) == Ok(Obj(ms), "")
    ensures ParseValue(head) == Fail
  {
    if ParseValue(head).Ok? {
      assert !ParseValue(head).value.Num?;
      ValueExtends(head, tail);
      assert false;
    }
  }

  lemma {:induction false} ObjectHeadIsNothing(text: CString, ms: Members, n: nat)
    requires n < |text| && text[0] == '{' && ParseValue(text) == Ok(Obj(ms), "")
    ensures Parse(text[..n]) == None
  {
    var head := text[..n];
    if n > 0 {
      assert head + text[n..] == text && head[0] == '{';
      ObjectHeadFails(head, text[n..], ms);
      assert SkipBlank(head) == head;
    }
  }

  /** No part of a printed object, short of all of it, reads as anything. */
  lemma {:induction false} BrokenOffFails(ms: Members, n: nat)
    requires n < |Text(Obj(ms))|
    ensures Parse(Text(Obj(ms))[..n]) == None
  {
    assert Text(Obj(ms))[0] == '{';
    ValueRoundTrip(Obj(ms), 0, "");
    ObjectHeadIsNothing(Text(Obj(ms)), ms, n);
  }
}

/** JSON text: the layout `cJSON_Print` produces and the grammar `cJSON_Parse` reads, on the
    fragment the program stores (objects, strings, numbers, and the words null, true and false). */
module JsonText {
  import opened CText
  import opened Decimal
  import opened Json

  // ----- printing: every printer takes the text that follows ------------------------------

  function Tabs(d: nat, rest: CString): CString {
    if d == 0 then rest else "\t" + Tabs(d - 1, rest)
  }

  function HexDigit(n: nat): (c: char)
    requires n < 16
    ensures 0 < c as int < 256
  {
    if n < 10 then (n + '0' as int) as char else (n - 10 + 'a' as int) as char
  }

  predicate IsByte(c: char) { 0 < c as int < 256 }

  function EscapeChar(c: char): CString
    requires IsByte(c)
  {
    if c == '\"' then "\\\""
    else if c == '\\' then "\\\\"
    else if c as int == 8 then "\\b"
    else if c as int == 12 then "\\f"
    else if c == '\n' then "\\n"
    else if c == '\r' then "\\r"
    else if c == '\t' then "\\t"
    else if c as int < 32 then ['\\', 'u', '0', '0', HexDigit(c as int / 16), HexDigit(c as int % 16)]
    else [c]
  }

  function Escape(s: CString, rest: CString): CString {
    if s == [] then rest else EscapeChar(s[0]) + Escape(s[1..], rest)
  }

  function Quote(s: CString, rest: CString): CString { "\"" + Escape(s, "\"" + rest) }

  function WordText(w: Word): CString {
    match w case Null => "null" case True => "true" case False => "false"
  }

  /** `cJSON_Print` of an item at nesting depth `d`, followed by `rest`. */
  function Print(j: Json, d: nat, rest: CString): CString {
    match j
    case Str(s) => Quote(s, rest)
    case Num(n) => DecText(n) + rest
    case Word(w) => WordText(w) + rest
    case Obj(ms) => "{" + ("\n" + PrintMembers(ms, d + 1, Tabs(d, "}" + rest)))
  }

  /** The members, one a line. */
  function PrintMembers(ms: Members, d: nat, rest: CString): CString {
    match ms
    case Nil => rest
    case Cons(k, v, r) =>
      Tabs(d, Quote(k, ":\t" + Print(v, d, (if r.Nil? then "\n" else ",\n") + PrintMembers(r, d, rest))))
  }

  /** The text `cJSON_Print` gives for a whole item. */
  function Text(j: Json): CString { Print(j, 0, "") }

  // ----- parsing -------------------------------------------------------------------------

  datatype Parsed<+T> = Fail | Ok(value: T, rest: CString)

  /** cJSON skips every byte up to and including the blank. */
  function SkipBlank(s: CString): (t: CString)
    ensures |t| <= |s|
  {
    if s != [] && s[0] as int <= 32 then SkipBlank(s[1..]) else s
  }

  /** Skip blanks, require `c`, skip blanks. */
  function Expect(s: CString, c: char): (t: Option<CString>)
    ensures t.Some? ==> |t.value| < |s|
  {
    var t := SkipBlank(s);
    if t != [] && t[0] == c then Some(SkipBlank(t[1..])) else None
  }

  function HexValue(c: char): Option<nat> {
    if '0' <= c <= '9' then Some(c as int - '0' as int)
    else if 'a' <= c <= 'f' then Some(c as int - 'a' as int + 10)
    else if 'A' <= c <= 'F' then Some(c as int - 'A' as int + 10)
    else None
  }

  /** A `\u00hh` escape of an ASCII byte other than NUL. */
  function UnicodeByte(s: CString): (c: Option<char>)
    ensures c.Some? ==> IsByte(c.value)
  {
    if |s| < 4 || s[0] != '0' || s[1] != '0' then None
    else match (HexValue(s[2]), HexValue(s[3]))
      case (Some(h), Some(l)) => if 0 < 16 * h + l < 128 then Some((16 * h + l) as char) else None
      case _ => None
  }

  function SimpleEscape(c: char): (r: Option<char>)
    ensures r.Some? ==> IsByte(r.value)
  {
    if c == '\"' || c == '\\' || c == '/' then Some(c)
    else if c == 'b' then Some(8 as char)
    else if c == 'f' then Some(12 as char)
    else if c == 'n' then Some('\n')
    else if c == 'r' then Some('\r')
    else if c == 't' then Some('\t')
    else None
  }

  function Prefixed(c: Option<char>, p: Parsed<CString>): (r: Parsed<CString>)
    requires c.Some? ==> IsByte(c.value)
    ensures r.Ok? ==> p.Ok? && r.rest == p.rest
  {
    if c.Some? && p.Ok? then Ok([c.value] + p.value, p.rest) else Fail
  }

  /** The body of a string literal, up to and including the closing quote. */
  function ParseChars(s: CString): (p: Parsed<CString>)
    ensures p.Ok? ==> |p.rest| < |s|
    decreases |s|
  {
    if s == [] then Fail
    else if s[0] == '\"' then Ok("", s[1..])
    else if s[0] != '\\' then Prefixed(Some(s[0]), ParseChars(s[1..]))
    else if |s| < 2 then Fail
    else if s[1] != 'u' then Prefixed(SimpleEscape(s[1]), ParseChars(s[2..]))
    else if |s| < 6 then Fail
    else Prefixed(UnicodeByte(s[2..6]), ParseChars(s[6..]))
  }

  function NumberRun(s: CString): (r: nat)
    ensures r <= |s|
  {
    if s == [] || !NumberChar(s[0]) then 0 else 1 + NumberRun(s[1..])
  }

  /** A number: what `strtod` makes of the run of number characters (`Decimal.PlainIsStrToD`). */
  function ParseNumber(s: CString): (p: Parsed<Json>)
    ensures p.Ok? ==> |p.rest| <= |s|
  {
    NumberBy(PlainNumber, s)
  }

  /** A number as this reading of the run finds it. */
  function NumberBy(scan: string -> Scan, s: CString): (p: Parsed<Json>)
    ensures p.Ok? ==> |p.rest| <= |s|
  {
    NumberItem(scan(s[..NumberRun(s)]), s)
  }

  function NumberItem(n: Scan, s: CString): (p: Parsed<Json>)
    ensures p.Ok? ==> |p.rest| <= |s|
  {
    if 0 < n.len <= |s| && n.value.Finite? then Ok(Num(n.value.d), s[n.len..]) else Fail
  }

  predicate Starts(s: CString, word: CString) { |word| <= |s| && s[..|word|] == word }

  function ParseWord(s: CString): (p: Parsed<Json>)
    ensures p.Ok? ==> |p.rest| <= |s|
  {
    if Starts(s, "null") then Ok(Word(Null), s[4..])
    else if Starts(s, "false") then Ok(Word(False), s[5..])
    else if Starts(s, "true") then Ok(Word(True), s[4..])
    else Fail
  }

  function ParseValue(s: CString): (p: Parsed<Json>)
    ensures p.Ok? ==> |p.rest| <= |s|
    decreases |s|
  {
    if s == [] then Fail
    else if s[0] == '\"' then
      match ParseChars(s[1..])
      case Fail => Fail
      case Ok(t, r) => Ok(Str(t), r)
    else if s[0] == '{' then
      ParseObject(SkipBlank(s[1..]))
    else if s[0] == '-' || IsDigit(s[0]) then ParseNumber(s)
    else ParseWord(s)
  }

  /** What follows an opening brace and its blanks. */
  function ParseObject(s: CString): (p: Parsed<Json>)
    ensures p.Ok? ==> |p.rest| <= |s|
    decreases |s|, 1
  {
    if s != [] && s[0] == '}' then Ok(Obj(Nil), s[1..])
    else
      match ParseMembers(s)
      case Fail => Fail
      case Ok(ms, r) => Ok(Obj(ms), r)
  }

  /** One or more members and the closing brace. */
  function ParseMembers(s: CString): (p: Parsed<Members>)
    ensures p.Ok? ==> |p.rest| <= |s|
    decreases |s|, 0
  {
    if s == [] || s[0] != '\"' then Fail
    else match ParseChars(s[1..])
      case Fail => Fail
      case Ok(k, r1) =>
        match Expect(r1, ':')
        case None => Fail
        case Some(r2) =>
          match ParseValue(r2)
          case Fail => Fail
          case Ok(v, r3) => ParseAfter(k, v, r3)
  }

  /** After a member: a comma and more members, or the closing brace. */
  function ParseAfter(k: CString, v: Json, s: CString): (p: Parsed<Members>)
    ensures p.Ok? ==> |p.rest| <= |s|
    decreases |s|
  {
    match Expect(s, ',')
    case Some(t) =>
      (match ParseMembers(t)
       case Fail => Fail
       case Ok(r, u) => Ok(Cons(k, v, r), u))
    case None =>
      var t := SkipBlank(s);
      if t != [] && t[0] == '}' then Ok(Cons(k, v, Nil), t[1..]) else Fail
  }

  /** `cJSON_Parse`: leading blanks are skipped, text after the value is ignored. */
  function Parse(text: CString): Option<Json> {
    match ParseValue(SkipBlank(text))
    case Fail => None
    case Ok(j, _) => Some(j)
  }

  // ----- round trip: strings -------------------------------------------------------------

  lemma {:induction false} CharRoundTrip(c: char, t: CString)
    requires IsByte(c)
    ensures ParseChars(EscapeChar(c) + t) == Prefixed(Some(c), ParseChars(t))
  {
    if |EscapeChar(c)| == 1 {
      assert ([c] + t)[1..] == t;
    } else if |EscapeChar(c)| == 2 {
      ShortEscape(c, t);
    } else {
      LongEscape(c, t);
    }
  }

  lemma {:induction false} ShortEscape(c: char, t: CString)
    requires IsByte(c) && |EscapeChar(c)| == 2
    ensures ParseChars(EscapeChar(c) + t) == Prefixed(Some(c), ParseChars(t))
  {
    var e := EscapeChar(c);
    assert SimpleEscape(e[1]) == Some(c);
    assert (e + t)[0] == e[0] && (e + t)[1] == e[1] && (e + t)[2..] == t;
  }

  lemma {:induction false} LongEscape(c: char, t: CString)
    requires IsByte(c) && |EscapeChar(c)| == 6
    ensures ParseChars(EscapeChar(c) + t) == Prefixed(Some(c), ParseChars(t))
  {
    var e := EscapeChar(c);
    assert (e + t)[..2] == e[..2] && (e + t)[2..6] == e[2..] && (e + t)[6..] == t;
    assert UnicodeByte(e[2..]) == Some(c);
  }

  lemma {:induction false} CharStep(s: CString, t: CString, rest: CString)
    requires s != [] && ParseChars(t) == Ok(s[1..], rest)
    ensures ParseChars(EscapeChar(s[0]) + t) == Ok(s, rest)
  {
    CharRoundTrip(s[0], t);
    assert [s[0]] + s[1..] == s;
  }

  lemma {:induction false} CharsRoundTrip(s: CString, rest: CString)
    ensures ParseChars(Escape(s, "\"" + rest)) == Ok(s, rest)
  {
    if s == [] {
      assert ("\"" + rest)[1..] == rest;
    } else {
      CharsRoundTrip(s[1..], rest);
      CharStep(s, Escape(s[1..], "\"" + rest), rest);
    }
  }

  lemma {:induction false} StringRoundTrip(s: CString, rest: CString)
    ensures |Quote(s, rest)| >= 1 && Quote(s, rest)[0] == '\"'
    ensures ParseChars(Quote(s, rest)[1..]) == Ok(s, rest)
  {
    assert Quote(s, rest)[1..] == Escape(s, "\"" + rest);
    CharsRoundTrip(s, rest);
  }

  // ----- round trip: numbers -------------------------------------------------------------

  predicate NoNumberFirst(s: CString) { s == [] || !NumberChar(s[0]) }

  lemma {:induction false} NumberRunOf(d: CString, rest: CString)
    requires NoNumberFirst(rest) && forall i :: 0 <= i < |d| ==> NumberChar(d[i])
    ensures NumberRun(d + rest) == |d|
  {
    if d == [] {
      assert d + rest == rest;
    } else {
      assert (d + rest)[1..] == d[1..] + rest;
      NumberRunOf(d[1..], rest);
    }
  }

  lemma {:induction false} DecTextRuns(d: Decimal)
    ensures DecText(d) != [] && (DecText(d)[0] == '-' || IsDigit(DecText(d)[0]))
    ensures forall i :: 0 <= i < |DecText(d)| ==> NumberChar(DecText(d)[i])
  {
  }

  lemma {:induction false} NumberRoundTrip(d: Decimal, rest: CString)
    requires NoNumberFirst(rest)
    ensures ParseValue(DecText(d) + rest) == Ok(Num(d), rest)
  {
    var s := DecText(d) + rest;
    DecTextRuns(d);
    assert s[0] == DecText(d)[0];
    NumberStarts(s);
    DecTextScans(d);
    NumberParses(s, DecText(d), d, rest);
  }

  lemma {:induction false} DecTextScans(d: Decimal)
    ensures PlainNumber(DecText(d)) == Scan(Finite(d), |DecText(d)|)
  {
    DecTextRuns(d);
    DecTextReads(d);
    PlainIsStrToD(DecText(d));
  }

  lemma {:induction false} NumberStarts(s: CString)
    requires s != [] && (s[0] == '-' || IsDigit(s[0]))
    ensures ParseValue(s) == ParseNumber(s)
  {
  }

  lemma {:induction false} NumberParses(s: CString, t: CString, d: Decimal, rest: CString)
    requires s == t + rest && NoNumberFirst(rest) && t != [] && forall i :: 0 <= i < |t| ==> NumberChar(t[i])
    requires PlainNumber(t) == Scan(Finite(d), |t|)
    ensures ParseNumber(s) == Ok(Num(d), rest)
  {
    NumberRunOf(t, rest);
    assert s[..|t|] == t && s[|t|..] == rest;
  }

  lemma {:induction false} WordRoundTrip(w: Word, rest: CString)
    ensures ParseValue(WordText(w) + rest) == Ok(Word(w), rest)
  {
    var t := WordText(w);
    assert (t + rest)[..|t|] == t && (t + rest)[|t|..] == rest;
    assert (t + rest)[0] == t[0];
    if |t + rest| >= 5 { assert (t + rest)[..5][0] == t[0]; }
    assert (t + rest)[..4][0] == t[0];
  }

  // ----- round trip: blanks and punctuation ----------------------------------------------

  predicate NoBlankFirst(s: CString) { s == [] || s[0] as int > 32 }

  lemma {:induction false} SkipTabs(d: nat, s: CString)
    requires NoBlankFirst(s)
    ensures SkipBlank(Tabs(d, s)) == s
  {
    if d > 0 {
      SkipTabs(d - 1, s);
      assert Tabs(d, s)[1..] == Tabs(d - 1, s);
    }
  }

  lemma {:induction false} SkipLine(t: CString)
    ensures SkipBlank("\n" + t) == SkipBlank(t)
  {
    assert ("\n" + t)[1..] == t;
  }

  lemma {:induction false} SkipIndent(d: nat, s: CString)
    requires NoBlankFirst(s)
    ensures SkipBlank("\n" + Tabs(d, s)) == s
  {
    SkipLine(Tabs(d, s));
    SkipTabs(d, s);
  }

  lemma {:induction false} PrintStarts(j: Json, d: nat, rest: CString)
    ensures |Print(j, d, rest)| >= 1 && Print(j, d, rest)[0] as int > 32
  {
  }

  /** After `:\t` comes the value. */
  lemma {:induction false} ColonRoundTrip(s: CString)
    requires NoBlankFirst(s)
    ensures Expect(":\t" + s, ':') == Some(s)
  {
    assert (":\t" + s)[1..] == Tabs(1, s);
    SkipTabs(1, s);
  }

  lemma {:induction false} CommaRoundTrip(d: nat, s: CString)
    requires NoBlankFirst(s)
    ensures Expect(",\n" + Tabs(d, s), ',') == Some(s)
  {
    assert (",\n" + Tabs(d, s))[1..] == "\n" + Tabs(d, s);
    SkipIndent(d, s);
  }

  lemma {:induction false} BraceRoundTrip(d: nat, rest: CString)
    ensures SkipBlank("\n" + Tabs(d, "}" + rest)) == "}" + rest
    ensures Expect("\n" + Tabs(d, "}" + rest), ',') == None
    ensures ("}" + rest)[1..] == rest
  {
    SkipIndent(d, "}" + rest);
  }

  /** An opening brace hands the rest, blanks skipped, to the member parser. */
  lemma {:induction false} OpenBrace(t: CString)
    ensures ParseValue("{" + t) == ParseObject(SkipBlank(t))
  {
    assert ("{" + t)[1..] == t;
  }

  // ----- round trip: values --------------------------------------------------------------

  /** The end of an object whose members are printed at depth `d`. */
  function Closing(d: nat, rest: CString): CString
    requires d >= 1
  {
    Tabs(d - 1, "}" + rest)
  }

  function AfterMember(r: Members, d: nat, rest: CString): CString
    requires d >= 1
  {
    (if r.Nil? then "\n" else ",\n") + PrintMembers(r, d, Closing(d, rest))
  }

  /** The first member without its indentation, the others, and the end of the object. */
  function OpenMember(ms: Members, d: nat, rest: CString): (s: CString)
    requires ms.Cons? && d >= 1
    ensures |s| >= 1 && s[0] == '\"'
    ensures PrintMembers(ms, d, Closing(d, rest)) == Tabs(d, s)
  {
    Quote(ms.key, ":\t" + Print(ms.val, d, AfterMember(ms.rest, d, rest)))
  }

  /** Parsing undoes printing, at any nesting depth and for any string content, and stops right
      where the value ends. */
  lemma {:induction false} ValueRoundTrip(j: Json, d: nat, rest: CString)
    requires j.Num? ==> NoNumberFirst(rest)
    ensures ParseValue(Print(j, d, rest)) == Ok(j, rest)
    decreases j
  {
    match j
    case Str(s) => StringRoundTrip(s, rest);
    case Num(n) => NumberRoundTrip(n, rest);
    case Word(w) => WordRoundTrip(w, rest);
    case Obj(ms) =>
      if ms.Nil? {
        EmptyRoundTrip(d, rest);
      } else {
        MembersRoundTrip(ms, d + 1, rest);
        ObjectReads(ms, d, rest, Print(j, d, rest));
      }
  }

  lemma {:induction false} EmptyRoundTrip(d: nat, rest: CString)
    ensures ParseValue(Print(Obj(Nil), d, rest)) == Ok(Obj(Nil), rest)
  {
    BraceRoundTrip(d, rest);
    OpenBrace("\n" + Tabs(d, "}" + rest));
  }

  lemma {:induction false} BraceOpens(text: CString, d: nat, open: CString, ms: Members, rest: CString)
    requires text == "{" + ("\n" + Tabs(d, open))
    requires open != [] && open[0] == '\"' && ParseMembers(open) == Ok(ms, rest)
    ensures ParseValue(text) == Ok(Obj(ms), rest)
  {
    SkipIndent(d, open);
    OpenBrace("\n" + Tabs(d, open));
  }

  lemma {:induction false} PrintOpens(ms: Members, d: nat, rest: CString)
    requires ms.Cons?
    ensures Print(Obj(ms), d, rest) == "{" + ("\n" + Tabs(d + 1, OpenMember(ms, d + 1, rest)))
  {
  }

  /** When its members are read from where they stand, so is the object. */
  lemma {:induction false} ObjectReads(ms: Members, d: nat, rest: CString, text: CString)
    requires ms.Cons? && text == Print(Obj(ms), d, rest)
    requires ParseMembers(OpenMember(ms, d + 1, rest)) == Ok(ms, rest)
    ensures ParseValue(text) == Ok(Obj(ms), rest)
  {
    PrintOpens(ms, d, rest);
    BraceOpens(text, d + 1, OpenMember(ms, d + 1, rest), ms, rest);
  }

  lemma {:induction false} MembersRoundTrip(ms: Members, d: nat, rest: CString)
    requires ms.Cons? && d >= 1
    ensures ParseMembers(OpenMember(ms, d, rest)) == Ok(ms, rest)
    decreases ms, 0
  {
    var after := AfterMember(ms.rest, d, rest);
    var value := Print(ms.val, d, after);
    StringRoundTrip(ms.key, ":\t" + value);
    PrintStarts(ms.val, d, after);
    ColonRoundTrip(value);
    ValueRoundTrip(ms.val, d, after);
    AfterRoundTrip(ms, d, rest);
  }

  lemma {:induction false} AfterRoundTrip(ms: Members, d: nat, rest: CString)
    requires ms.Cons? && d >= 1
    ensures ParseAfter(ms.key, ms.val, AfterMember(ms.rest, d, rest)) == Ok(ms, rest)
    decreases ms.rest, 2
  {
    if ms.rest.Nil? {
      BraceRoundTrip(d - 1, rest);
    } else {
      CommaRoundTrip(d, OpenMember(ms.rest, d, rest));
      MembersRoundTrip(ms.rest, d, rest);
    }
  }

  /** Reading back what was printed loses nothing. */
  lemma {:induction false} RoundTrip(j: Json)
    ensures Parse(Text(j)) == Some(j)
  {
    ValueRoundTrip(j, 0, "");
    PrintStarts(j, 0, "");
  }
}

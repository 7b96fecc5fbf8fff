/** The printed layout, written out flat, and the texts that the unit tests and the shipped file fix. */
module Layout {
  import opened CText
  import opened Decimal
  import opened Json
  import opened JsonText

  // ----- strings -------------------------------------------------------------------------

  /** Bytes that are printed as they are. */
  predicate Verbatim(s: CString) {
    forall i :: 0 <= i < |s| ==> s[i] as int >= 32 && s[i] != '\"' && s[i] != '\\'
  }

  lemma {:induction false} EscapeVerbatim(s: CString, rest: CString)
    requires Verbatim(s)
    ensures Escape(s, rest) == s + rest
  {
    if s == [] {
      assert s + rest == rest;
    } else {
      EscapeVerbatim(s[1..], rest);
      CharVerbatim(s[0]);
      assert [s[0]] + (s[1..] + rest) == s + rest;
    }
  }

  lemma {:induction false} CharVerbatim(c: char)
    requires IsByte(c) && c as int >= 32 && c != '\"' && c != '\\'
    ensures EscapeChar(c) == [c]
  {
  }

  lemma {:induction false} CharPrinted(c: char, e: string)
    requires IsByte(c) && EscapeChar(c) == e
    ensures Text(Str([c])) == "\"" + e + "\""
  {
    var s: CString := [c];
    assert s[1..] == [];
    assert Escape(s, "\"" + "") == e + "\"";
  }

  /** How each byte that is not printed as it is comes out. */
  lemma {:induction false} EscapesAre()
    ensures Text(Str(['\"'])) == "\"" + "\\\"" + "\"" && Text(Str(['\\'])) == "\"" + "\\\\" + "\""
    ensures Text(Str(['\n'])) == "\"" + "\\n" + "\"" && Text(Str(['\r'])) == "\"" + "\\r" + "\""
    ensures Text(Str(['\t'])) == "\"" + "\\t" + "\""
    ensures Text(Str([8 as char])) == "\"" + "\\b" + "\"" && Text(Str([12 as char])) == "\"" + "\\f" + "\""
  {
    CharPrinted('\"', "\\\"");
    CharPrinted('\\', "\\\\");
    CharPrinted('\n', "\\n");
    CharPrinted('\r', "\\r");
    CharPrinted('\t', "\\t");
    CharPrinted(8 as char, "\\b");
    CharPrinted(12 as char, "\\f");
  }

  /** The other control bytes come out by number. */
  lemma {:induction false} ControlsAre(c: char)
    requires 0 < c as int < 32 && c as int !in {8, 9, 10, 12, 13}
    ensures Text(Str([c])) == "\"" + ("\\u00" + (if c as int < 16 then "0" else "1") + ["0123456789abcdef"[c as int % 16]]) + "\""
  {
    CharPrinted(c, EscapeChar(c));
  }

  // ----- the flat layout -----------------------------------------------------------------

  function TabsOf(d: nat): string { seq(d, _ => '\t') }

  /** Indentation is one tab a level. */
  lemma {:induction false} TabsAre(d: nat, rest: CString)
    ensures Tabs(d, rest) == TabsOf(d) + rest
  {
    if d == 0 {
      assert TabsOf(0) + rest == rest;
    } else {
      TabsAre(d - 1, rest);
      assert TabsOf(d) == ['\t'] + TabsOf(d - 1);
    }
  }

  function Quoted(s: CString): string { Quote(s, "") }

  /** An item as it stands on the page at depth `d`. */
  function Shown(j: Json, d: nat): string {
    match j
    case Str(s) => Quoted(s)
    case Num(n) => DecText(n)
    case Word(w) => match w { case Null => "null" case True => "true" case False => "false" }
    case Obj(ms) => "{\n" + ShownMembers(ms, d + 1) + TabsOf(d) + "}"
  }

  /** One line for each member, a comma after each but the last. */
  function ShownMembers(ms: Members, d: nat): string {
    match ms
    case Nil => ""
    case Cons(k, v, r) =>
      TabsOf(d) + Quoted(k) + ":\t" + Shown(v, d) + (if r.Nil? then "\n" else ",\n") + ShownMembers(r, d)
  }

  lemma {:induction false} EscapeIsFlat(s: CString, rest: CString)
    ensures Escape(s, rest) == Escape(s, "") + rest
  {
    if s == [] {
      assert [] + rest == rest;
    } else {
      EscapeIsFlat(s[1..], rest);
      Reassoc(EscapeChar(s[0]), Escape(s[1..], ""), rest);
    }
  }

  lemma {:induction false} Reassoc(a: string, b: string, c: string)
    ensures a + (b + c) == a + b + c
  {
  }

  lemma {:induction false} QuoteIsFlat(s: CString, rest: CString)
    ensures Quote(s, rest) == Quoted(s) + rest
  {
    EscapeIsFlat(s, "\"" + rest);
    EscapeIsFlat(s, "\"" + "");
    Reassoc("\"", Escape(s, ""), "\"" + rest);
    Reassoc("\"" + Escape(s, ""), "\"", rest);
    Reassoc("\"", Escape(s, ""), "\"" + "");
    assert "\"" + "" == "\"";
  }

  lemma {:induction false} Reassoc5(a: string, b: string, c: string, d: string, e: string)
    ensures a + (b + (c + (d + e))) == a + b + c + d + e
  {
  }

  /** The printer writes the flat layout. */
  lemma {:induction false} PrintIsFlat(j: Json, d: nat, rest: CString)
    ensures Print(j, d, rest) == Shown(j, d) + rest
    decreases j
  {
    match j
    case Str(s) => QuoteIsFlat(s, rest);
    case Num(n) =>
    case Word(w) =>
    case Obj(ms) =>
      var close: CString := Tabs(d, "}" + rest);
      MembersAreFlat(ms, d + 1, close);
      TabsAre(d, "}" + rest);
      Reassoc5("{", "\n", ShownMembers(ms, d + 1), TabsOf(d), "}" + rest);
      assert "{" + "\n" == "{\n";
      Reassoc("{\n" + ShownMembers(ms, d + 1) + TabsOf(d), "}", rest);
  }

  lemma {:induction false} MembersAreFlat(ms: Members, d: nat, rest: CString)
    ensures PrintMembers(ms, d, rest) == ShownMembers(ms, d) + rest
    decreases ms
  {
    match ms
    case Nil => assert "" + rest == rest;
    case Cons(k, v, r) =>
      var sep: CString := if r.Nil? then "\n" else ",\n";
      var after: CString := sep + PrintMembers(r, d, rest);
      MembersAreFlat(r, d, rest);
      PrintIsFlat(v, d, after);
      QuoteIsFlat(k, ":\t" + Print(v, d, after));
      TabsAre(d, Quote(k, ":\t" + Print(v, d, after)));
      LineIsFlat(TabsOf(d), Quoted(k), Shown(v, d), sep, ShownMembers(r, d), rest);
  }

  lemma {:induction false} LineIsFlat(t: string, k: string, v: string, sep: string, more: string, rest: string)
    ensures t + (k + (":\t" + (v + (sep + (more + rest))))) == t + k + ":\t" + v + sep + more + rest
  {
  }

  lemma {:induction false} TextIsFlat(j: Json)
    ensures Text(j) == Shown(j, 0)
  {
    PrintIsFlat(j, 0, "");
    assert Shown(j, 0) + "" == Shown(j, 0);
  }

  // ----- the layouts that the unit tests fix ----------------------------------------------

  lemma {:induction false} QuotedVerbatim(s: CString)
    requires Verbatim(s)
    ensures Quoted(s) == "\"" + s + "\""
  {
    EscapeVerbatim(s, "\"" + "");
    assert "\"" + (s + ("\"" + "")) == "\"" + s + "\"";
  }

  lemma {:induction false} OneTab()
    ensures TabsOf(0) == "" && TabsOf(1) == "\t" && TabsOf(2) == "\t\t" && TabsOf(3) == "\t\t\t"
  {
  }

  /** A member with a string value on its line. */
  function Pair(k: string, v: string): string { "\"" + k + "\":\t\"" + v + "\"" }

  function Sep(r: Members): string { if r.Nil? then "\n" else ",\n" }

  lemma {:induction false} StringLine(k: CString, v: CString, r: Members, d: nat)
    requires Verbatim(k) && Verbatim(v)
    ensures ShownMembers(Cons(k, Str(v), r), d) == TabsOf(d) + Pair(k, v) + Sep(r) + ShownMembers(r, d)
  {
    QuotedVerbatim(k);
    QuotedVerbatim(v);
    PairIs(TabsOf(d), k, v);
  }

  lemma {:induction false} PairIs(t: string, k: string, v: string)
    ensures t + ("\"" + k + "\"") + ":\t" + ("\"" + v + "\"") == t + Pair(k, v)
  {
  }

  /** A member with a number. */
  lemma {:induction false} NumberLine(k: CString, n: int, r: Members, d: nat)
    requires Verbatim(k)
    ensures ShownMembers(Cons(k, Number(n), r), d)
         == TabsOf(d) + ("\"" + k + "\":\t" + IntText(n)) + Sep(r) + ShownMembers(r, d)
  {
    QuotedVerbatim(k);
    IntTextIsDec(n);
    KeyIs(TabsOf(d), k, IntText(n));
  }

  lemma {:induction false} KeyIs(t: string, k: string, v: string)
    ensures t + ("\"" + k + "\"") + ":\t" + v == t + ("\"" + k + "\":\t" + v)
  {
  }

  /** A member with an object: its own members one level further in. */
  lemma {:induction false} ObjectLine(k: CString, ms: Members, r: Members, d: nat)
    requires Verbatim(k)
    ensures ShownMembers(Cons(k, Obj(ms), r), d)
         == TabsOf(d) + ("\"" + k + "\":\t{\n") + ShownMembers(ms, d + 1) + TabsOf(d) + "}" + Sep(r) + ShownMembers(r, d)
  {
    QuotedVerbatim(k);
    OpenIs(TabsOf(d), k, ShownMembers(ms, d + 1), TabsOf(d));
  }

  lemma {:induction false} OpenIs(t: string, k: string, ms: string, u: string)
    ensures t + ("\"" + k + "\"") + ":\t" + ("{\n" + ms + u + "}") == t + ("\"" + k + "\":\t{\n") + ms + u + "}"
  {
  }

  lemma {:induction false} Whole(ms: Members)
    ensures Text(Obj(ms)) == "{\n" + ShownMembers(ms, 1) + "}"
  {
    TextIsFlat(Obj(ms));
    OneTab();
  }

  /** One member: a tab, the key, a colon and a tab, the value. */
  lemma {:induction false} PairLayout(k: CString, v: CString)
    requires Verbatim(k) && Verbatim(v)
    ensures Text(Obj(Cons(k, Str(v), Nil))) == "{\n" + ("\t" + Pair(k, v) + "\n") + "}"
  {
    Whole(Cons(k, Str(v), Nil));
    StringLine(k, v, Nil, 1);
    OneTab();
  }

  /** Two members: a comma and a line break between them. */
  lemma {:induction false} TwoLayout(k: CString, v: CString, k': CString, v': CString)
    requires Verbatim(k) && Verbatim(v) && Verbatim(k') && Verbatim(v')
    ensures Text(Obj(Cons(k, Str(v), Cons(k', Str(v'), Nil))))
         == "{\n" + ("\t" + Pair(k, v) + ",\n" + ("\t" + Pair(k', v') + "\n")) + "}"
  {
    var more := Cons(k', Str(v'), Nil);
    Whole(Cons(k, Str(v), more));
    StringLine(k, v, more, 1);
    StringLine(k', v', Nil, 1);
    OneTab();
  }

  /** An object inside an object: one tab more, and the brace back at the key's own level. */
  lemma {:induction false} NestedLayout(k: CString, k': CString, v: CString)
    requires Verbatim(k) && Verbatim(k') && Verbatim(v)
    ensures Text(Obj(Cons(k, Obj(Cons(k', Str(v), Nil)), Nil)))
         == "{\n" + ("\t" + ("\"" + k + "\":\t{\n") + ("\t\t" + Pair(k', v) + "\n") + "\t" + "}" + "\n") + "}"
  {
    var inner := Cons(k', Str(v), Nil);
    Whole(Cons(k, Obj(inner), Nil));
    ObjectLine(k, inner, Nil, 1);
    StringLine(k', v, Nil, 2);
    OneTab();
  }

  lemma {:induction false} EmptyLayout()
    ensures Text(Obj(Nil)) == "{\n}"
  {
    Whole(Nil);
  }
}

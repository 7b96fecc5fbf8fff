/** The handler case by case, and the unit tests of the handler as theorems. */
module UnitTests {
  import opened CText
  import opened Json
  import opened JsonText
  import opened CjsonHandler
  import opened Grammar
  import opened Layout

  // ----- adding, case by case --------------------------------------------------------------

  /** What the text after an add reads as, for an object: the new member comes last; a key that is
      there is replaced with OVERRIDE and kept without. */
  lemma {:induction false} AddReads(text: CString, ms: Members, k: CString, value: CString, flags: Flags, v: Json)
    requires Parse(text) == Some(Obj(ms)) && MakeValue(value, flags) == Some(v)
    ensures var r := Add(text, k, value, flags);
            if Lookup(ms, k).None? then r.Added? && Parse(r.text) == Some(Obj(Concat(ms, Cons(k, v, Nil))))
            else if flags.overwrite then r.Added? && Parse(r.text) == Some(Obj(Concat(DeleteFold(ms, k), Cons(k, v, Nil))))
            else r == Kept
  {
    RoundTrip(Obj(Override(ms, k, v)));
  }

  /** The three combinations the program uses all replace a key that is there; two of them read the value
      as a number or as an object. */
  lemma {:induction false} FlagsReplace(text: CString, ms: Members, k: CString, value: CString)
    requires Parse(text) == Some(Obj(ms))
    ensures Add(text, k, value, OVERRIDE) == Added(Text(Obj(Override(ms, k, Str(value)))))
    ensures Add(text, k, value, OVERRIDE_INT) == Added(Text(Obj(Override(ms, k, IntItem(value)))))
    ensures Parse(value).Some? ==>
              Add(text, k, value, OVERRIDE_OBJ) == Added(Text(Obj(Override(ms, k, Parse(value).value))))
  {
  }

  /** A text that does not read counts as an empty object, whatever the flags. */
  lemma {:induction false} AddToBadText(text: CString, k: CString, value: CString, flags: Flags, v: Json)
    requires Parse(text) == None && MakeValue(value, flags) == Some(v)
    ensures var r := Add(text, k, value, flags); r.Added? && Parse(r.text) == Some(Obj(Cons(k, v, Nil)))
  {
    RoundTrip(Obj(Cons(k, v, Nil)));
  }

  /** An item that is not an object takes no members: its text comes out as before. */
  lemma {:induction false} AddToOtherItem(text: CString, j: Json, k: CString, value: CString, flags: Flags)
    requires Parse(text) == Some(j) && !j.Obj? && MakeValue(value, flags).Some?
    ensures Add(text, k, value, flags) == Added(Text(j)) && Parse(Text(j)) == Some(j)
  {
    RoundTrip(j);
  }

  /** Without INTPARSE a numeric text stays a text; a value that should be an object and does not read
      is the only error. */
  lemma ValuesMade(text: CString, value: CString, k: CString, flags: Flags)
    ensures !flags.intParse && !flags.objParse ==> MakeValue(value, flags) == Some(Str(value))
    ensures !flags.intParse && flags.objParse ==> MakeValue(value, flags) == Parse(value)
    ensures Add(text, k, value, flags) == Failed <==> MakeValue(value, flags) == None
    ensures MakeValue(value, flags) == None ==> flags.objParse && Parse(value) == None
  {
  }

  // ----- the unit tests ---------------------------------------------------------------------

  lemma {:induction false} CompactPair(k: CString, v: CString, rest: CString)
    requires Verbatim(k) && Verbatim(v)
    ensures Spaced(Obj(Cons(k, Str(v), Nil)), "", rest) == "{" + ("\"" + k + "\":\"" + v + "\"}" + rest)
  {
    var ms := Cons(k, Str(v), Nil);
    assert AfterValue(Nil, "", rest) == "}" + rest;
    QuoteIsFlat(v, "}" + rest);
    QuotedVerbatim(v);
    var value := Quote(v, "}" + rest);
    assert Spaced(Str(v), "", AfterValue(Nil, "", rest)) == value;
    assert "" + (":" + ("" + value)) == ":" + value;
    assert SpacedMembers(ms, "", rest) == Quote(k, ":" + value);
    QuoteIsFlat(k, ":" + Quote(v, "}" + rest));
    QuotedVerbatim(k);
    CompactIs(k, v, rest);
    assert "" + SpacedMembers(ms, "", rest) == SpacedMembers(ms, "", rest);
  }

  lemma {:induction false} CompactIs(k: string, v: string, rest: string)
    ensures ("\"" + k + "\"") + (":" + (("\"" + v + "\"") + ("}" + rest))) == "\"" + k + "\":\"" + v + "\"}" + rest
  {
  }

  lemma {:induction false} CompactPairReads(k: CString, v: CString, rest: CString)
    requires Verbatim(k) && Verbatim(v)
    ensures Parse("{" + ("\"" + k + "\":\"" + v + "\"}" + rest)) == Some(Obj(Cons(k, Str(v), Nil)))
  {
    CompactPair(k, v, rest);
    AnyBlanksParse(Obj(Cons(k, Str(v), Nil)), "", rest);
    assert "" + Spaced(Obj(Cons(k, Str(v), Nil)), "", rest) == Spaced(Obj(Cons(k, Str(v), Nil)), "", rest);
  }

  /** A pair added to a buffer that does not read. */
  lemma {:induction false} AddPairTest(buffer: CString, k: CString, v: CString)
    requires Parse(buffer) == None && Verbatim(k) && Verbatim(v)
    ensures Add(buffer, k, v, OVERRIDE) == Added("{\n" + ("\t" + Pair(k, v) + "\n") + "}")
  {
    PairLayout(k, v);
  }

  lemma {:induction false} AddKeyValueTest(buffer: CString, k: CString, v: CString)
    requires Parse(buffer) == None && k == "key" && v == "value"
    ensures Add(buffer, k, v, OVERRIDE) == Added("{\n\t\"key\":\t\"value\"\n}")
  {
    AddPairTest(buffer, k, v);
    PairTextIs(k, v);
  }

  lemma {:induction false} PairTextIs(k: string, v: string)
    requires k == "key" && v == "value"
    ensures "{\n" + ("\t" + Pair(k, v) + "\n") + "}" == "{\n\t\"key\":\t\"value\"\n}"
  {
  }

  /** A compact object added under a key comes out nested and indented. */
  lemma {:induction false} AddObject(buffer: CString, k: CString, k': CString, v: CString, value: CString)
    requires Parse(buffer) == None && Verbatim(k) && Verbatim(k') && Verbatim(v)
    requires value == "{" + ("\"" + k' + "\":\"" + v + "\"}" + "")
    ensures Add(buffer, k, value, OVERRIDE_OBJ)
         == Added("{\n" + ("\t" + ("\"" + k + "\":\t{\n") + ("\t\t" + Pair(k', v) + "\n") + "\t" + "}" + "\n") + "}")
  {
    CompactPairReads(k', v, "");
    NestedLayout(k, k', v);
  }

  lemma {:induction false} AddObjectTest(buffer: CString, k: CString, v: CString, value: CString)
    requires Parse(buffer) == None && k == "key" && v == "value" && value == "{\"key\":\"value\"}"
    ensures Add(buffer, k, value, OVERRIDE_OBJ) == Added("{\n\t\"key\":\t{\n\t\t\"key\":\t\"value\"\n\t}\n}")
  {
    CompactTextIs(k, v);
    AddObject(buffer, k, k, v, value);
    NestedTextIs(k, v);
  }

  lemma {:induction false} CompactTextIs(k: string, v: string)
    requires k == "key" && v == "value"
    ensures "{" + ("\"" + k + "\":\"" + v + "\"}" + "") == "{\"key\":\"value\"}"
  {
  }

  lemma {:induction false} NestedTextIs(k: string, v: string)
    requires k == "key" && v == "value"
    ensures "{\n" + ("\t" + ("\"" + k + "\":\t{\n") + ("\t\t" + Pair(k, v) + "\n") + "\t" + "}" + "\n") + "}"
         == "{\n\t\"key\":\t{\n\t\t\"key\":\t\"value\"\n\t}\n}"
  {
  }

  lemma {:induction false} OverrideTwo(k1: CString, v1: Json, k2: CString, v2: Json, k: CString, v: Json)
    requires k != k1 && k != k2
    ensures Override(Cons(k1, v1, Cons(k2, v2, Nil)), k, v) == Cons(k1, v1, Cons(k2, v2, Cons(k, v, Nil)))
  {
    var r := Cons(k2, v2, Nil);
    assert Lookup(r, k) == None && Lookup(Cons(k1, v1, r), k) == None;
    assert Concat(r, Cons(k, v, Nil)) == Cons(k2, v2, Cons(k, v, Nil));
  }

  /** Two strings and an object with these lines. */
  function ThreeText(k1: string, v1: string, k2: string, v2: string, k: string, lines: string): string {
    "{\n" + ("\t" + Pair(k1, v1) + ",\n" + ("\t" + Pair(k2, v2) + ",\n" + (
    "\t" + ("\"" + k + "\":\t{\n") + lines + "\t" + "}" + "\n"))) + "}"
  }

  lemma {:induction false} ThreeLayout(k1: CString, v1: CString, k2: CString, v2: CString, k: CString, inner: Members)
    requires Verbatim(k1) && Verbatim(v1) && Verbatim(k2) && Verbatim(v2) && Verbatim(k)
    ensures Text(Obj(Cons(k1, Str(v1), Cons(k2, Str(v2), Cons(k, Obj(inner), Nil)))))
         == ThreeText(k1, v1, k2, v2, k, ShownMembers(inner, 2))
  {
    var last := Cons(k, Obj(inner), Nil);
    OneTab();
    ObjectLine(k, inner, Nil, 1);
    StringLine(k2, v2, last, 1);
    StringLine(k1, v1, Cons(k2, Str(v2), last), 1);
    Layout.Whole(Cons(k1, Str(v1), Cons(k2, Str(v2), last)));
  }

  /** An object added to an object of two strings: it comes last, its own members one level further in. */
  lemma {:induction false} AddToTwoTest(text: CString, value: CString, inner: Members,
                                        k1: CString, v1: CString, k2: CString, v2: CString, k: CString)
    requires Parse(text) == Some(Obj(Cons(k1, Str(v1), Cons(k2, Str(v2), Nil)))) && Parse(value) == Some(Obj(inner))
    requires k != k1 && k != k2
    requires Verbatim(k1) && Verbatim(v1) && Verbatim(k2) && Verbatim(v2) && Verbatim(k)
    ensures var r := Add(text, k, value, OVERRIDE_OBJ);
            r.Added? && r.text == ThreeText(k1, v1, k2, v2, k, ShownMembers(inner, 2))
  {
    FlagsObject(text, Cons(k1, Str(v1), Cons(k2, Str(v2), Nil)), k, value);
    OverrideTwo(k1, Str(v1), k2, Str(v2), k, Obj(inner));
    ThreeLayout(k1, v1, k2, v2, k, inner);
  }

  lemma {:induction false} FlagsObject(text: CString, ms: Members, k: CString, value: CString)
    requires Parse(text) == Some(Obj(ms)) && Parse(value).Some?
    ensures Add(text, k, value, OVERRIDE_OBJ) == Added(Text(Obj(Override(ms, k, Parse(value).value))))
  {
  }

  /** A nested value is copied out as text of its own, with the indentation of a whole item. */
  lemma {:induction false} GetNestedTest(text: CString, k: CString, k': CString, v: CString, k1: CString, v1: Json)
    requires Parse(text) == Some(Obj(Cons(k1, v1, Cons(k, Obj(Cons(k', Str(v), Nil)), Nil)))) && k1 != k
    requires Verbatim(k') && Verbatim(v)
    ensures Get(text, k) == Some("{\n" + ("\t" + Pair(k', v) + "\n") + "}")
  {
    var inner := Obj(Cons(k', Str(v), Nil));
    PairLayout(k', v);
    assert Lookup(Cons(k, inner, Nil), k) == Some(inner);
    assert Member(Obj(Cons(k1, v1, Cons(k, inner, Nil))), k) == Some(inner);
  }
}

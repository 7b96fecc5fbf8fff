/** The state file that the repository ships, line by line. */
module ShippedFile {
  import opened CText
  import opened Json
  import opened JsonText
  import opened Layout
  import opened StateRuns
  import opened ShippedState

  lemma {:induction false} Digits()
    ensures IntText(74) == "74" && IntText(70) == "70" && IntText(65) == "65"
    ensures IntText(200) == "200" && IntText(100) == "100" && IntText(1) == "1"
  {
    assert NatText(7) == "7" && NatText(6) == "6" && NatText(2) == "2" && NatText(1) == "1";
    assert NatText(20) == "20" && NatText(10) == "10";
  }

  /** `"key": value`, and the opening line of an object. */
  function Entry(k: string, t: string): string { "\"" + k + "\":\t" + t }

  function Open(k: string): string { "\"" + k + "\":\t{\n" }

  function AlertLines(): string {
    "\t\t" + Entry("NORTH", "74") + ",\n" + (
    "\t\t" + Entry("EAST", "70") + ",\n" + (
    "\t\t" + Entry("WEST", "70") + ",\n" + (
    "\t\t" + Entry("SOUTH", "65") + "\n")))
  }

  function SupplyLines(): string {
    "\t\t" + Open("food") + ("\t\t\t" + Entry("vegetables", "200") + "\n") + "\t\t" + "}" + ",\n" + (
    "\t\t" + Open("medicine") + (
      "\t\t\t" + Entry("antibiotics", "1") + ",\n" + (
      "\t\t\t" + Entry("analgesics", "100") + "\n")) + "\t\t" + "}" + "\n")
  }

  function EventLines(keepalive: string, event: string): string {
    "\t\t" + Pair("last_keepalived", keepalive) + ",\n" + ("\t\t" + Pair("last_event", event) + "\n")
  }

  /** The file with these two events recorded. */
  function FileText(keepalive: string, event: string): string {
    "{\n" + (
    "\t" + Open("alerts") + AlertLines() + "\t" + "}" + ",\n" + (
    "\t" + Open("supplies") + SupplyLines() + "\t" + "}" + ",\n" + (
    "\t" + Open("emergency") + EventLines(keepalive, event) + "\t" + "}" + "\n"))) + "}"
  }

  function Events(keepalive: CString, event: CString): Members {
    Cons("last_keepalived", Str(keepalive), Cons("last_event", Str(event), Nil))
  }

  lemma {:induction false} NothingMore(t: string)
    ensures t + "" == t
  {
  }

  // ----- objects of these kinds, for any keys ----------------------------------------------

  lemma {:induction false} OneNumber(k: CString, n: int, d: nat)
    requires Verbatim(k)
    ensures ShownMembers(Cons(k, Number(n), Nil), d) == TabsOf(d) + Entry(k, IntText(n)) + "\n"
  {
    NumberLine(k, n, Nil, d);
    NothingMore(TabsOf(d) + Entry(k, IntText(n)) + "\n");
  }

  lemma {:induction false} NumberThen(k: CString, n: int, r: Members, d: nat)
    requires Verbatim(k) && r.Cons?
    ensures ShownMembers(Cons(k, Number(n), r), d) == TabsOf(d) + Entry(k, IntText(n)) + ",\n" + ShownMembers(r, d)
  {
    NumberLine(k, n, r, d);
  }

  lemma {:induction false} ObjectThen(k: CString, ms: Members, r: Members, d: nat)
    requires Verbatim(k) && r.Cons?
    ensures ShownMembers(Cons(k, Obj(ms), r), d)
         == TabsOf(d) + Open(k) + ShownMembers(ms, d + 1) + TabsOf(d) + "}" + ",\n" + ShownMembers(r, d)
  {
    ObjectLine(k, ms, r, d);
  }

  lemma {:induction false} OneObject(k: CString, ms: Members, d: nat)
    requires Verbatim(k)
    ensures ShownMembers(Cons(k, Obj(ms), Nil), d)
         == TabsOf(d) + Open(k) + ShownMembers(ms, d + 1) + TabsOf(d) + "}" + "\n"
  {
    ObjectLine(k, ms, Nil, d);
    NothingMore(TabsOf(d) + Open(k) + ShownMembers(ms, d + 1) + TabsOf(d) + "}" + "\n");
  }

  lemma {:induction false} TwoStrings(k: CString, v: CString, k': CString, v': CString, d: nat)
    requires Verbatim(k) && Verbatim(v) && Verbatim(k') && Verbatim(v')
    ensures ShownMembers(Cons(k, Str(v), Cons(k', Str(v'), Nil)), d)
         == TabsOf(d) + Pair(k, v) + ",\n" + (TabsOf(d) + Pair(k', v') + "\n")
  {
    StringLine(k, v, Cons(k', Str(v'), Nil), d);
    StringLine(k', v', Nil, d);
    NothingMore(TabsOf(d) + Pair(k', v') + "\n");
  }

  lemma {:induction false} AlertKeysVerbatim()
    ensures Verbatim("NORTH") && Verbatim("EAST") && Verbatim("WEST") && Verbatim("SOUTH")
  {
  }

  lemma {:induction false} SupplyKeysVerbatim()
    ensures Verbatim("food") && Verbatim("medicine")
    ensures Verbatim("vegetables") && Verbatim("antibiotics") && Verbatim("analgesics")
  {
  }

  lemma {:induction false} OtherKeysVerbatim()
    ensures Verbatim("alerts") && Verbatim("supplies") && Verbatim("emergency")
    ensures Verbatim("last_keepalived") && Verbatim("last_event")
  {
  }

  // ----- the sections of the file ------------------------------------------------------------

  lemma {:induction false} AlertsShown()
    ensures ShownMembers(Counters(), 2) == AlertLines()
  {
    var e := Counters().rest;
    Digits();
    OneTab();
    AlertKeysVerbatim();
    NumberThen("NORTH", 74, e, 2);
    NumberThen("EAST", 70, e.rest, 2);
    NumberThen("WEST", 70, e.rest.rest, 2);
    OneNumber("SOUTH", 65, 2);
  }

  lemma {:induction false} MedicineShown(ms: Members)
    requires ms == Cons("antibiotics", Number(1), Cons("analgesics", Number(100), Nil))
    ensures ShownMembers(ms, 3)
         == "\t\t\t" + Entry("antibiotics", "1") + ",\n" + ("\t\t\t" + Entry("analgesics", "100") + "\n")
  {
    Digits();
    OneTab();
    SupplyKeysVerbatim();
    NumberThen("antibiotics", 1, ms.rest, 3);
    OneNumber("analgesics", 100, 3);
  }

  lemma {:induction false} FoodShown(ms: Members)
    requires ms == Cons("vegetables", Number(200), Nil)
    ensures ShownMembers(ms, 3) == "\t\t\t" + Entry("vegetables", "200") + "\n"
  {
    Digits();
    OneTab();
    SupplyKeysVerbatim();
    OneNumber("vegetables", 200, 3);
  }

  lemma {:induction false} SuppliesShown()
    ensures ShownMembers(Stock(), 2) == SupplyLines()
  {
    var r := Stock().rest;
    OneTab();
    SupplyKeysVerbatim();
    FoodShown(Stock().val.ms);
    MedicineShown(r.val.ms);
    OneObject("medicine", r.val.ms, 2);
    ObjectThen("food", Stock().val.ms, r, 2);
  }

  lemma {:induction false} EventsShown(keepalive: CString, event: CString)
    requires Verbatim(keepalive) && Verbatim(event)
    ensures ShownMembers(Events(keepalive, event), 2) == EventLines(keepalive, event)
  {
    OneTab();
    OtherKeysVerbatim();
    TwoStrings("last_keepalived", keepalive, "last_event", event, 2);
  }

  lemma {:induction false} ThreeObjects(a: CString, ms: Members, b: CString, ns: Members, c: CString, ps: Members)
    requires Verbatim(a) && Verbatim(b) && Verbatim(c)
    ensures Text(Obj(Cons(a, Obj(ms), Cons(b, Obj(ns), Cons(c, Obj(ps), Nil)))))
         == "{\n" + (
              "\t" + Open(a) + ShownMembers(ms, 2) + "\t" + "}" + ",\n" + (
              "\t" + Open(b) + ShownMembers(ns, 2) + "\t" + "}" + ",\n" + (
              "\t" + Open(c) + ShownMembers(ps, 2) + "\t" + "}" + "\n"))) + "}"
  {
    var r := Cons(c, Obj(ps), Nil);
    OneTab();
    OneObject(c, ps, 1);
    ObjectThen(b, ns, r, 1);
    ObjectThen(a, ms, Cons(b, Obj(ns), r), 1);
    Layout.Whole(Cons(a, Obj(ms), Cons(b, Obj(ns), r)));
  }

  /** The text of the shipped state is the file, byte for byte. */
  lemma {:induction false} ShippedTextIs(keepalive: CString, event: CString)
    requires Verbatim(keepalive) && Verbatim(event)
    ensures Text(Obj(Shipped(Events(keepalive, event)))) == FileText(keepalive, event)
  {
    AlertsShown();
    SuppliesShown();
    EventsShown(keepalive, event);
    OtherKeysVerbatim();
    ThreeObjects("alerts", Counters(), "supplies", Stock(), "emergency", Events(keepalive, event));
  }

  lemma {:induction false} TextThen(j: Json, rest: CString)
    requires j.Obj?
    ensures Parse(Text(j) + rest) == Some(j)
  {
    TextIsFlat(j);
    PrintIsFlat(j, 0, rest);
    ValueRoundTrip(j, 0, rest);
    PrintStarts(j, 0, rest);
  }

  /** The file reads, with a line break after it as in the repository, as a state that meets the schema. */
  lemma {:induction false} ShippedFileIsGood(keepalive: CString, event: CString, text: CString)
    requires Verbatim(keepalive) && Verbatim(event) && text == FileText(keepalive, event) + "\n"
    ensures GoodText(text) && Top(text) == Shipped(Events(keepalive, event))
  {
    var j := Obj(Shipped(Events(keepalive, event)));
    ShippedTextIs(keepalive, event);
    TextThen(j, "\n");
    ShippedStateIsGood(Events(keepalive, event));
    RoundTrip(j);
  }
}

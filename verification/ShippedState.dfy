/** The state file the repository ships, and the printed layout its unit tests fix. */
module ShippedState {
  import opened CText
  import opened Json
  import opened JsonText
  import opened StateFile
  import opened StateJobs
  import opened StateRuns

  function Counters(): Members {
    Cons("NORTH", Number(74), Cons("EAST", Number(70), Cons("WEST", Number(70), Cons("SOUTH", Number(65), Nil))))
  }

  function Stock(): Members {
    Cons("food", Obj(Cons("vegetables", Number(200), Nil)),
    Cons("medicine", Obj(Cons("antibiotics", Number(1), Cons("analgesics", Number(100), Nil))), Nil))
  }

  /** The shipped state, for any recorded events. */
  function Shipped(events: Members): Members {
    Cons(ALERTS, Obj(Counters()), Cons(SUPPLIES, Obj(Stock()), Cons(EMERGENCY, Obj(events), Nil)))
  }

  lemma CountersUnique()
    ensures UniqueFold(Counters())
  {
    assert Lower("NORTH"[0]) != Lower("SOUTH"[0]);
    assert Lower("EAST"[0]) != Lower("WEST"[0]);
    assert !EqFold("SOUTH", "WEST") && !EqFold("SOUTH", "EAST") && !EqFold("SOUTH", "NORTH");
    assert !EqFold("WEST", "EAST") && !EqFold("WEST", "NORTH") && !EqFold("EAST", "NORTH");
    var c3: Members := Cons("SOUTH", Number(65), Nil);
    var c2 := Cons("WEST", Number(70), c3);
    var c1 := Cons("EAST", Number(70), c2);
    assert UniqueFold(c3) && UniqueFold(c2) && UniqueFold(c1);
    assert HasFold(c2, "NORTH") == HasFold(c3, "NORTH");
  }

  lemma StockObjects()
    ensures UniqueFold(Stock()) && AllObjects(Stock())
  {
    assert !EqFold("medicine", "food");
    forall k | k in Keys(Stock()) ensures HasObject(Stock(), k) {
      assert k == "food" || k == "medicine";
    }
  }

  lemma SectionsUnique(a: Json, s: Json, e: Json)
    ensures UniqueFold(Cons(ALERTS, a, Cons(SUPPLIES, s, Cons(EMERGENCY, e, Nil))))
  {
    assert !EqFold(SUPPLIES, ALERTS) && !EqFold(EMERGENCY, ALERTS) && !EqFold(EMERGENCY, SUPPLIES);
    var e1: Members := Cons(EMERGENCY, e, Nil);
    assert e1.key == EMERGENCY && e1.rest == Nil;
    assert !HasFold(e1, SUPPLIES);
    assert !HasFold(e1, ALERTS);
    assert UniqueFold(e1) && UniqueFold(Cons(SUPPLIES, s, e1));
    assert !HasFold(Cons(SUPPLIES, s, e1), ALERTS);
  }

  lemma SectionsFound(a: Json, s: Json, e: Json)
    ensures var top := Cons(ALERTS, a, Cons(SUPPLIES, s, Cons(EMERGENCY, e, Nil)));
            Lookup(top, ALERTS) == Some(a) && Lookup(top, SUPPLIES) == Some(s) && Lookup(top, EMERGENCY) == Some(e)
  {
    assert |ALERTS| == 6 && |SUPPLIES| == 8 && |EMERGENCY| == 9;
    assert Lookup(Cons(EMERGENCY, e, Nil), EMERGENCY) == Some(e);
    assert Lookup(Cons(SUPPLIES, s, Cons(EMERGENCY, e, Nil)), EMERGENCY) == Some(e);
  }

  /** The shipped file meets the schema that every run keeps. */
  lemma ShippedStateIsGood(events: Members)
    ensures GoodText(Text(Obj(Shipped(events))))
  {
    CountersUnique();
    StockObjects();
    SectionsUnique(Obj(Counters()), Obj(Stock()), Obj(events));
    SectionsFound(Obj(Counters()), Obj(Stock()), Obj(events));
    RoundTrip(Obj(Shipped(events)));
  }
}

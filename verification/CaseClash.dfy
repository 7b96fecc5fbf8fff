/** Two keys that differ only by case: a run in which an update is granted, answered and lost. */
module CaseClash {
  import opened CText
  import opened Json
  import opened StateFile
  import opened StateJobs
  import opened Dispatch
  import opened Request
  import opened AdminSession
  import opened SharedState
  import opened StateRuns
  import opened JsonText
  import opened ShippedState
  import opened Provenance

  /** The items of a category in a stored text. */
  function Items(text: CString, c: Category): Members
    requires HasObject(SuppliesOf(text), CategoryName(c))
  {
    Section(SuppliesOf(text), CategoryName(c))
  }

  /** A granted request overrides one item of its category, and the state stays good. */
  lemma {:induction false} UpdateItems(text: CString, c: Category, key: CString, amount: nat)
    requires GoodText(text) && HasObject(SuppliesOf(text), CategoryName(c)) && Typed(key, amount)
    ensures var t := Apply(Supply(AdminRequest(c, key, amount)), text);
            && t.Some? && GoodText(t.value) && HasObject(SuppliesOf(t.value), CategoryName(c))
            && Items(t.value, c) == Override(Items(text, c), key, Number(amount))
  {
    var request := AdminRequest(c, key, amount);
    var sup, cat := SuppliesOf(text), CategoryName(c);
    RequestArrives(c, key, amount);
    AmountText(amount);
    SupplyRefinesPutAt(text, Top(text), cat, key, IntText(amount), Number(amount));
    var t := Apply(Supply(request), text).value;
    WriteIsJob(Supply(request), text, t);
    WriteSupplies(Supply(request), text, t);
    var items := Obj(Override(Items(text, c), key, Number(amount)));
    UniqueIsSafe(sup, cat);
    OverrideLookup(sup, cat, items, cat);
  }

  // ----- one turn of a connection process --------------------------------------------------

  /** A granted request, alone: received, read, written. */
  function Turn(pid: nat, request: CString): seq<Action> { [Receive(pid, request), ReadFile(pid), Finish(pid)] }

  function TurnLog(pid: nat, request: CString, at: nat): seq<Entry> {
    [Received(pid, Tcp, request), Read(pid), Wrote(pid, Supply(request), at)]
  }

  function AfterTurn(s: State, pid: nat, request: CString): State
    requires |s.history| > 0
  {
    Step(Step(Step(s, Receive(pid, request)), ReadFile(pid)), Finish(pid))
  }

  /** A connection process waits for a request. */
  predicate Idle(s: State, pid: nat) {
    |s.history| == |s.log| + 1 && pid in s.procs && s.procs[pid] == Process(Tcp, Ready)
  }

  /** Any job, from the reading to the writing. */
  lemma {:induction false} JobWrites(s: State, pid: nat, job: Job, t: CString)
    requires |s.history| == |s.log| + 1 && pid in s.procs && s.procs[pid] == Process(Tcp, Pending(job))
    requires Apply(job, Now(s)) == Some(t)
    ensures var s' := Step(Step(s, ReadFile(pid)), Finish(pid));
            Idle(s', pid) && Now(s') == t && s'.log == s.log + [Read(pid), Wrote(pid, job, |s.log|)]
  {
    var now := Now(s);
    var p := Process(Tcp, Holding(job, now, |s.log|));
    ReadStep(s, pid, Tcp, job);
    FinishWrites(Log(s, Read(pid), now, pid, p), pid, p, t);
  }

  lemma {:induction false} TurnAsks(s: State, pid: nat, request: CString)
    requires Idle(s, pid) && TcpReaction(request) == Modify
    ensures var s' := Step(s, Receive(pid, request));
            && |s'.history| == |s'.log| + 1 && Now(s') == Now(s)
            && s'.log == s.log + [Received(pid, Tcp, request)]
            && pid in s'.procs && s'.procs[pid] == Process(Tcp, Pending(Supply(request)))
  {
    ReceiveStep(s, pid, request);
  }

  lemma {:induction false} LogJoins(log: seq<Entry>, pid: nat, request: CString)
    ensures log + [Received(pid, Tcp, request)] + [Read(pid), Wrote(pid, Supply(request), |log| + 1)]
         == log + TurnLog(pid, request, |log| + 1)
  {
  }

  lemma {:induction false} TurnWrites(s: State, pid: nat, request: CString, t: CString)
    requires Idle(s, pid)
    requires TcpReaction(request) == Modify && Apply(Supply(request), Now(s)) == Some(t)
    ensures var s' := AfterTurn(s, pid, request);
            Idle(s', pid) && Now(s') == t && s'.log == s.log + TurnLog(pid, request, |s.log| + 1)
  {
    TurnAsks(s, pid, request);
    LogJoins(s.log, pid, request);
    JobWrites(Step(s, Receive(pid, request)), pid, Supply(request), t);
  }

  // ----- the run -----------------------------------------------------------------------------

  /** One connection, two requests, nobody else. */
  function TwoUpdates(first: CString, second: CString): seq<Action> {
    [Fork(0, Tcp)] + Turn(0, first) + Turn(0, second)
  }

  function TwoLog(first: CString, second: CString): seq<Entry> {
    [Forked(0)] + TurnLog(0, first, 2) + TurnLog(0, second, 5)
  }

  lemma {:induction false} RunTurn(text: CString, actions: seq<Action>, pid: nat, request: CString)
    ensures Run(text, actions + Turn(pid, request)) == AfterTurn(Run(text, actions), pid, request)
  {
    RunLast(text, actions, Receive(pid, request));
    RunLast(text, actions + [Receive(pid, request)], ReadFile(pid));
    RunLast(text, actions + [Receive(pid, request)] + [ReadFile(pid)], Finish(pid));
    assert actions + [Receive(pid, request)] + [ReadFile(pid)] + [Finish(pid)] == actions + Turn(pid, request);
  }

  lemma {:induction false} TwoUpdatesRun(text: CString, first: CString, second: CString, t1: CString, t2: CString)
    requires TcpReaction(first) == Modify && Apply(Supply(first), text) == Some(t1)
    requires TcpReaction(second) == Modify && Apply(Supply(second), t1) == Some(t2)
    ensures var s := Run(text, TwoUpdates(first, second));
            Now(s) == t2 && s.log == TwoLog(first, second)
  {
    var s0 := Run(text, [Fork(0, Tcp)]);
    ForkRun(text);
    RunTurn(text, [Fork(0, Tcp)], 0, first);
    TurnWrites(s0, 0, first, t1);
    RunTurn(text, [Fork(0, Tcp)] + Turn(0, first), 0, second);
    TurnWrites(AfterTurn(s0, 0, first), 0, second, t2);
  }

  lemma {:induction false} ForkRun(text: CString)
    ensures var s := Run(text, [Fork(0, Tcp)]);
            Idle(s, 0) && Now(s) == text && s.log == [Forked(0)]
  {
    RunLast(text, [], Fork(0, Tcp));
    assert [] + [Fork(0, Tcp)] == [Fork(0, Tcp)];
  }

  lemma {:induction false} TwoLogClear(first: CString, second: CString)
    ensures WindowsClear(TwoLog(first, second), |TwoLog(first, second)|)
  {
  }

  lemma {:induction false} BothGranted(first: CString, second: CString)
    requires TcpReaction(first) == Modify && TcpReaction(second) == Modify
    ensures GrantedToSome(TwoLog(first, second), first) && GrantedToSome(TwoLog(first, second), second)
  {
    var log := TwoLog(first, second);
    assert log[1] == Received(0, Tcp, first) && log[4] == Received(0, Tcp, second);
  }

  /** Adding a key that differs from one there only by case, and then overriding it. */
  lemma {:induction false} ClashingItems(items: Members, k': CString, k: CString, v: Json, w: Json)
    requires UniqueFold(items) && Lookup(items, k').Some? && EqFold(k', k) && k' != k
    ensures var after := Override(Override(items, k, v), k, w);
            Lookup(after, k) == Some(v) && Lookup(after, k') == None
  {
    UniqueIsFirst(items, k, k');
    if Lookup(items, k).Some? { UniqueIsFirst(items, k, k); }
    var both := Append(items, k, v);
    assert Override(items, k, v) == both;
    LookupAppend(items, k, v, k);
    FirstFoldConcat(items, Cons(k, v, Nil), k);
    OccurrencesConcat(items, Cons(k, v, Nil), k');
    OverrideHitsTheOtherKey(both, k, w, k', k);
    OccursIfFound(Override(both, k, w), k');
  }

  /** From every good state with a key in a category, a single administrator can send two requests,
      one after the other and with no other process about, for a key that differs from it only by
      case: both are granted and written, yet the first amount stays in force, and the key that
      was there is gone. */
  lemma {:induction false} UpdatesCanBeLost(text: CString, c: Category, k': CString, k: CString, a: nat, b: nat)
    requires GoodText(text) && HasObject(SuppliesOf(text), CategoryName(c))
    requires UniqueFold(Items(text, c)) && Lookup(Items(text, c), k').Some? && EqFold(k', k) && k' != k
    requires Typed(k, a) && Typed(k, b)
    ensures var first, second := AdminRequest(c, k, a), AdminRequest(c, k, b);
            var s := Run(text, TwoUpdates(first, second));
            var now := Now(s);
            && GrantedToSome(s.log, first) && GrantedToSome(s.log, second)
            && WriteOrder(s.log, |s.log|) == [Supply(first), Supply(second)]
            && WindowsClear(s.log, |s.log|)
            && HasObject(SuppliesOf(now), CategoryName(c))
            && Lookup(Items(now, c), k) == Some(Number(a)) && Lookup(Items(now, c), k') == None
  {
    var first, second := AdminRequest(c, k, a), AdminRequest(c, k, b);
    RequestArrives(c, k, a);
    RequestArrives(c, k, b);
    UpdateItems(text, c, k, a);
    var t1 := Apply(Supply(first), text).value;
    UpdateItems(t1, c, k, b);
    var t2 := Apply(Supply(second), t1).value;
    TwoUpdatesRun(text, first, second, t1, t2);
    TwoLogClear(first, second);
    TwoLogOrder(first, second);
    BothGranted(first, second);
    ClashingItems(Items(text, c), k', k, Number(a), Number(b));
  }

  lemma {:induction false} TwoLogOrder(first: CString, second: CString)
    ensures WriteOrder(TwoLog(first, second), |TwoLog(first, second)|) == [Supply(first), Supply(second)]
  {
    var log := TwoLog(first, second);
    assert WriteOrder(log, 1) == [] && WriteOrder(log, 2) == [] && WriteOrder(log, 3) == [];
    assert WriteOrder(log, 4) == [Supply(first)];
    assert WriteOrder(log, 5) == [Supply(first)] && WriteOrder(log, 6) == [Supply(first)];
  }

  /** The shipped state is one of them. */
  lemma {:induction false} ShippedUpdateCanBeLost(events: Members, a: nat, b: nat)
    requires 1 <= a <= 999_999_999 && 1 <= b <= 999_999_999
    ensures var text := Text(Obj(Shipped(events)));
            var s := Run(text, TwoUpdates(AdminRequest(Food, "Vegetables", a), AdminRequest(Food, "Vegetables", b)));
            HasObject(SuppliesOf(Now(s)), "food") && Lookup(Items(Now(s), Food), "Vegetables") == Some(Number(a))
            && Lookup(Items(Now(s), Food), "vegetables") == None
  {
    var text := Text(Obj(Shipped(events)));
    ShippedItems(events);
    CapitalV();
    UpdatesCanBeLost(text, Food, "vegetables", "Vegetables", a, b);
  }

  lemma {:induction false} ShippedItems(events: Members)
    ensures var text := Text(Obj(Shipped(events)));
            && GoodText(text) && HasObject(SuppliesOf(text), "food") && UniqueFold(Items(text, Food))
            && Lookup(Items(text, Food), "vegetables").Some?
  {
    ShippedStateIsGood(events);
    SectionsFound(Obj(Counters()), Obj(Stock()), Obj(events));
    RoundTrip(Obj(Shipped(events)));
    assert Items(Text(Obj(Shipped(events))), Food) == Cons("vegetables", Number(200), Nil);
  }

  lemma {:induction false} CapitalV()
    ensures EqFold("vegetables", "Vegetables") && "vegetables" != "Vegetables" && NoControl("Vegetables")
  {
    assert "vegetables"[0] != "Vegetables"[0] && "vegetables"[1..] == "Vegetables"[1..];
    FoldIs("vegetables", "Vegetables");
  }
}

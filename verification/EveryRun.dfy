/** The theorems about the shared state file, over every sequence of actions of any processes. */
module EveryRun {
  import opened CText
  import opened Json
  import opened StateFile
  import opened StateJobs
  import opened SharedState
  import opened StateRuns
  import opened Provenance
  import opened AlertCounters

  /** The file always parses and keeps its schema and key sets. */
  lemma {:induction false} RunsKeepSchema(text: CString, actions: seq<Action>)
    requires GoodText(text)
    ensures var now := Now(Run(text, actions));
            GoodText(now) && ShapeOf(Top(now)) == ShapeOf(Top(text))
  {
    RunInvariant(text, actions);
    var s := Run(text, actions);
    SchemaInEveryRun(s.history, s.log, |s.log|);
  }

  /** The supplies are the initial ones after some granted modify requests, and nothing else; each
      write of a supplies section edits, or puts back, one that was stored before. */
  lemma {:induction false} RunsKeepProvenance(text: CString, actions: seq<Action>)
    requires GoodText(text)
    ensures var s := Run(text, actions);
            Derived(s.log, SuppliesOf(text), SuppliesOf(Now(s))) && Follows(s.log, Sections(s.history))
  {
    RunInvariant(text, actions);
    var s := Run(text, actions);
    SuppliesProvenance(s.history, s.log, |s.log|);
    assert s.log[..|s.log|] == s.log && s.history[|s.log|] == Now(s);
  }

  /** Whatever value reads at supplies/category/key was in that category under that key at the start,
      or a granted request for that category and key brought it. */
  lemma {:induction false} RunsKeepItems(text: CString, actions: seq<Action>, category: CString, key: CString)
    requires GoodText(text)
    requires var supplies := SuppliesOf(Now(Run(text, actions)));
             HasObject(supplies, category) && Lookup(Section(supplies, category), key).Some?
    ensures var s := Run(text, actions);
            var v := Lookup(Section(SuppliesOf(Now(s)), category), key).value;
            || HasItem(SuppliesOf(text), category, key, v)
            || exists request :: GrantedToSome(s.log, request) && AsksFor(request, category, key, v)
  {
    RunInvariant(text, actions);
    var s := Run(text, actions);
    var items := Section(SuppliesOf(Now(s)), category);
    LookupIsMember(items, key);
    ItemProvenance(s.history, s.log, |s.log|, category, key, Lookup(items, key).value);
    assert s.log[..|s.log|] == s.log;
  }

  /** Only TCP processes write supplies, sensors alerts, emergency processes events; a UDP process
      writes nothing at all. */
  lemma {:induction false} RunsKeepRoles(text: CString, actions: seq<Action>, i: nat)
    requires i < |Run(text, actions).log| && Run(text, actions).log[i].Wrote?
    ensures var s := Run(text, actions);
            && s.log[i].pid in s.procs
            && JobFits(s.procs[s.log[i].pid].kind, s.log[i].job)
            && !s.procs[s.log[i].pid].kind.Udp?
  {
    RunInvariant(text, actions);
    assert WriterOk(Run(text, actions), i);
  }

  /** The file is the sequential execution, from the initial text, of a subsequence of the writes. */
  lemma {:induction false} RunsAreTheirLineage(text: CString, actions: seq<Action>)
    ensures var s := Run(text, actions);
            && FoldJobs(text, Lineage(s.log, |s.log|)) == Some(Now(s))
            && Subsequence(Lineage(s.log, |s.log|), WriteOrder(s.log, |s.log|))
  {
    RunInvariant(text, actions);
    LineageWithinOrder(Run(text, actions).log, |Run(text, actions).log|);
    FileIsItsLineage(Run(text, actions).history, Run(text, actions).log, |Run(text, actions).log|);
  }

  /** With clear windows, of all the jobs in write order. */
  lemma {:induction false} ClearRunsAreSequential(text: CString, actions: seq<Action>)
    requires WindowsClear(Run(text, actions).log, |Run(text, actions).log|)
    ensures var s := Run(text, actions); FoldJobs(text, WriteOrder(s.log, |s.log|)) == Some(Now(s))
  {
    RunInvariant(text, actions);
    ClearWindowsAreSequential(Run(text, actions).history, Run(text, actions).log, |Run(text, actions).log|);
  }

  /** Every counter: initial value plus completed alerts minus lost alerts, never ahead. */
  lemma {:induction false} RunsConserveCounters(text: CString, actions: seq<Action>, entry: CString)
    requires GoodText(text)
    ensures var s := Run(text, actions);
            var n := |s.log|;
            && Counter(Top(Now(s)), entry) == Counter(Top(text), entry) + Counts(s.log, 0, n, entry) - Lost(s.log, n, entry)
            && Counter(Top(Now(s)), entry) <= Counter(Top(text), entry) + Counts(s.log, 0, n, entry)
  {
    RunInvariant(text, actions);
    CounterConservation(Run(text, actions).history, Run(text, actions).log, |Run(text, actions).log|, entry);
    CounterNeverAhead(Run(text, actions).history, Run(text, actions).log, |Run(text, actions).log|, entry);
  }
}

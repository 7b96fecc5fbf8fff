/** The server forks a single alert process. What that adds: no alert is lost to another alert. */
module OneSensor {
  import opened CText
  import opened SharedState
  import opened StateRuns
  import opened AlertCounters

  predicate AtMostOneSensor(s: State) {
    forall p, q :: p in s.procs && q in s.procs && s.procs[p].kind.Sensor? && s.procs[q].kind.Sensor? ==> p == q
  }

  predicate IsAlertWrite(e: Entry) { e.Wrote? && e.job.Alert? }

  predicate NoAlertWriteIn(log: seq<Entry>, lo: nat, hi: nat)
    requires hi <= |log|
  {
    forall m :: lo <= m < hi ==> !IsAlertWrite(log[m])
  }

  /** A process with an alert in hand has seen no alert written since it read. */
  predicate HolderApart(s: State, pid: nat)
    requires pid in s.procs
  {
    s.procs[pid].stage.Holding? && s.procs[pid].stage.job.Alert? ==>
      NoAlertWriteIn(s.log, s.procs[pid].stage.readAt, |s.log|)
  }

  predicate WriteApart(log: seq<Entry>, i: nat)
    requires i < |log|
  {
    IsAlertWrite(log[i]) ==> NoAlertWriteIn(log, log[i].readAt, i)
  }

  ghost predicate Apart(s: State) {
    && (forall pid :: pid in s.procs ==> HolderApart(s, pid))
    && (forall i :: 0 <= i < |s.log| ==> WriteApart(s.log, i))
  }

  /** Every step is an entry in the log, or nothing. */
  lemma {:induction false} StepLogs(s: State, a: Action)
    requires |s.history| > 0 && Step(s, a) != s
    ensures var s' := Step(s, a);
            && |s'.log| == |s.log| + 1 && s'.log[..|s.log|] == s.log
            && a.pid in s'.procs && s'.procs == s.procs[a.pid := s'.procs[a.pid]]
            && (a.pid in s.procs ==> s'.procs[a.pid].kind == s.procs[a.pid].kind)
            && (s'.procs[a.pid].stage.Holding? ==> s'.procs[a.pid].stage.readAt == |s.log|)
    ensures var e := Step(s, a).log[|s.log|];
            e.Wrote? ==> a.pid in s.procs && s.procs[a.pid].stage.Holding? && e.job == s.procs[a.pid].stage.job
                         && e.readAt == s.procs[a.pid].stage.readAt && !Step(s, a).procs[a.pid].stage.Holding?
  {
  }

  lemma {:induction false} OneBefore(s: State, a: Action)
    requires |s.history| > 0 && AtMostOneSensor(Step(s, a))
    ensures AtMostOneSensor(s)
  {
    var s' := Step(s, a);
    if s' != s {
      StepLogs(s, a);
      forall p, q | p in s.procs && q in s.procs && s.procs[p].kind.Sensor? && s.procs[q].kind.Sensor?
        ensures p == q
      {
        assert p in s'.procs && q in s'.procs && s'.procs[p].kind.Sensor? && s'.procs[q].kind.Sensor?;
      }
    }
  }

  /** The holder of an alert is the one sensor, so whoever else writes now writes no alert. */
  lemma {:induction false} HoldersStayApart(s: State, a: Action, pid: nat)
    requires Invariant(s) && Apart(s) && AtMostOneSensor(s) && Step(s, a) != s && pid in Step(s, a).procs
    ensures HolderApart(Step(s, a), pid)
  {
    StepLogs(s, a);
    var s' := Step(s, a);
    var n := |s.log|;
    if pid != a.pid && s.procs[pid].stage.Holding? && s.procs[pid].stage.job.Alert? {
      assert HolderApart(s, pid) && ProcessOk(s, pid);
      if a.pid in s.procs { assert ProcessOk(s, a.pid); }
      assert !IsAlertWrite(s'.log[n]);
      forall m | s.procs[pid].stage.readAt <= m < |s'.log| ensures !IsAlertWrite(s'.log[m]) {
        if m < n { assert s'.log[m] == s'.log[..n][m]; }
      }
    }
  }

  lemma {:induction false} WritesStayApart(s: State, a: Action, i: nat)
    requires Invariant(s) && Apart(s) && Step(s, a) != s && i < |Step(s, a).log|
    ensures WriteApart(Step(s, a).log, i)
  {
    StepLogs(s, a);
    var log := Step(s, a).log;
    var n := |s.log|;
    if IsAlertWrite(log[i]) {
      if i == n { assert HolderApart(s, a.pid); } else { assert log[i] == log[..n][i]; assert WriteApart(s.log, i); }
      forall m | log[i].readAt <= m < i ensures !IsAlertWrite(log[m]) { assert log[m] == log[..n][m]; }
    }
  }

  /** In every run with at most one alert process, no alert is written inside an alert's window. */
  lemma {:induction false} AlertsStayApart(text: CString, actions: seq<Action>)
    requires AtMostOneSensor(Run(text, actions))
    ensures Apart(Run(text, actions))
    decreases |actions|
  {
    if actions != [] {
      var front, a := actions[..|actions| - 1], actions[|actions| - 1];
      var s := Run(text, front);
      OneBefore(s, a);
      AlertsStayApart(text, front);
      RunInvariant(text, front);
      if Step(s, a) != s {
        forall pid | pid in Step(s, a).procs ensures HolderApart(Step(s, a), pid) { HoldersStayApart(s, a, pid); }
        forall i | 0 <= i < |Step(s, a).log| ensures WriteApart(Step(s, a).log, i) { WritesStayApart(s, a, i); }
      }
    }
  }

  lemma {:induction false} NoAlertsNoCount(log: seq<Entry>, lo: nat, hi: nat, entry: CString)
    requires lo <= hi <= |log| && NoAlertWriteIn(log, lo, hi)
    ensures Counts(log, lo, hi, entry) == 0
    decreases hi
  {
    if lo < hi { NoAlertsNoCount(log, lo, hi - 1, entry); }
  }

  /** No supply and no event write has an alert for the entry inside its window. */
  ghost predicate OthersClear(log: seq<Entry>, entry: CString) {
    forall i :: 0 <= i < |log| && log[i].Wrote? && !log[i].job.Alert? && log[i].readAt <= i ==>
      Counts(log, log[i].readAt, i, entry) == 0
  }

  /** With one alert process, a counter is exact all along a run if and only if no window of a
      connection process or an emergency process contains an alert write for it. */
  lemma {:induction false} OneSensorExactIff(text: CString, actions: seq<Action>, entry: CString)
    requires GoodText(text) && AtMostOneSensor(Run(text, actions))
    ensures var s := Run(text, actions);
            OthersClear(s.log, entry) <==>
            forall i :: 0 <= i <= |s.log| ==>
              CounterAt(s.history, i, entry) == CounterAt(s.history, 0, entry) + Counts(s.log, 0, i, entry)
  {
    var s := Run(text, actions);
    RunInvariant(text, actions);
    AlertsStayApart(text, actions);
    forall i | 0 <= i < |s.log| && IsAlertWrite(s.log[i]) && s.log[i].readAt <= i
      ensures Counts(s.log, s.log[i].readAt, i, entry) == 0
    {
      assert WriteApart(s.log, i);
      NoAlertsNoCount(s.log, s.log[i].readAt, i, entry);
    }
    assert OthersClear(s.log, entry) <==> NoCountInWindow(s.log, |s.log|, entry);
    CounterExactIff(s.history, s.log, entry);
  }
}

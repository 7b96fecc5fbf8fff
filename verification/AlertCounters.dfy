/** The alert counters over every interleaved run: an exact account of what is counted and lost. */
module AlertCounters {
  import opened CText
  import opened Json
  import opened CjsonHandler
  import opened StateFile
  import opened StateJobs
  import opened SharedState
  import opened StateRuns

  /** An entry's counter as add_entry_to_json reads it. */
  function Counter(top: Members, entry: CString): int {
    if HasObject(top, ALERTS) then Count(Section(top, ALERTS), entry) else 0
  }

  function Count(alerts: Members, entry: CString): int {
    match GetMember(Obj(alerts), entry) case Some(t) => Atoi(t) case None => 0
  }

  function CounterAt(history: seq<CString>, i: nat, entry: CString): int
    requires i < |history|
  {
    Counter(Top(history[i]), entry)
  }

  predicate IsCount(e: Entry, entry: CString) { e.Wrote? && e.job == Alert(entry) }

  /** Completed alert writes for an entry among `log[lo..hi]`. */
  function Counts(log: seq<Entry>, lo: nat, hi: nat, entry: CString): (n: nat)
    requires lo <= hi <= |log|
    decreases hi
  {
    if lo == hi then 0 else Counts(log, lo, hi - 1, entry) + if IsCount(log[hi - 1], entry) then 1 else 0
  }

  /** Alerts lost by the first `i` entries. A write brings back the account of the moment it read,
      and loses every alert counted inside its window. */
  function Lost(log: seq<Entry>, i: nat, entry: CString): nat
    requires i <= |log|
  {
    if i == 0 then 0
    else if log[i - 1].Wrote? && log[i - 1].readAt < i
    then Lost(log, log[i - 1].readAt, entry) + Counts(log, log[i - 1].readAt, i - 1, entry)
    else Lost(log, i - 1, entry)
  }

  lemma {:induction false} CountsSplit(log: seq<Entry>, lo: nat, mid: nat, hi: nat, entry: CString)
    requires lo <= mid <= hi <= |log|
    ensures Counts(log, lo, hi, entry) == Counts(log, lo, mid, entry) + Counts(log, mid, hi, entry)
    decreases hi
  {
    if mid < hi { CountsSplit(log, lo, mid, hi - 1, entry); }
  }

  lemma {:induction false} AlertCounts(e: CString, alerts: Members, entry: CString)
    requires UniqueFold(alerts) && NewSection(Alert(e), alerts).Some?
    ensures Count(NewSection(Alert(e), alerts).value, entry)
         == Count(alerts, entry) + if e == entry then 1 else 0
  {
    var n := Count(alerts, e) + 1;
    assert NewSection(Alert(e), alerts).value == Override(alerts, e, CountItem(n));
    UniqueIsSafe(alerts, e);
    OverrideLookup(alerts, e, CountItem(n), entry);
    if e == entry { CountStored(NewSection(Alert(e), alerts).value, e, n); }
  }

  lemma {:induction false} CountStored(alerts: Members, e: CString, n: int)
    requires Lookup(alerts, e) == Some(CountItem(n))
    ensures Count(alerts, e) == n
  {
    CountRoundTrip(n);
  }

  /** A job adds one to the counter it alerts on and leaves every other counter as it read it. */
  lemma {:induction false} JobCounts(job: Job, top: Members, entry: CString)
    requires Schema(top) && ApplyTree(job, top).Some?
    ensures Counter(ApplyTree(job, top).value, entry)
         == Counter(top, entry) + if job == Alert(entry) then 1 else 0
  {
    ApplyLookup(job, top, ALERTS);
    if job.Alert? { AlertCounts(job.entry, Section(top, ALERTS), entry); }
  }

  /** Conservation: at every point of every run, a counter is its initial value plus the completed
      alert writes for it minus the alerts lost, exactly. */
  lemma {:induction false} CounterConservation(history: seq<CString>, log: seq<Entry>, i: nat, entry: CString)
    requires Faithful(history, log) && i <= |log| && GoodText(history[0])
    ensures CounterAt(history, i, entry)
         == CounterAt(history, 0, entry) + Counts(log, 0, i, entry) - Lost(log, i, entry)
  {
    if i > 0 {
      assert EntryOk(history, log, i - 1);
      var e := log[i - 1];
      if e.Wrote? {
        var r := e.readAt;
        CounterConservation(history, log, r, entry);
        SchemaInEveryRun(history, log, r);
        WriteIsJob(e.job, history[r], history[i]);
        JobCounts(e.job, Top(history[r]), entry);
        CountsSplit(log, 0, r, i - 1, entry);
      } else {
        CounterConservation(history, log, i - 1, entry);
      }
    }
  }

  /** No interleaving makes a counter run ahead of the alerts written. */
  lemma {:induction false} CounterNeverAhead(history: seq<CString>, log: seq<Entry>, i: nat, entry: CString)
    requires Faithful(history, log) && i <= |log| && GoodText(history[0])
    ensures CounterAt(history, i, entry) <= CounterAt(history, 0, entry) + Counts(log, 0, i, entry)
  {
    CounterConservation(history, log, i, entry);
  }

  lemma {:induction false} LostWithinCounted(log: seq<Entry>, i: nat, entry: CString)
    requires i <= |log|
    ensures Lost(log, i, entry) <= Counts(log, 0, i, entry)
  {
    if i > 0 {
      if log[i - 1].Wrote? && log[i - 1].readAt < i {
        LostWithinCounted(log, log[i - 1].readAt, entry);
        CountsSplit(log, 0, log[i - 1].readAt, i - 1, entry);
      } else {
        LostWithinCounted(log, i - 1, entry);
      }
    }
  }

  /** A counter never falls below its initial value, and as long as the alerts written leave it
      within a 32-bit int it always is one: the increment never overflows. */
  lemma {:induction false} CounterStaysInt(history: seq<CString>, log: seq<Entry>, i: nat, entry: CString)
    requires Faithful(history, log) && i <= |log| && GoodText(history[0])
    requires Int32(CounterAt(history, 0, entry)) && Int32(CounterAt(history, 0, entry) + Counts(log, 0, i, entry))
    ensures CounterAt(history, 0, entry) <= CounterAt(history, i, entry) && Int32(CounterAt(history, i, entry))
  {
    CounterConservation(history, log, i, entry);
    LostWithinCounted(log, i, entry);
  }

  /** No write based on an old read has an alert for the entry inside its window. */
  ghost predicate NoCountInWindow(log: seq<Entry>, n: nat, entry: CString)
    requires n <= |log|
  {
    forall i :: 0 <= i < n && log[i].Wrote? && log[i].readAt <= i ==> Counts(log, log[i].readAt, i, entry) == 0
  }

  lemma {:induction false} NothingLost(log: seq<Entry>, i: nat, entry: CString)
    requires i <= |log| && NoCountInWindow(log, i, entry)
    ensures Lost(log, i, entry) == 0
  {
    if i > 0 {
      if log[i - 1].Wrote? && log[i - 1].readAt < i {
        NothingLost(log, log[i - 1].readAt, entry);
      } else {
        NothingLost(log, i - 1, entry);
      }
    }
  }

  /** The counter is exact all along the run if and only if no read-to-write window, of any kind of
      writer, contains an alert write for the entry. */
  lemma {:induction false} CounterExactIff(history: seq<CString>, log: seq<Entry>, entry: CString)
    requires Faithful(history, log) && GoodText(history[0])
    ensures NoCountInWindow(log, |log|, entry) <==>
            forall i :: 0 <= i <= |log| ==>
              CounterAt(history, i, entry) == CounterAt(history, 0, entry) + Counts(log, 0, i, entry)
  {
    if NoCountInWindow(log, |log|, entry) {
      forall i | 0 <= i <= |log|
        ensures CounterAt(history, i, entry) == CounterAt(history, 0, entry) + Counts(log, 0, i, entry)
      {
        NothingLost(log, i, entry);
        CounterConservation(history, log, i, entry);
      }
    } else {
      var i :| 0 <= i < |log| && log[i].Wrote? && log[i].readAt <= i && Counts(log, log[i].readAt, i, entry) != 0;
      CounterConservation(history, log, i + 1, entry);
      assert Lost(log, i + 1, entry) > 0;
    }
  }
}

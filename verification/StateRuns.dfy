/** What holds of the state file over every interleaved run. */
module StateRuns {
  import opened CText
  import opened Json
  import opened JsonText
  import opened CjsonHandler
  import opened StateJobs
  import opened SharedState

  /** The members of the state a text holds. */
  function Top(text: CString): Members {
    match Parse(text) case Some(j) => Children(j) case None => Nil
  }

  /** The text parses to an object that meets the schema. */
  ghost predicate GoodText(text: CString) {
    Parse(text) == Some(Obj(Top(text))) && Schema(Top(text))
  }

  // ----- what a faithful log says of one entry -------------------------------------------

  lemma {:induction false} FaithfulReads(history: seq<CString>, log: seq<Entry>)
    requires Faithful(history, log)
    ensures ReadsBefore(log)
  {
    forall i | 0 <= i < |log| && log[i].Wrote? ensures log[i].readAt <= i {
      assert EntryOk(history, log, i);
    }
  }

  predicate ReadsBefore(log: seq<Entry>) {
    forall i :: 0 <= i < |log| && log[i].Wrote? ==> log[i].readAt <= i
  }

  // ----- schema --------------------------------------------------------------------------

  /** A write from a good text is a job on its parsed state. */
  lemma {:induction false} WriteIsJob(job: Job, text: CString, text': CString)
    requires GoodText(text) && Apply(job, text) == Some(text')
    ensures GoodText(text') && ApplyTree(job, Top(text)) == Some(Top(text'))
    ensures ShapeOf(Top(text')) == ShapeOf(Top(text))
  {
    ApplyIsTree(job, text, Top(text));
    ApplyKeepsSchema(job, Top(text));
  }

  /** In every run the file always parses, meets the schema, and keeps its top-level keys, the keys
      of "alerts" and the categories of "supplies". */
  lemma {:induction false} SchemaInEveryRun(history: seq<CString>, log: seq<Entry>, i: nat)
    requires Faithful(history, log) && i <= |log| && GoodText(history[0])
    ensures GoodText(history[i]) && ShapeOf(Top(history[i])) == ShapeOf(Top(history[0]))
  {
    if i > 0 {
      assert EntryOk(history, log, i - 1);
      var e := log[i - 1];
      if e.Wrote? {
        SchemaInEveryRun(history, log, e.readAt);
        WriteIsJob(e.job, history[e.readAt], history[i]);
      } else {
        SchemaInEveryRun(history, log, i - 1);
      }
    }
  }

  // ----- runs without a write inside a window are sequential ------------------------------

  /** The jobs written by the first `i` entries, in write order. */
  function WriteOrder(log: seq<Entry>, i: nat): seq<Job>
    requires i <= |log|
  {
    if i == 0 then []
    else WriteOrder(log, i - 1) + (if log[i - 1].Wrote? then [log[i - 1].job] else [])
  }

  /** Jobs one after the other, each on what the one before it wrote. */
  function FoldWith(apply: (Job, CString) -> Option<CString>, text: CString, jobs: seq<Job>): Option<CString>
    decreases |jobs|
  {
    if jobs == [] then Some(text)
    else match FoldWith(apply, text, jobs[..|jobs| - 1])
      case None => None
      case Some(t) => apply(jobs[|jobs| - 1], t)
  }

  function FoldJobs(text: CString, jobs: seq<Job>): Option<CString> { FoldWith(Apply, text, jobs) }

  predicate NoWriteIn(log: seq<Entry>, lo: nat, hi: nat)
    requires hi <= |log|
  {
    forall m :: lo <= m < hi ==> !log[m].Wrote?
  }

  /** No write falls between another write and the read it is based on. */
  ghost predicate WindowsClear(log: seq<Entry>, n: nat)
    requires n <= |log|
  {
    forall i :: 0 <= i < n && log[i].Wrote? ==> NoWriteIn(log, log[i].readAt, i)
  }

  /** The jobs whose effect is in the file after `i` entries: those in the text the last write had
      read, and its own. */
  function Lineage(log: seq<Entry>, i: nat): seq<Job>
    requires i <= |log|
  {
    if i == 0 then []
    else if log[i - 1].Wrote? && log[i - 1].readAt < i then Lineage(log, log[i - 1].readAt) + [log[i - 1].job]
    else Lineage(log, i - 1)
  }

  /** The entry leaves the text as it was, or puts its job applied to the text it had read. */
  predicate EntryWith(apply: (Job, CString) -> Option<CString>, history: seq<CString>, log: seq<Entry>, i: nat)
    requires i < |log| < |history|
  {
    if log[i].Wrote? then log[i].readAt <= i && apply(log[i].job, history[log[i].readAt]) == Some(history[i + 1])
    else history[i + 1] == history[i]
  }

  ghost predicate WritesWith(apply: (Job, CString) -> Option<CString>, history: seq<CString>, log: seq<Entry>) {
    |history| == |log| + 1 && forall i :: 0 <= i < |log| ==> EntryWith(apply, history, log, i)
  }

  lemma {:induction false} FoldLast(apply: (Job, CString) -> Option<CString>, text: CString, jobs: seq<Job>, job: Job)
    requires FoldWith(apply, text, jobs).Some?
    ensures FoldWith(apply, text, jobs + [job]) == apply(job, FoldWith(apply, text, jobs).value)
  {
    assert (jobs + [job])[..|jobs|] == jobs;
  }

  lemma {:induction false} LineageWith(apply: (Job, CString) -> Option<CString>, history: seq<CString>, log: seq<Entry>, i: nat)
    requires WritesWith(apply, history, log) && i <= |log|
    ensures FoldWith(apply, history[0], Lineage(log, i)) == Some(history[i])
  {
    if i > 0 {
      var e := log[i - 1];
      assert EntryWith(apply, history, log, i - 1);
      if e.Wrote? {
        LineageWith(apply, history, log, e.readAt);
        FoldLast(apply, history[0], Lineage(log, e.readAt), e.job);
        assert Lineage(log, i) == Lineage(log, e.readAt) + [e.job];
      } else {
        LineageWith(apply, history, log, i - 1);
      }
    }
  }

  lemma {:induction false} FaithfulWrites(history: seq<CString>, log: seq<Entry>)
    requires Faithful(history, log)
    ensures WritesWith(Apply, history, log)
  {
    forall i | 0 <= i < |log| ensures EntryWith(Apply, history, log, i) {
      assert EntryOk(history, log, i);
    }
  }

  /** In every run the file is the sequential execution of its lineage, exactly: whatever else was
      written has left no trace. */
  lemma {:induction false} FileIsItsLineage(history: seq<CString>, log: seq<Entry>, i: nat)
    requires Faithful(history, log) && i <= |log|
    ensures FoldJobs(history[0], Lineage(log, i)) == Some(history[i])
  {
    FaithfulWrites(history, log);
    LineageWith(Apply, history, log, i);
  }

  /** Writes in `log[lo..hi]` are what the write order gains. */
  lemma {:induction false} OrderGrows(log: seq<Entry>, lo: nat, hi: nat)
    requires lo <= hi <= |log|
    ensures WriteOrder(log, lo) <= WriteOrder(log, hi)
    ensures NoWriteIn(log, lo, hi) <==> |WriteOrder(log, lo)| == |WriteOrder(log, hi)|
    decreases hi
  {
    if lo < hi { OrderGrows(log, lo, hi - 1); }
  }

  /** `a` is `b` with some jobs left out. */
  predicate Subsequence(a: seq<Job>, b: seq<Job>)
    decreases |b|
  {
    a == [] ||
    (b != [] &&
     (Subsequence(a, b[..|b| - 1]) || (a[|a| - 1] == b[|b| - 1] && Subsequence(a[..|a| - 1], b[..|b| - 1]))))
  }

  lemma {:induction false} SubsequenceGrows(a: seq<Job>, b: seq<Job>, job: Job)
    requires Subsequence(a, b)
    ensures Subsequence(a, b + [job]) && Subsequence(a + [job], b + [job])
  {
    assert (b + [job])[..|b|] == b && (a + [job])[..|a|] == a;
  }

  lemma {:induction false} SubsequenceLater(log: seq<Entry>, a: seq<Job>, lo: nat, hi: nat)
    requires lo <= hi <= |log| && Subsequence(a, WriteOrder(log, lo))
    ensures Subsequence(a, WriteOrder(log, hi))
    decreases hi
  {
    if lo < hi {
      SubsequenceLater(log, a, lo, hi - 1);
      if log[hi - 1].Wrote? {
        SubsequenceGrows(a, WriteOrder(log, hi - 1), log[hi - 1].job);
      } else {
        assert WriteOrder(log, hi) == WriteOrder(log, hi - 1);
      }
    }
  }

  /** A write joins what it had read, wherever that stands in the order. */
  lemma {:induction false} WriteJoins(log: seq<Entry>, a: seq<Job>, r: nat, n: nat)
    requires r <= n < |log| && log[n].Wrote? && Subsequence(a, WriteOrder(log, r))
    ensures Subsequence(a + [log[n].job], WriteOrder(log, n + 1))
  {
    SubsequenceLater(log, a, r, n);
    SubsequenceGrows(a, WriteOrder(log, n), log[n].job);
  }

  /** What is in the file is what was written, in that order, with some writes left out. */
  lemma {:induction false} LineageWithinOrder(log: seq<Entry>, i: nat)
    requires i <= |log|
    ensures Subsequence(Lineage(log, i), WriteOrder(log, i))
  {
    if i > 0 {
      var n := i - 1;
      if log[n].Wrote? && log[n].readAt < i {
        var r := log[n].readAt;
        var a := Lineage(log, r);
        LineageWithinOrder(log, r);
        WriteJoins(log, a, r, n);
        assert Lineage(log, i) == a + [log[n].job];
      } else {
        var a := Lineage(log, n);
        LineageWithinOrder(log, n);
        SubsequenceLater(log, a, n, i);
        assert Lineage(log, i) == a;
      }
    }
  }

  lemma {:induction false} SubsequenceShorter(a: seq<Job>, b: seq<Job>)
    requires Subsequence(a, b)
    ensures |a| <= |b|
    decreases |b|
  {
    if a != [] {
      if Subsequence(a, b[..|b| - 1]) { SubsequenceShorter(a, b[..|b| - 1]); }
      else { SubsequenceShorter(a[..|a| - 1], b[..|b| - 1]); }
    }
  }

  lemma {:induction false} ClearKeepsAll(log: seq<Entry>, i: nat)
    requires i <= |log| && ReadsBefore(log) && WindowsClear(log, i)
    ensures Lineage(log, i) == WriteOrder(log, i)
  {
    if i > 0 {
      if log[i - 1].Wrote? {
        var r := log[i - 1].readAt;
        ClearKeepsAll(log, r);
        OrderGrows(log, r, i - 1);
      } else {
        ClearKeepsAll(log, i - 1);
      }
    }
  }

  /** Nothing written is ever lost, all along the run, if and only if no write falls inside another
      write's window. */
  lemma {:induction false} NothingLostIff(log: seq<Entry>, n: nat)
    requires n <= |log| && ReadsBefore(log)
    ensures WindowsClear(log, n) <==> forall i :: 0 <= i <= n ==> Lineage(log, i) == WriteOrder(log, i)
  {
    if WindowsClear(log, n) {
      forall i | 0 <= i <= n ensures Lineage(log, i) == WriteOrder(log, i) { ClearKeepsAll(log, i); }
    } else {
      var i :| 0 <= i < n && log[i].Wrote? && !NoWriteIn(log, log[i].readAt, i);
      OrderGrows(log, log[i].readAt, i);
      LineageWithinOrder(log, log[i].readAt);
      SubsequenceShorter(Lineage(log, log[i].readAt), WriteOrder(log, log[i].readAt));
      assert Lineage(log, i + 1) == Lineage(log, log[i].readAt) + [log[i].job];
      assert |Lineage(log, i + 1)| < |WriteOrder(log, i + 1)|;
    }
  }

  /** A run whose windows are clear is the sequential execution of its jobs in write order. */
  lemma {:induction false} ClearWindowsAreSequential(history: seq<CString>, log: seq<Entry>, i: nat)
    requires Faithful(history, log) && i <= |log| && WindowsClear(log, i)
    ensures FoldJobs(history[0], WriteOrder(log, i)) == Some(history[i])
  {
    FaithfulReads(history, log);
    FileIsItsLineage(history, log, i);
    ClearKeepsAll(log, i);
  }
}

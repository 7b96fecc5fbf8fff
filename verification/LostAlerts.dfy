/** One alert process and one emergency process: a run in which a completed alert leaves no trace. */
module LostAlerts {
  import opened CText
  import opened Json
  import opened CjsonHandler
  import opened StateFile
  import opened StateJobs
  import opened SharedState
  import opened StateRuns
  import opened AlertCounters
  import opened OneSensor

  /** The emergency process reads before the alert process writes, and writes after it. */
  function Race(alert: Job, event: Job): seq<Action> {
    [Fork(0, Sensor), Fork(1, Emergency), Raise(0, alert), Raise(1, event),
     ReadFile(1), ReadFile(0), Finish(0), Finish(1)]
  }

  /** What the log says until both have read, and in the end. */
  function QuietLog(): seq<Entry> { [Forked(0), Forked(1), Raised(0), Raised(1), Read(1), Read(0)] }

  function RaceLog(alert: Job, event: Job): seq<Entry> {
    QuietLog() + [Wrote(0, alert, 5), Wrote(1, event, 4)]
  }

  function BothHold(alert: Job, event: Job, text: CString): map<nat, Process> {
    map[0 := Process(Sensor, Holding(alert, text, 5)), 1 := Process(Emergency, Holding(event, text, 4))]
  }

  /** One of each is forked. */
  lemma {:induction false} RaceForks(text: CString, alert: Job, event: Job)
    ensures var s := Run(text, Race(alert, event)[..2]);
            s.history == [text, text, text] && s.log == [Forked(0), Forked(1)] && s.procs == BothReady()
  {
    var a := Race(alert, event);
    assert a[..0] == [] && a[..0] + [a[0]] == a[..1] && a[..1] + [a[1]] == a[..2];
    RunLast(text, a[..0], a[0]);
    RunLast(text, a[..1], a[1]);
    var s0 := Run(text, a[..0]);
    ForkStep(s0, 0, Sensor);
    ForkStep(Log(s0, Forked(0), text, 0, Process(Sensor, Ready)), 1, Emergency);
  }

  /** Both have a job to do. */
  lemma {:induction false} RaceStarts(text: CString, alert: Job, event: Job)
    requires alert.Alert? && event.Event?
    ensures var s := Run(text, Race(alert, event)[..4]);
            && s.history == [text, text, text, text, text]
            && s.log == [Forked(0), Forked(1), Raised(0), Raised(1)]
            && s.procs == map[0 := Process(Sensor, Pending(alert)), 1 := Process(Emergency, Pending(event))]
  {
    var a := Race(alert, event);
    assert a[..2] + [a[2]] == a[..3] && a[..3] + [a[3]] == a[..4];
    RaceForks(text, alert, event);
    RunLast(text, a[..2], a[2]);
    RunLast(text, a[..3], a[3]);
    var s2 := Run(text, a[..2]);
    RaiseStep(s2, 0, Sensor, alert);
    RaiseStep(Log(s2, Raised(0), text, 0, Process(Sensor, Pending(alert))), 1, Emergency, event);
  }

  /** Both hold the same text. */
  lemma {:induction false} RaceReads(text: CString, alert: Job, event: Job)
    requires alert.Alert? && event.Event?
    ensures var s := Run(text, Race(alert, event)[..6]);
            && s.history == [text, text, text, text, text, text, text]
            && s.log == QuietLog() && s.procs == BothHold(alert, event, text)
  {
    var a := Race(alert, event);
    RaceStarts(text, alert, event);
    var s4 := Run(text, a[..4]);
    RunLast(text, a[..4], a[4]);
    RunLast(text, a[..5], a[5]);
    assert a[..4] + [a[4]] == a[..5] && a[..5] + [a[5]] == a[..6];
    RaceCopies(s4, text, alert, event);
  }

  lemma {:induction false} RaceCopies(s4: State, text: CString, alert: Job, event: Job)
    requires |s4.history| == |s4.log| + 1 == 5 && Now(s4) == text
    requires s4.procs == map[0 := Process(Sensor, Pending(alert)), 1 := Process(Emergency, Pending(event))]
    ensures var s := Step(Step(s4, ReadFile(1)), ReadFile(0));
            && s.history == s4.history + [text] + [text]
            && s.log == s4.log + [Read(1)] + [Read(0)] && s.procs == BothHold(alert, event, text)
  {
    ReadStep(s4, 1, Emergency, event);
    ReadStep(Log(s4, Read(1), text, 1, Process(Emergency, Holding(event, text, 4))), 0, Sensor, alert);
  }

  /** Both are ready again. */
  function BothReady(): map<nat, Process> { map[0 := Process(Sensor, Ready), 1 := Process(Emergency, Ready)] }

  function AlertWritten(s: State, alert: Job, t: CString): State {
    Log(s, Wrote(0, alert, 5), t, 0, Process(Sensor, Ready))
  }

  function EventWritten(s: State, event: Job, t: CString): State {
    Log(s, Wrote(1, event, 4), t, 1, Process(Emergency, Ready))
  }

  /** Each writes what it made of that text. */
  lemma {:induction false} RaceWrites(text: CString, alert: Job, event: Job, t0: CString, t1: CString, s6: State)
    requires Apply(alert, text) == Some(t0) && Apply(event, text) == Some(t1)
    requires |s6.history| == |s6.log| + 1 && s6.procs == BothHold(alert, event, text)
    ensures Step(Step(s6, Finish(0)), Finish(1)) == EventWritten(AlertWritten(s6, alert, t0), event, t1)
  {
    var s7 := AlertWritten(s6, alert, t0);
    FinishWrites(s6, 0, Process(Sensor, Holding(alert, text, 5)), t0);
    FinishWrites(s7, 1, Process(Emergency, Holding(event, text, 4)), t1);
  }

  lemma {:induction false} RaceLeaves(text: CString, alert: Job, event: Job, t0: CString, t1: CString, s6: State)
    requires s6.log == QuietLog() && s6.procs == BothHold(alert, event, text)
    ensures var s := EventWritten(AlertWritten(s6, alert, t0), event, t1);
            s.log == RaceLog(alert, event) && s.procs == BothReady() && Now(s) == t1 && AtMostOneSensor(s)
  {
  }

  lemma {:induction false} RaceSplits(text: CString, alert: Job, event: Job)
    ensures var a := Race(alert, event);
            Run(text, a) == Step(Step(Run(text, a[..6]), Finish(0)), Finish(1))
  {
    var a := Race(alert, event);
    RunLast(text, a[..6], Finish(0));
    RunLast(text, a[..7], Finish(1));
    assert a[..6] + [Finish(0)] == a[..7] && a[..7] + [Finish(1)] == a;
  }

  lemma {:induction false} RaceEnds(text: CString, alert: Job, event: Job, t0: CString, t1: CString)
    requires alert.Alert? && event.Event? && Apply(alert, text) == Some(t0) && Apply(event, text) == Some(t1)
    ensures Now(Run(text, Race(alert, event))) == t1
    ensures Run(text, Race(alert, event)).log == RaceLog(alert, event)
    ensures AtMostOneSensor(Run(text, Race(alert, event)))
  {
    RaceSplits(text, alert, event);
    RaceReads(text, alert, event);
    RaceWrites(text, alert, event, t0, t1, Run(text, Race(alert, event)[..6]));
    RaceLeaves(text, alert, event, t0, t1, Run(text, Race(alert, event)[..6]));
  }

  lemma {:induction false} NoneCounted(log: seq<Entry>, n: nat, entry: CString)
    requires n <= |log| && forall i :: 0 <= i < n ==> !log[i].Wrote?
    ensures Counts(log, 0, n, entry) == 0
  {
    if n > 0 { NoneCounted(log, n - 1, entry); }
  }

  lemma {:induction false} RaceCounts(entry: CString, event: Job)
    requires event.Event?
    ensures Counts(RaceLog(Alert(entry), event), 0, |RaceLog(Alert(entry), event)|, entry) == 1
  {
    NoneCounted(RaceLog(Alert(entry), event), 6, entry);
    assert Counts(RaceLog(Alert(entry), event), 0, 7, entry) == 1;
  }

  /** A job that finds what it edits is written, and counts what it should. */
  lemma {:induction false} JobWritten(job: Job, text: CString, entry: CString)
    requires GoodText(text) && ApplyTree(job, Top(text)).Some?
    ensures Apply(job, text).Some?
    ensures Counter(Top(Apply(job, text).value), entry)
         == Counter(Top(text), entry) + if job == Alert(entry) then 1 else 0
  {
    ApplyIsTree(job, text, Top(text));
    WriteIsJob(job, text, Apply(job, text).value);
    JobCounts(job, Top(text), entry);
  }

  /** From every good state, for every entry with a counter and every event, there is a run of one
      alert process and one emergency process that completes an alert write and counts nothing:
      exactness needs the condition on windows. */
  lemma {:induction false} AlertsCanBeLost(text: CString, entry: CString, key: CString, value: CString)
    requires GoodText(text) && GetMember(Obj(Section(Top(text), ALERTS)), entry).Some?
    ensures var s := Run(text, Race(Alert(entry), Event(key, value)));
            && AtMostOneSensor(s) && Counts(s.log, 0, |s.log|, entry) == 1
            && Counter(Top(Now(s)), entry) == Counter(Top(text), entry)
  {
    var alert, event := Alert(entry), Event(key, value);
    JobWritten(alert, text, entry);
    JobWritten(event, text, entry);
    RaceEnds(text, alert, event, Apply(alert, text).value, Apply(event, text).value);
    RaceCounts(entry, event);
  }
}

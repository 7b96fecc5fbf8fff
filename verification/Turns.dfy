/** Turn by turn at the state file: what one process does when it comes to act, from any point of any
    run. */
module Turns {
  import opened CText
  import opened Json
  import opened CjsonHandler
  import opened StateFile
  import opened StateJobs
  import opened Dispatch
  import opened SharedState
  import opened StateRuns
  import opened AlertCounters
  import opened Readings

  predicate IsReady(s: State, pid: nat, kind: Kind) {
    |s.history| == |s.log| + 1 && pid in s.procs && s.procs[pid] == Process(kind, Ready)
  }

  // ----- raising a job --------------------------------------------------------------------

  /** An alert or an event, from the raising to the writing, with nobody in between. */
  function JobTurn(pid: nat, job: Job): seq<Action> { [Raise(pid, job), ReadFile(pid), Finish(pid)] }

  function AfterJob(s: State, pid: nat, job: Job): State
    requires |s.history| > 0
  {
    Step(Step(Step(s, Raise(pid, job)), ReadFile(pid)), Finish(pid))
  }

  lemma {:induction false} RunJobTurn(text: CString, actions: seq<Action>, pid: nat, job: Job)
    ensures Run(text, actions + JobTurn(pid, job)) == AfterJob(Run(text, actions), pid, job)
  {
    RunLast(text, actions, Raise(pid, job));
    RunLast(text, actions + [Raise(pid, job)], ReadFile(pid));
    RunLast(text, actions + [Raise(pid, job)] + [ReadFile(pid)], Finish(pid));
    assert actions + [Raise(pid, job)] + [ReadFile(pid)] + [Finish(pid)] == actions + JobTurn(pid, job);
  }

  lemma {:induction false} JobIsHeld(s: State, pid: nat, kind: Kind, job: Job)
    requires IsReady(s, pid, kind) && CanRaise(kind, job)
    ensures var s' := Step(Step(s, Raise(pid, job)), ReadFile(pid));
            && |s'.history| == |s'.log| + 1 && Now(s') == Now(s)
            && pid in s'.procs && s'.procs[pid] == Process(kind, Holding(job, Now(s), |s.log| + 1))
  {
    RaiseStep(s, pid, kind, job);
    ReadStep(Log(s, Raised(pid), Now(s), pid, Process(kind, Pending(job))), pid, kind, job);
  }

  /** A job that finds what it edits is written, and its process is ready for the next; one that does
      not leaves the file alone. */
  lemma {:induction false} JobTurnWrites(s: State, pid: nat, kind: Kind, job: Job)
    requires IsReady(s, pid, kind) && CanRaise(kind, job)
    ensures var s' := AfterJob(s, pid, job);
            && IsReady(s', pid, kind)
            && Now(s') == match Apply(job, Now(s)) case Some(t) => t case None => Now(s)
  {
    JobIsHeld(s, pid, kind, job);
    HeldIsSettled(Step(Step(s, Raise(pid, job)), ReadFile(pid)), pid, kind, job);
  }

  lemma {:induction false} HeldIsSettled(s: State, pid: nat, kind: Kind, job: Job)
    requires |s.history| == |s.log| + 1 > 1 && pid in s.procs && !kind.Tcp?
    requires s.procs[pid] == Process(kind, Holding(job, Now(s), |s.log| - 1))
    ensures var s' := Step(s, Finish(pid));
            && IsReady(s', pid, kind)
            && Now(s') == match Apply(job, Now(s)) case Some(t) => t case None => Now(s)
  {
  }

  /** An event recorded from any point of any run, alone: its key reads its text, or the number at the
      head of its text. */
  lemma {:induction false} EventIsRecorded(text: CString, actions: seq<Action>, pid: nat, key: CString, value: CString)
    requires IsReady(Run(text, actions), pid, Emergency) && GoodText(Now(Run(text, actions)))
    requires OverrideSafe(Section(Top(Now(Run(text, actions))), EMERGENCY), key)
    ensures var s := Run(text, actions + JobTurn(pid, Event(key, value)));
            && IsReady(s, pid, Emergency) && GoodText(Now(s))
            && Lookup(Section(Top(Now(s)), EMERGENCY), key) == Some(IntItem(value))
            && (NoNumber(value) ==> Lookup(Section(Top(Now(s)), EMERGENCY), key) == Some(Str(value)))
  {
    var s := Run(text, actions);
    RunJobTurn(text, actions, pid, Event(key, value));
    JobTurnWrites(s, pid, Emergency, Event(key, value));
    EventReads(Now(s), key, value);
    if NoNumber(value) { TextStaysText(value); }
  }

  lemma {:induction false} EventReads(text: CString, key: CString, value: CString)
    requires GoodText(text) && OverrideSafe(Section(Top(text), EMERGENCY), key)
    ensures var t := Apply(Event(key, value), text);
            && t.Some? && GoodText(t.value)
            && Lookup(Section(Top(t.value), EMERGENCY), key) == Some(IntItem(value))
  {
    var job := Event(key, value);
    ApplyIsTree(job, text, Top(text));
    WriteIsJob(job, text, Apply(job, text).value);
    ApplyLookup(job, Top(text), EMERGENCY);
    OverrideLookup(Section(Top(text), EMERGENCY), key, IntItem(value), key);
  }

  /** An alert counted from any point of any run, alone: its counter is one more, the others stay. */
  lemma {:induction false} AlertIsCounted(text: CString, actions: seq<Action>, pid: nat, entry: CString, other: CString)
    requires IsReady(Run(text, actions), pid, Sensor) && GoodText(Now(Run(text, actions)))
    requires GetMember(Obj(Section(Top(Now(Run(text, actions))), ALERTS)), entry).Some?
    ensures var s, s' := Run(text, actions), Run(text, actions + JobTurn(pid, Alert(entry)));
            && IsReady(s', pid, Sensor)
            && Counter(Top(Now(s')), other) == Counter(Top(Now(s)), other) + if other == entry then 1 else 0
  {
    var s := Run(text, actions);
    RunJobTurn(text, actions, pid, Alert(entry));
    JobTurnWrites(s, pid, Sensor, Alert(entry));
    AlertCountsOne(Now(s), entry, other);
  }

  lemma {:induction false} AlertCountsOne(text: CString, entry: CString, other: CString)
    requires GoodText(text) && GetMember(Obj(Section(Top(text), ALERTS)), entry).Some?
    ensures var t := Apply(Alert(entry), text);
            t.Some? && Counter(Top(t.value), other) == Counter(Top(text), other) + if other == entry then 1 else 0
  {
    ApplyIsTree(Alert(entry), text, Top(text));
    WriteIsJob(Alert(entry), text, Apply(Alert(entry), text).value);
    JobCounts(Alert(entry), Top(text), other);
  }

  // ----- requests ------------------------------------------------------------------------

  /** What a process is after a request: gone after a close, with an update to do after a granted one,
      ready for the next after any other. The file does not change. */
  lemma {:induction false} RequestIsTaken(s: State, pid: nat, kind: Kind, request: CString)
    requires IsReady(s, pid, kind) && (kind.Tcp? || kind.Udp?)
    ensures var s' := Step(s, Receive(pid, request));
            && Now(s') == Now(s) && pid in s'.procs && s'.procs[pid].kind == kind
            && (Asks(request, 0) ==> s'.procs[pid].stage == Ended)
            && (kind.Tcp? && Asks(request, 2) && SignedByAdmin(request) ==>
                  s'.procs[pid].stage == Pending(Supply(request)))
            && (!Asks(request, 0) && !(kind.Tcp? && Asks(request, 2) && SignedByAdmin(request)) ==>
                  s'.procs[pid].stage == Ready)
  {
    TcpReactions(request);
    UdpReactions(request);
  }

  /** An update that cannot be made, or a file that cannot be opened, ends a connection process and leaves
      the file alone; other processes go on. */
  lemma {:induction false} FailureIsDropped(s: State, pid: nat)
    requires |s.history| == |s.log| + 1 && pid in s.procs && (s.procs[pid].stage.Pending? || s.procs[pid].stage.Holding?)
    ensures var s' := Step(s, FailIo(pid));
            && Now(s') == Now(s) && pid in s'.procs
            && s'.procs[pid] == Process(s.procs[pid].kind, if s.procs[pid].kind.Tcp? then Ended else Ready)
    ensures var p := s.procs[pid];
            p.stage.Holding? && Apply(p.stage.job, p.stage.copy) == None ==>
              Step(s, Finish(pid)) == Step(s, FailIo(pid))
  {
  }

  /** A process that has ended never acts again. */
  lemma {:induction false} EndedIsFinal(s: State, pid: nat, a: Action)
    requires |s.history| > 0 && pid in s.procs && s.procs[pid].stage.Ended?
    ensures pid in Step(s, a).procs && Step(s, a).procs[pid] == s.procs[pid]
    ensures a.pid == pid ==> Step(s, a) == s
  {
  }

  /** Nobody acts before being forked, and nobody is forked twice. */
  lemma {:induction false} ForkComesFirst(s: State, pid: nat, kind: Kind, a: Action)
    requires |s.history| > 0
    ensures pid !in s.procs ==> var s' := Step(s, Fork(pid, kind));
                                Now(s') == Now(s) && pid in s'.procs && s'.procs[pid] == Process(kind, Ready)
    ensures pid in s.procs ==> Step(s, Fork(pid, kind)) == s
    ensures a.pid !in s.procs && !a.Fork? ==> Step(s, a) == s
  {
  }

  /** Only sensors raise alerts and only emergency processes events; only servers take requests; and
      nobody starts a second job. */
  lemma {:induction false} OutOfTurn(s: State, pid: nat, job: Job, request: CString)
    requires |s.history| > 0 && pid in s.procs
    ensures !(s.procs[pid].kind.Sensor? && job.Alert?) && !(s.procs[pid].kind.Emergency? && job.Event?) ==>
              Step(s, Raise(pid, job)) == s
    ensures s.procs[pid].kind.Sensor? || s.procs[pid].kind.Emergency? ==> Step(s, Receive(pid, request)) == s
    ensures !s.procs[pid].stage.Ready? ==> Step(s, Raise(pid, job)) == s && Step(s, Receive(pid, request)) == s
    ensures !s.procs[pid].stage.Pending? ==> Step(s, ReadFile(pid)) == s
    ensures !s.procs[pid].stage.Holding? ==> Step(s, Finish(pid)) == s
  {
  }
}

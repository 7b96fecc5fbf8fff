/** Processes that read the whole state file, edit their copy and write it all back, interleaved
    in every possible way. Nothing excludes one process from another's read-to-write window. */
module SharedState {
  import opened CText
  import opened StateJobs
  import opened Dispatch

  datatype Kind = Tcp | Udp | Sensor | Emergency

  /** Between requests; with a job to do; between `read_file` and `write_file`; gone. */
  datatype Stage = Ready | Pending(job: Job) | Holding(job: Job, copy: CString, readAt: nat) | Ended

  datatype Process = Process(kind: Kind, stage: Stage)

  datatype Entry =
    | Forked(pid: nat)
    | Received(pid: nat, kind: Kind, request: CString)
    | Raised(pid: nat)
    | Read(pid: nat)
    | Wrote(pid: nat, job: Job, readAt: nat)
    | GaveUp(pid: nat)

  /** `history[i]` is the file's text after the first `i` entries of the log. */
  datatype State = State(history: seq<CString>, log: seq<Entry>, procs: map<nat, Process>)

  datatype Action =
    | Fork(pid: nat, kind: Kind)
    | Receive(pid: nat, request: CString)
    | Raise(pid: nat, job: Job)
    | ReadFile(pid: nat)
    | Finish(pid: nat)
    | FailIo(pid: nat)

  // ----- one step ------------------------------------------------------------------------

  function Log(s: State, e: Entry, text: CString, pid: nat, p: Process): State {
    State(s.history + [text], s.log + [e], s.procs[pid := p])
  }

  /** Sensors raise alerts and emergency processes raise events. */
  predicate CanRaise(kind: Kind, job: Job) {
    (kind.Sensor? && job.Alert?) || (kind.Emergency? && job.Event?)
  }

  function AfterRequest(kind: Kind, request: CString): Stage {
    match (if kind.Tcp? then TcpReaction(request) else UdpReaction(request))
    case Close => Ended
    case Modify => Pending(Supply(request))
    case _ => Ready
  }

  /** A job is dropped: a TCP process then exits. */
  function Drop(s: State, pid: nat, p: Process): State
    requires |s.history| > 0
  {
    Log(s, GaveUp(pid), s.history[|s.history| - 1], pid, p.(stage := if p.kind.Tcp? then Ended else Ready))
  }

  /** The end of a job: the new text is written, or the job is dropped. */
  function Settle(s: State, pid: nat, p: Process, result: Option<CString>): State
    requires |s.history| > 0 && p.stage.Holding?
  {
    match result
    case Some(t) => Log(s, Wrote(pid, p.stage.job, p.stage.readAt), t, pid, p.(stage := Ready))
    case None => Drop(s, pid, p)
  }

  /** A step of one process; an action that is not enabled changes nothing. `FailIo` is a file that
      cannot be opened, for the reading or for the writing. */
  function Step(s: State, a: Action): (s': State)
    requires |s.history| > 0
    ensures |s'.history| > 0
  {
    var now := s.history[|s.history| - 1];
    if a.Fork? then
      if a.pid in s.procs then s else Log(s, Forked(a.pid), now, a.pid, Process(a.kind, Ready))
    else if a.pid !in s.procs then s
    else
      var p := s.procs[a.pid];
      match a
      case Receive(pid, request) =>
        if p.stage.Ready? && (p.kind.Tcp? || p.kind.Udp?)
        then Log(s, Received(pid, p.kind, request), now, pid, p.(stage := AfterRequest(p.kind, request)))
        else s
      case Raise(pid, job) =>
        if p.stage.Ready? && CanRaise(p.kind, job)
        then Log(s, Raised(pid), now, pid, p.(stage := Pending(job)))
        else s
      case ReadFile(pid) =>
        if p.stage.Pending?
        then Log(s, Read(pid), now, pid, p.(stage := Holding(p.stage.job, now, |s.log|)))
        else s
      case Finish(pid) =>
        if p.stage.Holding? then Settle(s, pid, p, Apply(p.stage.job, p.stage.copy)) else s
      case FailIo(pid) =>
        if p.stage.Pending? || p.stage.Holding? then Drop(s, pid, p) else s
  }

  /** The state after any sequence of actions, by any processes, from a file with this text. */
  function Run(text: CString, actions: seq<Action>): (s: State)
    ensures |s.history| == |s.log| + 1
    decreases |actions|
  {
    if actions == [] then State([text], [], map[])
    else Step(Run(text, actions[..|actions| - 1]), actions[|actions| - 1])
  }

  // ----- what every step keeps -----------------------------------------------------------

  /** A modify request that a TCP process received and whose credentials passed. */
  predicate Granted(log: seq<Entry>, pid: nat, request: CString) {
    Received(pid, Tcp, request) in log && Asks(request, 2) && SignedByAdmin(request)
  }

  predicate JobGranted(log: seq<Entry>, pid: nat, job: Job) {
    job.Supply? ==> Granted(log, pid, job.request)
  }

  /** Only writes change the file, and each writes its job applied to the text it had read. */
  predicate EntryOk(history: seq<CString>, log: seq<Entry>, i: nat)
    requires i < |log| && |history| == |log| + 1
  {
    match log[i]
    case Wrote(pid, job, r) =>
      r <= i && Apply(job, history[r]) == Some(history[i + 1]) && JobGranted(log[..i], pid, job)
    case _ => history[i + 1] == history[i]
  }

  /** Who may hold which job. */
  predicate JobFits(kind: Kind, job: Job) {
    match job case Supply(_) => kind.Tcp? case Alert(_) => kind.Sensor? case Event(_, _) => kind.Emergency?
  }

  predicate ProcessOk(s: State, pid: nat)
    requires pid in s.procs
  {
    var p := s.procs[pid];
    match p.stage
    case Pending(job) => JobGranted(s.log, pid, job) && JobFits(p.kind, job)
    case Holding(job, copy, r) =>
      && JobGranted(s.log, pid, job) && JobFits(p.kind, job)
      && r < |s.history| && r <= |s.log| && copy == s.history[r]
    case _ => true
  }

  predicate WriterOk(s: State, i: nat)
    requires i < |s.log|
  {
    s.log[i].Wrote? ==> s.log[i].pid in s.procs && JobFits(s.procs[s.log[i].pid].kind, s.log[i].job)
  }

  ghost predicate Faithful(history: seq<CString>, log: seq<Entry>) {
    |history| == |log| + 1 && forall i :: 0 <= i < |log| ==> EntryOk(history, log, i)
  }

  ghost predicate Invariant(s: State) {
    && Faithful(s.history, s.log)
    && (forall pid :: pid in s.procs ==> ProcessOk(s, pid))
    && (forall i :: 0 <= i < |s.log| ==> WriterOk(s, i))
  }

  lemma {:induction false} FaithfulExtends(history: seq<CString>, log: seq<Entry>, text: CString, e: Entry)
    requires Faithful(history, log)
    requires EntryOk(history + [text], log + [e], |log|)
    ensures Faithful(history + [text], log + [e])
  {
    forall i | 0 <= i < |log| + 1 ensures EntryOk(history + [text], log + [e], i) {
      if i < |log| {
        assert EntryOk(history, log, i);
        assert (log + [e])[..i] == log[..i];
      }
    }
  }

  lemma {:induction false} OthersStayOk(s: State, e: Entry, text: CString, pid: nat, p: Process, q: nat)
    requires Invariant(s) && q in s.procs && q != pid
    ensures ProcessOk(Log(s, e, text, pid, p), q)
  {
    assert ProcessOk(s, q);
  }

  lemma {:induction false} LogKeeps(s: State, e: Entry, text: CString, pid: nat, p: Process)
    requires Invariant(s)
    requires EntryOk(s.history + [text], s.log + [e], |s.log|)
    requires ProcessOk(Log(s, e, text, pid, p), pid)
    requires pid in s.procs ==> p.kind == s.procs[pid].kind
    requires e.Wrote? ==> e.pid == pid && JobFits(p.kind, e.job)
    ensures Invariant(Log(s, e, text, pid, p))
  {
    var s' := Log(s, e, text, pid, p);
    forall i | 0 <= i < |s'.log| ensures WriterOk(s', i) {
      if i < |s.log| { assert WriterOk(s, i); assert s'.log[i] == s.log[i]; }
    }
    FaithfulExtends(s.history, s.log, text, e);
    forall q | q in Log(s, e, text, pid, p).procs ensures ProcessOk(Log(s, e, text, pid, p), q) {
      if q != pid { OthersStayOk(s, e, text, pid, p, q); }
    }
  }

  lemma {:induction false} StepKeeps(s: State, a: Action)
    requires Invariant(s)
    ensures Invariant(Step(s, a))
  {
    var now := s.history[|s.history| - 1];
    var s' := Step(s, a);
    if s' != s {
      var e := s'.log[|s.log|];
      var text := s'.history[|s.history|];
      var p := s'.procs[a.pid];
      assert s' == Log(s, e, text, a.pid, p);
      if a.pid in s.procs { assert ProcessOk(s, a.pid); }
      assert s'.log[..|s.log|] == s.log;
      LogKeeps(s, e, text, a.pid, p);
    }
  }

  lemma {:induction false} RunInvariant(text: CString, actions: seq<Action>)
    ensures Invariant(Run(text, actions))
    ensures Run(text, actions).history[0] == text
    decreases |actions|
  {
    if actions != [] {
      RunInvariant(text, actions[..|actions| - 1]);
      StepKeeps(Run(text, actions[..|actions| - 1]), actions[|actions| - 1]);
    }
  }

  // ----- single steps, where they are enabled ----------------------------------------------

  /** The file as it stands. */
  function Now(s: State): CString
    requires s.history != []
  {
    s.history[|s.history| - 1]
  }

  lemma {:induction false} RunLast(text: CString, actions: seq<Action>, a: Action)
    ensures Run(text, actions + [a]) == Step(Run(text, actions), a)
  {
    assert (actions + [a])[..|actions|] == actions;
  }

  lemma {:induction false} ForkStep(s: State, pid: nat, kind: Kind)
    requires |s.history| > 0 && pid !in s.procs
    ensures Step(s, Fork(pid, kind)) == Log(s, Forked(pid), Now(s), pid, Process(kind, Ready))
  {
  }

  lemma {:induction false} RaiseStep(s: State, pid: nat, kind: Kind, job: Job)
    requires |s.history| > 0 && pid in s.procs && s.procs[pid] == Process(kind, Ready) && CanRaise(kind, job)
    ensures Step(s, Raise(pid, job)) == Log(s, Raised(pid), Now(s), pid, Process(kind, Pending(job)))
  {
  }

  lemma {:induction false} ReceiveStep(s: State, pid: nat, request: CString)
    requires |s.history| > 0 && pid in s.procs && s.procs[pid] == Process(Tcp, Ready)
    requires TcpReaction(request) == Modify
    ensures Step(s, Receive(pid, request))
         == Log(s, Received(pid, Tcp, request), Now(s), pid, Process(Tcp, Pending(Supply(request))))
  {
  }

  lemma {:induction false} ReadStep(s: State, pid: nat, kind: Kind, job: Job)
    requires |s.history| > 0 && pid in s.procs && s.procs[pid] == Process(kind, Pending(job))
    ensures Step(s, ReadFile(pid)) == Log(s, Read(pid), Now(s), pid, Process(kind, Holding(job, Now(s), |s.log|)))
  {
  }

  /** A process that holds a text writes what its job makes of it. */
  lemma {:induction false} FinishSettles(s: State, pid: nat, p: Process)
    requires |s.history| > 0 && pid in s.procs && s.procs[pid] == p && p.stage.Holding?
    ensures Step(s, Finish(pid)) == Settle(s, pid, p, Apply(p.stage.job, p.stage.copy))
  {
  }

  lemma {:induction false} FinishWrites(s: State, pid: nat, p: Process, t: CString)
    requires |s.history| > 0 && pid in s.procs && s.procs[pid] == p && p.stage.Holding?
    requires Apply(p.stage.job, p.stage.copy) == Some(t)
    ensures Step(s, Finish(pid)) == Log(s, Wrote(pid, p.stage.job, p.stage.readAt), t, pid, p.(stage := Ready))
  {
    FinishSettles(s, pid, p);
  }
}

/** A TCP connection process: its command loop, and signal handlers that may interrupt the loop and
    each other while the connection is being ended. */
module Connection {
  import opened Dispatch

  datatype Signal = Int | Tstp | Term

  datatype Message = End | Status | Denial | Update

  /** Where a frame stands: in the command loop (before the receive, waiting in it, with a message,
      with a receive that a signal broke off, about to reply), at a handler's entry, or inside
      end_conn. The flag of the last four is false on the path taken when reading the pipe fails. */
  datatype Pc =
    | Loop
    | Waiting
    | Handling
    | BrokenOff
    | Sending(m: Message)
    | Entered
    | GetFlags
    | SetFlags
    | ReadPipe
    | ClosePipe(ok: bool)
    | SendEnd(ok: bool)
    | CloseSocket(ok: bool)
    | Leave(ok: bool)

  /** The command loop, or a handler for a signal. */
  datatype Frame = Main(pc: Pc) | Handler(signal: Signal, pc: Pc)

  datatype Life = Running | Exited(success: bool)

  /** The last frame is the one that runs. */
  datatype Process = Process(frames: seq<Frame>, pipeOpen: bool, socketOpen: bool, flag: bool,
                             sent: seq<Message>, status: Life)

  /** What the environment decides: the next request and which system calls fail. */
  datatype Env = Env(reaction: Reaction, recvFails: bool, statusFails: bool, updateFails: bool,
                     readFails: bool, sendFails: bool)

  datatype Action = Deliver(signal: Signal) | Go(env: Env)

  const START := Process([Main(Loop)], true, true, false, [], Running)

  // ----- one step ------------------------------------------------------------------------

  function Exit(p: Process, success: bool): Process { p.(status := Exited(success)) }

  function Top(p: Process): Frame
    requires p.frames != []
  {
    p.frames[|p.frames| - 1]
  }

  /** The running frame moves on. */
  function Goto(p: Process, pc: Pc): Process
    requires p.frames != []
  {
    p.(frames := p.frames[|p.frames| - 1 := Top(p).(pc := pc)])
  }

  /** A signal is blocked while its own handler is on the stack, and only then. */
  predicate Blocked(p: Process, signal: Signal) {
    exists i :: 0 <= i < |p.frames| && p.frames[i].Handler? && p.frames[i].signal == signal
  }

  /** The switch of the command loop; get_command answers 0 once a handler has set the flag. */
  function React(p: Process, env: Env): Process
    requires p.frames != []
  {
    match (if p.flag then Close else env.reaction)
    case Close => Goto(p, GetFlags)
    case SendStatus => if env.statusFails then Exit(p, false) else Goto(p, Sending(Status))
    case Deny => Goto(p, Sending(Denial))
    case Modify => if env.updateFails then Exit(p, false) else Goto(p, Sending(Update))
    case Ignore => Goto(p, Loop)
  }

  /** The handlers do not restart system calls: one that returns breaks off a receive that waits. */
  function BreakOff(p: Process): (p': Process)
    ensures |p'.frames| == |p.frames|
  {
    if p.frames != [] && Top(p).Main? && Top(p).pc.Waiting? then Goto(p, BrokenOff) else p
  }

  /** A handler's first statements: SIGINT and SIGTSTP go to end_conn, SIGTERM returns. */
  function Enter(p: Process): Process
    requires p.frames != []
  {
    if Top(p).Main? then p
    else match Top(p).signal
      case Int => Goto(p, GetFlags).(flag := true)
      case Tstp => Goto(p, GetFlags)
      case Term => if |p.frames| == 1 then p else BreakOff(p.(frames := p.frames[..|p.frames| - 1]))
  }

  function Transmit(p: Process, m: Message, fails: bool, next: Pc): Process
    requires p.frames != []
  {
    if fails || !p.socketOpen then Exit(p, false) else Goto(p, next).(sent := p.sent + [m])
  }

  function Advance(p: Process, env: Env): Process
    requires p.frames != []
  {
    match Top(p).pc
    case Loop => Goto(p, Waiting)
    case Waiting => if env.recvFails then Exit(p, false) else Goto(p, Handling)
    case Handling => React(p, env)
    case BrokenOff => Exit(p, false)
    case Sending(m) => Transmit(p, m, env.sendFails, Loop)
    case Entered => Enter(p)
    case GetFlags => if p.pipeOpen then Goto(p, SetFlags) else Exit(p, false)
    case SetFlags => if p.pipeOpen then Goto(p, ReadPipe) else Exit(p, false)
    case ReadPipe => Goto(p, ClosePipe(p.pipeOpen && !env.readFails))
    case ClosePipe(ok) => Goto(p, SendEnd(ok)).(pipeOpen := false)
    case SendEnd(ok) => Transmit(p, End, env.sendFails, CloseSocket(ok))
    case CloseSocket(ok) => Goto(p, Leave(ok)).(socketOpen := false)
    case Leave(ok) => Exit(p, ok)
  }

  function Step(p: Process, a: Action): (p': Process)
    requires p.frames != []
    ensures p'.frames != []
  {
    if !p.status.Running? then p
    else match a
      case Deliver(signal) =>
        if Blocked(p, signal) then p else p.(frames := p.frames + [Handler(signal, Entered)])
      case Go(env) => Advance(p, env)
  }

  // ----- the invariant -------------------------------------------------------------------

  /** Past the closing of the pipe. */
  predicate Late(f: Frame) { f.pc.SendEnd? || f.pc.CloseSocket? || f.pc.Leave? }

  /** Past the sending of the end message. */
  predicate Done(f: Frame) { f.pc.CloseSocket? || f.pc.Leave? }

  /** A handler that has not passed the first check of end_conn. */
  predicate Fresh(f: Frame) { f.Handler? && (f.pc.Entered? || f.pc.GetFlags?) }

  /** The end message is sent at most once, and nothing is sent after it. */
  predicate EndIsLast(sent: seq<Message>) {
    forall i :: 0 <= i < |sent| && sent[i] == End ==> i == |sent| - 1
  }

  predicate InLoop(pc: Pc) { pc.Loop? || pc.Waiting? || pc.Handling? || pc.BrokenOff? || pc.Sending? }

  /** Frame by frame: only the bottom frame is the loop; a SIGTERM handler never gets past its entry. */
  predicate FrameOk(p: Process, i: nat)
    requires i < |p.frames|
  {
    var f := p.frames[i];
    && (f.Main? <==> i == 0)
    && (f.Handler? ==> !InLoop(f.pc))
    && (f.Main? ==> !f.pc.Entered?)
    && (f.pc.Sending? ==> f.pc.m != End)
    && (f.Handler? && f.signal.Term? ==> f.pc.Entered?)
    && (Late(f) ==> !p.pipeOpen && forall j :: i < j < |p.frames| ==> Fresh(p.frames[j]))
  }

  predicate Stack(p: Process) {
    |p.frames| >= 1 && forall i :: 0 <= i < |p.frames| ==> FrameOk(p, i)
  }

  predicate SomeLate(p: Process) { exists i :: 0 <= i < |p.frames| && Late(p.frames[i]) }
  predicate SomeDone(p: Process) { exists i :: 0 <= i < |p.frames| && Done(p.frames[i]) }
  predicate SomeInt(p: Process) { exists i :: 0 <= i < |p.frames| && p.frames[i].Handler? && p.frames[i].signal.Int? }

  ghost predicate Invariant(p: Process) {
    && Stack(p)
    && (!p.pipeOpen ==> SomeLate(p))
    && (End in p.sent <==> SomeDone(p))
    && EndIsLast(p.sent)
    && (p.flag ==> SomeInt(p))
    && (p.status == Exited(true) ==> SomeDone(p))
  }

  // ----- every step keeps it -------------------------------------------------------------

  /** While the running frame is past the first check the pipe is open and nothing was ended. */
  lemma {:induction false} TopPassedCheck(p: Process)
    requires Invariant(p) && !Late(Top(p)) && !Fresh(Top(p))
    ensures p.pipeOpen && End !in p.sent
  {
    forall i | 0 <= i < |p.frames| ensures !Late(p.frames[i]) {
      assert FrameOk(p, i);
    }
  }

  /** A running frame past the closing of the pipe is the only one past it. */
  lemma {:induction false} TopLateIsOnly(p: Process, i: nat)
    requires Invariant(p) && Late(Top(p)) && i < |p.frames| - 1
    ensures !Late(p.frames[i])
  {
    assert FrameOk(p, i);
  }

  lemma {:induction false} PushKeeps(p: Process, signal: Signal)
    requires Invariant(p) && p.status.Running?
    ensures Invariant(p.(frames := p.frames + [Handler(signal, Entered)]))
  {
    var p' := p.(frames := p.frames + [Handler(signal, Entered)]);
    forall i | 0 <= i < |p'.frames| ensures FrameOk(p', i) {
      if i < |p.frames| { assert FrameOk(p, i); assert p'.frames[i] == p.frames[i]; }
    }
    Carries(p, p');
  }

  /** Frames that are still on the stack keep counting. */
  lemma {:induction false} Carries(p: Process, p': Process)
    requires |p.frames| <= |p'.frames| && forall i :: 0 <= i < |p.frames| ==> p'.frames[i] == p.frames[i]
    ensures SomeLate(p) ==> SomeLate(p')
    ensures SomeDone(p) ==> SomeDone(p')
    ensures SomeInt(p) ==> SomeInt(p')
  {
    if SomeLate(p) { var i :| 0 <= i < |p.frames| && Late(p.frames[i]); assert Late(p'.frames[i]); }
    if SomeDone(p) { var i :| 0 <= i < |p.frames| && Done(p.frames[i]); assert Done(p'.frames[i]); }
    if SomeInt(p) { var i :| 0 <= i < |p.frames| && p.frames[i].Handler? && p.frames[i].signal.Int?; assert p'.frames[i].Handler? && p'.frames[i].signal.Int?; }
  }

  /** The same in both directions when only the running frame changed. */
  lemma {:induction false} SameBelow(p: Process, pc: Pc)
    requires p.frames != [] && Late(Top(p)) == Late(Top(Goto(p, pc))) && Done(Top(p)) == Done(Top(Goto(p, pc)))
    ensures SomeLate(p) <==> SomeLate(Goto(p, pc))
    ensures SomeDone(p) <==> SomeDone(Goto(p, pc))
    ensures SomeInt(p) <==> SomeInt(Goto(p, pc))
  {
    var p' := Goto(p, pc);
    assert forall i :: 0 <= i < |p.frames| ==> Late(p.frames[i]) == Late(p'.frames[i]);
    assert forall i :: 0 <= i < |p.frames| ==> Done(p.frames[i]) == Done(p'.frames[i]);
    assert forall i :: 0 <= i < |p.frames| && p.frames[i].Handler? ==>
             p'.frames[i].Handler? && p.frames[i].signal == p'.frames[i].signal;
    assert forall i :: 0 <= i < |p.frames| && p'.frames[i].Handler? ==> p.frames[i].Handler?;
  }

  /** A pc that suits the frame, short of closing the pipe. */
  predicate Suits(f: Frame, pc: Pc) {
    && !Late(f.(pc := pc))
    && (f.Handler? ==> !InLoop(pc) && (f.signal.Term? ==> pc.Entered?))
    && (f.Main? ==> !pc.Entered?)
    && (pc.Sending? ==> pc.m != End)
  }

  /** Moves short of closing the pipe. */
  lemma {:induction false} EarlyMove(p: Process, pc: Pc)
    requires Invariant(p) && p.status.Running? && !Late(Top(p)) && Suits(Top(p), pc)
    requires p.pipeOpen || Fresh(Top(p).(pc := pc))
    ensures Invariant(Goto(p, pc))
  {
    var p' := Goto(p, pc);
    forall i | 0 <= i < |p'.frames| ensures FrameOk(p', i) {
      assert FrameOk(p, i);
    }
    SameBelow(p, pc);
  }

  /** Closing the pipe: the frame becomes the one that ends the connection. */
  lemma {:induction false} CloseMove(p: Process, ok: bool)
    requires Invariant(p) && p.status.Running? && Top(p).pc == ClosePipe(ok)
    ensures Invariant(Goto(p, SendEnd(ok)).(pipeOpen := false))
  {
    TopPassedCheck(p);
    var p' := Goto(p, SendEnd(ok)).(pipeOpen := false);
    var t := |p.frames| - 1;
    forall i | 0 <= i < |p'.frames| ensures FrameOk(p', i) && !Done(p'.frames[i]) {
      assert FrameOk(p, i);
    }
    assert Late(p'.frames[t]);
    if p.flag { IntStays(p, SendEnd(ok)); assert p'.frames == Goto(p, SendEnd(ok)).frames; }
  }

  lemma {:induction false} IntStays(p: Process, pc: Pc)
    requires p.frames != [] && SomeInt(p)
    ensures SomeInt(Goto(p, pc))
  {
    var i :| 0 <= i < |p.frames| && p.frames[i].Handler? && p.frames[i].signal.Int?;
    assert Goto(p, pc).frames[i].Handler? && Goto(p, pc).frames[i].signal.Int?;
  }

  /** Sending the end message: it had not been sent, and now is, last. */
  lemma {:induction false} SendMove(p: Process, ok: bool)
    requires Invariant(p) && p.status.Running? && Top(p).pc == SendEnd(ok)
    ensures Invariant(Goto(p, CloseSocket(ok)).(sent := p.sent + [End]))
  {
    var p' := Goto(p, CloseSocket(ok)).(sent := p.sent + [End]);
    var t := |p.frames| - 1;
    forall i | 0 <= i < |p'.frames| ensures FrameOk(p', i) && !Done(p.frames[i]) {
      assert FrameOk(p, i);
      if i < t { TopLateIsOnly(p, i); }
    }
    assert Late(p'.frames[t]) && Done(p'.frames[t]);
    assert !SomeDone(p);
    if p.flag { IntStays(p, CloseSocket(ok)); assert p'.frames == Goto(p, CloseSocket(ok)).frames; }
  }

  lemma {:induction false} LeaveMove(p: Process, ok: bool)
    requires Invariant(p) && p.status.Running? && Top(p).pc == CloseSocket(ok)
    ensures Invariant(Goto(p, Leave(ok)).(socketOpen := false))
  {
    var p' := Goto(p, Leave(ok)).(socketOpen := false);
    forall i | 0 <= i < |p'.frames| ensures FrameOk(p', i) {
      assert FrameOk(p, i);
    }
    SameBelow(p, Leave(ok));
    assert p'.frames == Goto(p, Leave(ok)).frames;
  }

  /** A SIGTERM handler returns: the frame below runs again, maybe with its receive broken off. */
  lemma {:induction false} ReturnMove(p: Process)
    requires Invariant(p) && p.status.Running? && Top(p).Handler? && Top(p).signal.Term?
    ensures Invariant(BreakOff(p.(frames := p.frames[..|p.frames| - 1])))
  {
    var p' := p.(frames := p.frames[..|p.frames| - 1]);
    PopMove(p);
    if Top(p').Main? && Top(p').pc.Waiting? {
      TopPassedCheck(p');
      EarlyMove(p', BrokenOff);
    }
  }

  lemma {:induction false} PopMove(p: Process)
    requires Invariant(p) && p.status.Running? && Top(p).Handler? && Top(p).signal.Term?
    ensures |p.frames| >= 2 && Invariant(p.(frames := p.frames[..|p.frames| - 1]))
  {
    var t := |p.frames| - 1;
    var p' := p.(frames := p.frames[..t]);
    assert FrameOk(p, t);
    forall i | 0 <= i < t ensures FrameOk(p', i) {
      assert FrameOk(p, i);
      assert p'.frames[i] == p.frames[i];
    }
    Carries(p', p);
    if SomeLate(p) { var i :| 0 <= i < |p.frames| && Late(p.frames[i]); assert Late(p'.frames[i]); }
    if SomeDone(p) { var i :| 0 <= i < |p.frames| && Done(p.frames[i]); assert Done(p'.frames[i]); }
    if SomeInt(p) {
      var i :| 0 <= i < |p.frames| && p.frames[i].Handler? && p.frames[i].signal.Int?;
      assert p'.frames[i].Handler? && p'.frames[i].signal.Int?;
    }
  }

  /** A reply from the command loop: the loop runs, so nothing was ended yet. */
  lemma {:induction false} ReplyMove(p: Process, m: Message)
    requires Invariant(p) && p.status.Running? && Top(p).pc == Sending(m)
    ensures Invariant(Goto(p, Loop).(sent := p.sent + [m]))
  {
    assert FrameOk(p, |p.frames| - 1);
    TopPassedCheck(p);
    EarlyMove(p, Loop);
    var p' := Goto(p, Loop).(sent := p.sent + [m]);
    assert p'.frames == Goto(p, Loop).frames;
    assert forall i :: 0 <= i < |p.frames| ==> FrameOk(p', i) == FrameOk(Goto(p, Loop), i);
  }

  lemma {:induction false} ExitMove(p: Process, success: bool)
    requires Invariant(p) && p.status.Running? && (success ==> Done(Top(p)))
    ensures Invariant(Exit(p, success))
  {
    forall i | 0 <= i < |p.frames| ensures FrameOk(Exit(p, success), i) { assert FrameOk(p, i); }
    Carries(p, Exit(p, success));
    Carries(Exit(p, success), p);
    if success { assert Done(Exit(p, success).frames[|p.frames| - 1]); }
  }

  lemma {:induction false} EnterKeeps(p: Process, env: Env)
    requires Invariant(p) && p.status.Running? && Top(p).pc.Entered?
    ensures Invariant(Advance(p, env))
  {
    assert FrameOk(p, |p.frames| - 1);
    if Top(p).signal.Term? {
      ReturnMove(p);
      PopMove(p);
    } else {
      EarlyMove(p, GetFlags);
      if Top(p).signal.Int? { FlagMove(Goto(p, GetFlags)); }
    }
  }

  lemma {:induction false} LoopKeeps(p: Process, env: Env)
    requires Invariant(p) && p.status.Running?
    requires Top(p).pc.Loop? || Top(p).pc.Waiting? || Top(p).pc.Handling? || Top(p).pc.BrokenOff?
    ensures Invariant(Advance(p, env))
  {
    assert FrameOk(p, |p.frames| - 1);
    TopPassedCheck(p);
    ExitMove(p, false);
    if Top(p).pc.Loop? {
      EarlyMove(p, Waiting);
    } else if Top(p).pc.Waiting? {
      EarlyMove(p, Handling);
    } else if Top(p).pc.Handling? {
      EarlyMove(p, Loop);
      EarlyMove(p, GetFlags);
      EarlyMove(p, Sending(Status));
      EarlyMove(p, Sending(Denial));
      EarlyMove(p, Sending(Update));
    }
  }

  lemma {:induction false} FlagMove(p: Process)
    requires Invariant(p) && Top(p).Handler? && Top(p).signal.Int?
    ensures Invariant(p.(flag := true))
  {
    var p' := p.(flag := true);
    forall i | 0 <= i < |p.frames| ensures FrameOk(p', i) { assert FrameOk(p, i); }
    assert p'.frames[|p.frames| - 1].Handler?;
    Carries(p, p');
    Carries(p', p);
  }

  lemma {:induction false} CheckKeeps(p: Process, env: Env)
    requires Invariant(p) && p.status.Running?
    requires Top(p).pc.GetFlags? || Top(p).pc.SetFlags? || Top(p).pc.ReadPipe?
    ensures Invariant(Advance(p, env))
  {
    assert FrameOk(p, |p.frames| - 1);
    if Top(p).pc.GetFlags? {
      if p.pipeOpen { EarlyMove(p, SetFlags); } else { ExitMove(p, false); }
    } else {
      TopPassedCheck(p);
      EarlyMove(p, if Top(p).pc.SetFlags? then ReadPipe else ClosePipe(!env.readFails));
    }
  }

  lemma {:induction false} EndKeeps(p: Process, env: Env)
    requires Invariant(p) && p.status.Running?
    requires Top(p).pc.Sending? || Top(p).pc.ClosePipe? || Late(Top(p))
    ensures Invariant(Advance(p, env))
  {
    match Top(p).pc
    case Sending(m) => ReplyMove(p, m); ExitMove(p, false);
    case ClosePipe(ok) => CloseMove(p, ok);
    case SendEnd(ok) => SendMove(p, ok); ExitMove(p, false);
    case CloseSocket(ok) => LeaveMove(p, ok);
    case Leave(ok) => ExitMove(p, ok);
  }

  lemma {:induction false} StepKeeps(p: Process, a: Action)
    requires Invariant(p)
    ensures Invariant(Step(p, a))
  {
    if p.status.Running? {
      match a
      case Deliver(signal) => PushKeeps(p, signal);
      case Go(env) =>
        match Top(p).pc {
          case Loop | Waiting | Handling | BrokenOff => LoopKeeps(p, env);
          case Entered => EnterKeeps(p, env);
          case GetFlags | SetFlags | ReadPipe => CheckKeeps(p, env);
          case _ => EndKeeps(p, env);
        }
    }
  }

  // ----- whole runs ----------------------------------------------------------------------

  /** The process after any sequence of requests, signals and system-call outcomes. */
  function Run(actions: seq<Action>): (p: Process)
    ensures p.frames != []
    decreases |actions|
  {
    if actions == [] then START
    else Step(Run(actions[..|actions| - 1]), actions[|actions| - 1])
  }

  lemma {:induction false} RunInvariant(actions: seq<Action>)
    ensures Invariant(Run(actions))
    decreases |actions|
  {
    if actions == [] {
      assert FrameOk(START, 0);
    } else {
      RunInvariant(actions[..|actions| - 1]);
      StepKeeps(Run(actions[..|actions| - 1]), actions[|actions| - 1]);
    }
  }

  /** Over every order of requests and signals, one handler interrupting another included, the
      client gets at most one end message and nothing after it. */
  lemma {:induction false} AtMostOneEndAndLast(actions: seq<Action>)
    ensures EndIsLast(Run(actions).sent)
  {
    RunInvariant(actions);
  }

  /** A process that exits successfully has told its client. */
  lemma {:induction false} SuccessSaysEnd(actions: seq<Action>)
    requires Run(actions).status == Exited(true)
    ensures var sent := Run(actions).sent; sent != [] && sent[|sent| - 1] == End
  {
    RunInvariant(actions);
  }

  /** The command loop never sees the flag that SIGINT sets: the handler does not return to it. */
  lemma {:induction false} LoopNeverSeesFlag(actions: seq<Action>)
    requires Top(Run(actions)).Main?
    ensures !Run(actions).flag
  {
    RunInvariant(actions);
    MainRunsUnflagged(Run(actions));
  }

  lemma {:induction false} MainRunsUnflagged(p: Process)
    requires Invariant(p) && Top(p).Main?
    ensures !p.flag
  {
    assert FrameOk(p, |p.frames| - 1);
    assert |p.frames| == 1 && !SomeInt(p);
  }

  function Advances(p: Process, env: Env, n: nat): (p': Process)
    requires p.frames != []
    ensures p'.frames != []
  {
    if n == 0 then p else Step(Advances(p, env, n - 1), Go(env))
  }

  lemma {:induction false} UndisturbedCheck(p: Process, env: Env)
    requires p.frames != [] && p.status.Running? && p.pipeOpen && Top(p).pc.GetFlags? && !env.readFails
    ensures Advances(p, env, 3) == Goto(p, ClosePipe(true))
  {
    assert Advances(p, env, 1) == Goto(p, SetFlags);
    assert Advances(p, env, 2) == Goto(p, ReadPipe);
  }

  lemma {:induction false} UndisturbedSend(p: Process, env: Env)
    requires p.frames != [] && p.status.Running? && p.socketOpen && Top(p).pc == ClosePipe(true) && !env.sendFails
    ensures Advances(p, env, 4).status == Exited(true) && Advances(p, env, 4).sent == p.sent + [End]
  {
    assert Top(Advances(p, env, 1)).pc == SendEnd(true);
    assert Top(Advances(p, env, 2)).pc == CloseSocket(true) && Advances(p, env, 2).sent == p.sent + [End];
    assert Top(Advances(p, env, 3)).pc == Leave(true) && Advances(p, env, 3).sent == p.sent + [End];
  }

  /** Left alone, end_conn sends the end message and exits successfully. */
  lemma {:induction false} UndisturbedEnd(p: Process, env: Env)
    requires p.frames != [] && p.status.Running? && p.pipeOpen && p.socketOpen && Top(p).pc.GetFlags?
    requires !env.readFails && !env.sendFails
    ensures var p' := Advances(Advances(p, env, 3), env, 4);
            p'.status == Exited(true) && p'.sent == p.sent + [End]
  {
    UndisturbedCheck(p, env);
    UndisturbedSend(Goto(p, ClosePipe(true)), env);
  }

  /** "At most" cannot be "exactly": a SIGINT or SIGTSTP that arrives between the closing of the
      pipe and the sending ends the process with no end message, whatever else happens. */
  lemma {:induction false} InterruptedEndIsSilent(actions: seq<Action>, signal: Signal, e1: Env, e2: Env)
    requires Run(actions).status.Running? && Top(Run(actions)).pc.SendEnd?
    requires !signal.Term? && !Blocked(Run(actions), signal)
    ensures var p := Step(Step(Step(Run(actions), Deliver(signal)), Go(e1)), Go(e2));
            p.status == Exited(false) && p.sent == Run(actions).sent && End !in p.sent
  {
    RunInvariant(actions);
    NotYetEnded(Run(actions));
    FreshHandlerExits(Run(actions), signal, e1, e2);
  }

  lemma {:induction false} NotYetEnded(p: Process)
    requires Invariant(p) && Top(p).pc.SendEnd?
    ensures End !in p.sent && !p.pipeOpen
  {
    forall i | 0 <= i < |p.frames| ensures !Done(p.frames[i]) {
      if i < |p.frames| - 1 { TopLateIsOnly(p, i); }
    }
    assert FrameOk(p, |p.frames| - 1);
  }

  lemma {:induction false} FreshHandlerExits(p: Process, signal: Signal, e1: Env, e2: Env)
    requires p.frames != [] && p.status.Running? && !p.pipeOpen && !signal.Term? && !Blocked(p, signal)
    ensures var p' := Step(Step(Step(p, Deliver(signal)), Go(e1)), Go(e2));
            p'.status == Exited(false) && p'.sent == p.sent
  {
    var p1 := Step(p, Deliver(signal));
    assert Top(p1) == Handler(signal, Entered);
    assert Top(Step(p1, Go(e1))) == Handler(signal, GetFlags);
  }

  /** The process after more actions. */
  function RunFrom(p: Process, actions: seq<Action>): (p': Process)
    requires p.frames != []
    ensures p'.frames != []
    decreases |actions|
  {
    if actions == [] then p
    else Step(RunFrom(p, actions[..|actions| - 1]), actions[|actions| - 1])
  }

  /** A SIGINT or SIGTSTP handler stands at position `i`. */
  predicate EndsHere(p: Process, i: nat) {
    0 < i < |p.frames| && p.frames[i].Handler? && !p.frames[i].signal.Term?
  }

  /** Only the pc of the running frame differs. */
  ghost predicate OnlyTopMoves(p: Process, p': Process)
    requires p.frames != []
  {
    p'.frames == p.frames || exists pc :: p'.frames == Goto(p, pc).frames
  }

  lemma {:induction false} MoveLeavesBelow(p: Process, p': Process, i: nat)
    requires p.frames != [] && EndsHere(p, i) && OnlyTopMoves(p, p')
    ensures EndsHere(p', i) && p'.frames[..i] == p.frames[..i]
  {
  }

  lemma {:induction false} AdvanceMovesTop(p: Process, env: Env)
    requires p.frames != [] && !(Top(p).Handler? && Top(p).signal.Term?)
    ensures OnlyTopMoves(p, Advance(p, env))
  {
  }

  lemma {:induction false} PopLeavesBelow(p: Process, i: nat)
    requires EndsHere(p, i) && i < |p.frames| - 1
    ensures var p' := BreakOff(p.(frames := p.frames[..|p.frames| - 1]));
            EndsHere(p', i) && p'.frames[..i] == p.frames[..i]
  {
    var below := p.(frames := p.frames[..|p.frames| - 1]);
    assert below.frames[i] == p.frames[i] && below.frames[..i] == p.frames[..i];
    assert OnlyTopMoves(below, BreakOff(below));
    MoveLeavesBelow(below, BreakOff(below), i);
  }

  lemma {:induction false} TermLeavesBelow(p: Process, env: Env, i: nat)
    requires EndsHere(p, i) && Top(p).Handler? && Top(p).signal.Term?
    ensures EndsHere(Advance(p, env), i) && Advance(p, env).frames[..i] == p.frames[..i]
  {
    if Top(p).pc.Entered? {
      PopLeavesBelow(p, i);
    } else {
      OtherMovesTop(p, env);
      MoveLeavesBelow(p, Advance(p, env), i);
    }
  }

  lemma {:induction false} OtherMovesTop(p: Process, env: Env)
    requires p.frames != [] && !Top(p).pc.Entered?
    ensures OnlyTopMoves(p, Advance(p, env))
  {
  }

  lemma {:induction false} StepLeavesBelow(p: Process, a: Action, i: nat)
    requires p.frames != [] && EndsHere(p, i)
    ensures EndsHere(Step(p, a), i) && Step(p, a).frames[..i] == p.frames[..i]
  {
    if p.status.Running? && a.Go? {
      if Top(p).Handler? && Top(p).signal.Term? {
        TermLeavesBelow(p, a.env, i);
      } else {
        AdvanceMovesTop(p, a.env);
        MoveLeavesBelow(p, Advance(p, a.env), i);
      }
    }
  }

  /** What a SIGINT or SIGTSTP handler interrupts never runs again: every frame below it stays as it
      is for the rest of the run, so end_conn never returns to anyone. */
  lemma {:induction false} InterruptedNeverResumes(p: Process, actions: seq<Action>, i: nat)
    requires p.frames != [] && EndsHere(p, i)
    ensures EndsHere(RunFrom(p, actions), i) && RunFrom(p, actions).frames[..i] == p.frames[..i]
    decreases |actions|
  {
    if actions != [] {
      var n := |actions| - 1;
      InterruptedNeverResumes(p, actions[..n], i);
      StepLeavesBelow(RunFrom(p, actions[..n]), actions[n], i);
    }
  }
}

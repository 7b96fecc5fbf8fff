/** Turn by turn: what a connection process left alone does with each request, each signal and each
    failing call. */
module ConnectionTurns {
  import opened Dispatch
  import opened Connection

  /** The loop runs, nothing has interrupted it, and the connection is open. */
  predicate AtLoop(p: Process, pc: Pc) {
    p.status.Running? && p.frames == [Main(pc)] && !p.flag && p.pipeOpen && p.socketOpen
  }

  predicate NothingFails(env: Env) {
    !env.recvFails && !env.statusFails && !env.updateFails && !env.readFails && !env.sendFails
  }

  lemma {:induction false} MoreAdvances(p: Process, env: Env, m: nat, n: nat)
    requires p.frames != []
    ensures Advances(p, env, m + n) == Advances(Advances(p, env, m), env, n)
  {
    if n > 0 {
      MoreAdvances(p, env, m, n - 1);
      OneAdvance(p, env, m + n);
      OneAdvance(Advances(p, env, m), env, n);
    }
  }

  lemma {:induction false} OneAdvance(p: Process, env: Env, n: nat)
    requires p.frames != [] && n > 0
    ensures Advances(p, env, n) == Step(Advances(p, env, n - 1), Go(env))
  {
  }

  /** The loop takes the next request. */
  lemma {:induction false} RequestIsReceived(p: Process, env: Env)
    requires AtLoop(p, Loop) && !env.recvFails
    ensures Advances(p, env, 2) == p.(frames := [Main(Handling)])
  {
    assert Advances(p, env, 1) == p.(frames := [Main(Waiting)]);
  }

  /** A close request leads to end_conn ... */
  lemma {:induction false} CloseIsHeard(p: Process, env: Env)
    requires AtLoop(p, Loop) && NothingFails(env) && env.reaction.Close?
    ensures Advances(p, env, 3) == p.(frames := [Main(GetFlags)])
  {
    RequestIsReceived(p, env);
    OneAdvance(p, env, 3);
  }

  /** ... and so ends the connection: the end message, and a successful exit. */
  lemma {:induction false} CloseIsAnswered(p: Process, env: Env)
    requires AtLoop(p, Loop) && NothingFails(env) && env.reaction.Close?
    ensures var p' := Advances(p, env, 10); p'.status == Exited(true) && p'.sent == p.sent + [End]
  {
    CloseIsHeard(p, env);
    MoreAdvances(p, env, 3, 7);
    MoreAdvances(p.(frames := [Main(GetFlags)]), env, 3, 4);
    UndisturbedEnd(p.(frames := [Main(GetFlags)]), env);
  }

  /** The message that answers a request. */
  function Answer(r: Reaction): seq<Message> {
    match r
    case SendStatus => [Status]
    case Deny => [Denial]
    case Modify => [Update]
    case Ignore => []
    case Close => [End]
  }

  /** Every other request is answered by its own message, and the loop goes on. */
  lemma {:induction false} RequestIsAnswered(p: Process, env: Env)
    requires AtLoop(p, Loop) && NothingFails(env) && !env.reaction.Close?
    ensures var n := if env.reaction.Ignore? then 3 else 4;
            Advances(p, env, n) == p.(sent := p.sent + Answer(env.reaction))
  {
    RequestIsReceived(p, env);
    OneAdvance(p, env, 3);
    if env.reaction.Ignore? {
      assert p.sent + [] == p.sent;
    } else {
      OneAdvance(p, env, 4);
    }
  }

  /** Each failing call on the way ends the process with nothing more said. */
  lemma {:induction false} FailuresExit(p: Process, env: Env)
    requires p.status.Running? && p.frames != [] && !p.flag
    ensures Top(p).pc == Waiting && env.recvFails ==> Step(p, Go(env)) == p.(status := Exited(false))
    ensures Top(p).pc == Handling && env.reaction.SendStatus? && env.statusFails ==>
              Step(p, Go(env)) == p.(status := Exited(false))
    ensures Top(p).pc == Handling && env.reaction.Modify? && env.updateFails ==>
              Step(p, Go(env)) == p.(status := Exited(false))
    ensures (Top(p).pc.GetFlags? || Top(p).pc.SetFlags?) && !p.pipeOpen ==>
              Step(p, Go(env)) == p.(status := Exited(false))
    ensures (Top(p).pc.Sending? || Top(p).pc.SendEnd?) && env.sendFails ==>
              Step(p, Go(env)) == p.(status := Exited(false))
  {
  }

  lemma {:induction false} UnreadCheck(p: Process, env: Env)
    requires p.status.Running? && p.frames != [] && Top(p).pc.GetFlags? && p.pipeOpen && env.readFails
    ensures Advances(p, env, 3) == Goto(p, ClosePipe(false))
  {
    assert Advances(p, env, 1) == Goto(p, SetFlags);
    assert Advances(p, env, 2) == Goto(p, ReadPipe);
  }

  lemma {:induction false} UnreadSend(p: Process, env: Env)
    requires p.status.Running? && p.frames != [] && Top(p).pc == ClosePipe(false) && p.socketOpen && !env.sendFails
    ensures Advances(p, env, 4).status == Exited(false) && Advances(p, env, 4).sent == p.sent + [End]
  {
    assert Top(Advances(p, env, 1)).pc == SendEnd(false);
    assert Top(Advances(p, env, 2)).pc == CloseSocket(false) && Advances(p, env, 2).sent == p.sent + [End];
    assert Top(Advances(p, env, 3)).pc == Leave(false) && Advances(p, env, 3).sent == p.sent + [End];
  }

  /** When the pipe cannot be read the end message is sent all the same, but the exit is a failure. */
  lemma {:induction false} UnreadPipeStillEnds(p: Process, env: Env)
    requires p.status.Running? && p.frames != [] && Top(p).pc.GetFlags? && p.pipeOpen && p.socketOpen
    requires env.readFails && !env.sendFails
    ensures var p' := Advances(Advances(p, env, 3), env, 4);
            p'.status == Exited(false) && p'.sent == p.sent + [End]
  {
    UnreadCheck(p, env);
    UnreadSend(Goto(p, ClosePipe(false)), env);
  }

  /** A handler's entry leads it to end_conn. */
  lemma {:induction false} HandlerEnters(p: Process, signal: Signal, env: Env)
    requires p.status.Running? && p.frames != [] && !signal.Term? && !Blocked(p, signal)
    ensures var p' := Step(Step(p, Deliver(signal)), Go(env));
            && p'.status.Running? && p'.frames != [] && Top(p').pc.GetFlags?
            && p'.pipeOpen == p.pipeOpen && p'.socketOpen == p.socketOpen && p'.sent == p.sent
  {
    assert Top(Step(p, Deliver(signal))) == Handler(signal, Entered);
  }

  /** A SIGINT or SIGTSTP, wherever it finds an open connection, ends it: the end message, and a
      successful exit. */
  lemma {:induction false} SignalEndsConnection(p: Process, signal: Signal, env: Env)
    requires p.status.Running? && p.frames != [] && p.pipeOpen && p.socketOpen
    requires !signal.Term? && !Blocked(p, signal) && NothingFails(env)
    ensures var p' := Advances(Advances(Step(Step(p, Deliver(signal)), Go(env)), env, 3), env, 4);
            p'.status == Exited(true) && p'.sent == p.sent + [End]
  {
    HandlerEnters(p, signal, env);
    UndisturbedEnd(Step(Step(p, Deliver(signal)), Go(env)), env);
  }

  /** A signal interrupts whatever runs, unless its own handler is on the stack already. */
  lemma {:induction false} SignalGetsThrough(p: Process, signal: Signal)
    requires p.frames != [] && p.status.Running?
    ensures Step(p, Deliver(signal))
         == if exists f :: f in p.frames && f.Handler? && f.signal == signal then p
            else p.(frames := p.frames + [Handler(signal, Entered)])
  {
    if f :| f in p.frames && f.Handler? && f.signal == signal {
      var i :| 0 <= i < |p.frames| && p.frames[i] == f;
      assert Blocked(p, signal);
    }
  }

  /** A signal is held back while its own handler runs; a SIGTERM that finds no receive waiting changes
      nothing; after the exit nothing happens any more. */
  lemma {:induction false} NothingHappens(p: Process, signal: Signal, env: Env, a: Action)
    requires p.frames != []
    ensures Blocked(p, signal) ==> Step(p, Deliver(signal)) == p
    ensures p.status.Exited? ==> Step(p, a) == p
    ensures p.status.Running? && !Blocked(p, Term) && !Top(p).pc.Waiting? ==>
              Step(Step(p, Deliver(Term)), Go(env)) == p
  {
    if p.status.Running? && !Blocked(p, Term) {
      var p1 := Step(p, Deliver(Term));
      assert p1.frames[..|p1.frames| - 1] == p.frames;
    }
  }
}

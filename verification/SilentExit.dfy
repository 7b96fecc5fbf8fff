/** Exactly when a connection process exits without telling its client. */
module SilentExit {
  import opened Connection

  predicate AboutToSend(p: Process) { exists i :: 0 <= i < |p.frames| && p.frames[i].pc.SendEnd? }

  /** A SIGINT or SIGTSTP gets through while some frame is about to send the end message. */
  predicate CutsIn(p: Process, a: Action) {
    p.status.Running? && a.Deliver? && !a.signal.Term? && !Blocked(p, a.signal) && AboutToSend(p)
  }

  /** A receive, reading the status, an update or a send fails, and the process exits for it. */
  predicate Breaks(p: Process, a: Action)
    requires p.frames != []
  {
    && p.status.Running? && a.Go?
    && match Top(p).pc
       case Waiting => a.env.recvFails
       case Handling =>
         (a.env.reaction.SendStatus? && a.env.statusFails) || (a.env.reaction.Modify? && a.env.updateFails)
       case Sending(_) => a.env.sendFails
       case SendEnd(_) => a.env.sendFails
       case _ => false
  }

  /** The process exits because a SIGTERM broke off its receive. */
  predicate Terminates(p: Process, a: Action)
    requires p.frames != []
  {
    p.status.Running? && a.Go? && Top(p).pc.BrokenOff?
  }

  ghost predicate Cut(actions: seq<Action>) {
    exists n :: 0 <= n < |actions| && CutsIn(Run(actions[..n]), actions[n])
  }

  ghost predicate Broke(actions: seq<Action>) {
    exists n :: 0 <= n < |actions| && Breaks(Run(actions[..n]), actions[n])
  }

  ghost predicate Terminated(actions: seq<Action>) {
    exists n :: 0 <= n < |actions| && Terminates(Run(actions[..n]), actions[n])
  }

  /** A frame about to send the end message lies under a SIGINT or SIGTSTP handler. */
  predicate Covered(p: Process) {
    exists i, j :: 0 <= i < j < |p.frames| && p.frames[i].pc.SendEnd? && EndsHere(p, j)
  }

  /** Only a frame that has sent the end message closes the socket. */
  predicate SocketOk(p: Process) {
    !p.socketOpen ==> exists i :: 0 <= i < |p.frames| && p.frames[i].pc.Leave?
  }

  /** A frame that is leaving stays where it is, and its process goes no further than to exit. */
  lemma {:induction false} LeavingStays(p: Process, env: Env, i: nat)
    requires Invariant(p) && p.status.Running? && i < |p.frames| && p.frames[i].pc.Leave?
    ensures i < |Advance(p, env).frames| && Advance(p, env).frames[i].pc.Leave?
  {
    assert FrameOk(p, i);
    if i < |p.frames| - 1 { assert Fresh(Top(p)); }
  }

  lemma {:induction false} SocketKeeps(p: Process, a: Action)
    requires Invariant(p) && SocketOk(p)
    ensures SocketOk(Step(p, a))
  {
    var p' := Step(p, a);
    if p.status.Running? && !p'.socketOpen {
      if p.socketOpen {
        assert p'.frames[|p.frames| - 1].pc.Leave?;
      } else {
        var i :| 0 <= i < |p.frames| && p.frames[i].pc.Leave?;
        if a.Go? { LeavingStays(p, a.env, i); } else { assert p'.frames[i] == p.frames[i]; }
      }
    }
  }

  /** While a frame other than a fresh handler runs, the socket is open unless it is leaving. */
  lemma {:induction false} SocketOpenToSend(p: Process)
    requires Invariant(p) && SocketOk(p) && (Top(p).pc.Sending? || Top(p).pc.SendEnd?)
    ensures p.socketOpen
  {
    forall i | 0 <= i < |p.frames| ensures !p.frames[i].pc.Leave? {
      assert FrameOk(p, i);
    }
  }

  /** What lies under a handler stays covered, and only such a signal covers it. */
  lemma {:induction false} CoverStep(p: Process, a: Action)
    requires Invariant(p) && p.status.Running?
    ensures Covered(Step(p, a)) <==> Covered(p) || CutsIn(p, a)
  {
    match a
    case Deliver(signal) => CoverPush(p, signal);
    case Go(env) =>
      if Top(p).Handler? && Top(p).signal.Term? {
        CoverReturn(p, env);
      } else {
        AdvanceMovesTop(p, env);
        CoverMove(p, Advance(p, env));
      }
  }

  lemma {:induction false} CoverPush(p: Process, signal: Signal)
    requires Invariant(p) && p.status.Running?
    ensures Covered(Step(p, Deliver(signal))) <==> Covered(p) || CutsIn(p, Deliver(signal))
  {
    var p' := Step(p, Deliver(signal));
    if Covered(p) {
      var i, j :| 0 <= i < j < |p.frames| && p.frames[i].pc.SendEnd? && EndsHere(p, j);
      assert p'.frames[i].pc.SendEnd? && EndsHere(p', j);
    }
    if CutsIn(p, Deliver(signal)) {
      var i :| 0 <= i < |p.frames| && p.frames[i].pc.SendEnd?;
      assert p'.frames[i].pc.SendEnd? && EndsHere(p', |p.frames|);
    }
    if Covered(p') {
      var i, j :| 0 <= i < j < |p'.frames| && p'.frames[i].pc.SendEnd? && EndsHere(p', j);
      assert p.frames[i].pc.SendEnd?;
      if j < |p.frames| { assert EndsHere(p, j); }
    }
  }

  /** The stack without its running frame. */
  function Below(p: Process): Process
    requires p.frames != []
  {
    p.(frames := p.frames[..|p.frames| - 1])
  }

  lemma {:induction false} TermReturns(p: Process, env: Env)
    requires Invariant(p) && Top(p).Handler? && Top(p).signal.Term?
    ensures |p.frames| > 1 && Advance(p, env) == BreakOff(Below(p)) && OnlyTopMoves(Below(p), BreakOff(Below(p)))
  {
    assert FrameOk(p, |p.frames| - 1);
  }

  lemma {:induction false} CoverReturn(p: Process, env: Env)
    requires Invariant(p) && Top(p).Handler? && Top(p).signal.Term?
    ensures Covered(Advance(p, env)) <==> Covered(p)
  {
    TermReturns(p, env);
    CoverPop(p);
    CoverMove(Below(p), BreakOff(Below(p)));
  }

  lemma {:induction false} CoverPop(p: Process)
    requires |p.frames| > 1 && Top(p).Handler? && Top(p).signal.Term?
    ensures Covered(Below(p)) <==> Covered(p)
  {
    var p' := Below(p);
    if Covered(p) {
      var i, j :| 0 <= i < j < |p.frames| && p.frames[i].pc.SendEnd? && EndsHere(p, j);
      assert p'.frames[i].pc.SendEnd? && EndsHere(p', j);
    }
    if Covered(p') {
      var i, j :| 0 <= i < j < |p'.frames| && p'.frames[i].pc.SendEnd? && EndsHere(p', j);
      assert p.frames[i].pc.SendEnd? && EndsHere(p, j);
    }
  }

  lemma {:induction false} CoverMove(p: Process, p': Process)
    requires p.frames != [] && OnlyTopMoves(p, p')
    ensures Covered(p') <==> Covered(p)
  {
    if Covered(p) {
      var i, j :| 0 <= i < j < |p.frames| && p.frames[i].pc.SendEnd? && EndsHere(p, j);
      assert p'.frames[i].pc.SendEnd? && EndsHere(p', j);
    }
    if Covered(p') {
      var i, j :| 0 <= i < j < |p'.frames| && p'.frames[i].pc.SendEnd? && EndsHere(p', j);
      assert p.frames[i].pc.SendEnd? && EndsHere(p, j);
    }
  }

  /** Under a handler nothing has been sent yet, and the running frame has not passed its check. */
  lemma {:induction false} CoveredIsSilent(p: Process)
    requires Invariant(p) && Covered(p)
    ensures End !in p.sent && Fresh(Top(p))
  {
    var i, j :| 0 <= i < j < |p.frames| && p.frames[i].pc.SendEnd? && EndsHere(p, j);
    assert FrameOk(p, i);
    forall k | 0 <= k < |p.frames| ensures !Done(p.frames[k]) {
      assert FrameOk(p, k);
    }
  }

  /** A handler that finds the pipe closed either covers the frame about to send, or comes too late. */
  lemma {:induction false} TurnedAway(p: Process)
    requires Invariant(p) && Top(p).pc.GetFlags? && !p.pipeOpen
    ensures End !in p.sent <==> Covered(p)
  {
    var t := |p.frames| - 1;
    var i :| 0 <= i < |p.frames| && Late(p.frames[i]);
    assert FrameOk(p, i) && FrameOk(p, t);
    assert EndsHere(p, t);
    if Covered(p) { CoveredIsSilent(p); }
    else { assert Done(p.frames[i]); }
  }

  /** An exit says nothing to the client exactly when the send was covered, a call failed or a
      SIGTERM broke off the receive. */
  lemma {:induction false} ExitStep(p: Process, env: Env)
    requires Invariant(p) && SocketOk(p) && p.status.Running? && Advance(p, env).status.Exited?
    ensures End !in Advance(p, env).sent <==> Covered(p) || Breaks(p, Go(env)) || Terminates(p, Go(env))
  {
    assert FrameOk(p, |p.frames| - 1);
    if Covered(p) { CoveredIsSilent(p); }
    match Top(p).pc
    case Waiting => TopPassedCheck(p);
    case Handling => TopPassedCheck(p); MainRunsUnflagged(p);
    case BrokenOff => TopPassedCheck(p);
    case Sending(m) => TopPassedCheck(p); SocketOpenToSend(p);
    case GetFlags => TurnedAway(p);
    case SetFlags => TopPassedCheck(p);
    case SendEnd(ok) => NotYetEnded(p); SocketOpenToSend(p);
    case Leave(ok) => assert Done(p.frames[|p.frames| - 1]);
    case _ =>
  }

  lemma {:induction false} BreakExits(p: Process, a: Action)
    requires Invariant(p) && (Breaks(p, a) || Terminates(p, a))
    ensures Step(p, a).status.Exited?
  {
    assert FrameOk(p, |p.frames| - 1);
    if Top(p).pc.Handling? { MainRunsUnflagged(p); }
  }

  lemma {:induction false} PrefixStays(front: seq<Action>, a: Action, n: nat)
    requires n <= |front|
    ensures (front + [a])[..n] == front[..n]
    ensures (front + [a])[n] == if n < |front| then front[n] else a
  {
  }

  lemma {:induction false} CutGrows(front: seq<Action>, a: Action)
    ensures Cut(front + [a]) <==> Cut(front) || CutsIn(Run(front), a)
  {
    var all := front + [a];
    forall n | 0 <= n <= |front|
      ensures CutsIn(Run(all[..n]), all[n]) <==> CutsIn(Run(front[..n]), if n < |front| then front[n] else a)
    {
      PrefixStays(front, a, n);
    }
    assert front[..|front|] == front;
    assert CutsIn(Run(all[..|front|]), all[|front|]) == CutsIn(Run(front), a);
    if Cut(front) {
      var n :| 0 <= n < |front| && CutsIn(Run(front[..n]), front[n]);
      assert CutsIn(Run(all[..n]), all[n]);
    }
  }

  lemma {:induction false} BrokeGrows(front: seq<Action>, a: Action)
    ensures Broke(front + [a]) <==> Broke(front) || Breaks(Run(front), a)
  {
    var all := front + [a];
    forall n | 0 <= n <= |front|
      ensures Breaks(Run(all[..n]), all[n]) <==> Breaks(Run(front[..n]), if n < |front| then front[n] else a)
    {
      PrefixStays(front, a, n);
    }
    assert front[..|front|] == front;
    assert Breaks(Run(all[..|front|]), all[|front|]) == Breaks(Run(front), a);
    if Broke(front) {
      var n :| 0 <= n < |front| && Breaks(Run(front[..n]), front[n]);
      assert Breaks(Run(all[..n]), all[n]);
    }
  }

  lemma {:induction false} TerminatedGrows(front: seq<Action>, a: Action)
    ensures Terminated(front + [a]) <==> Terminated(front) || Terminates(Run(front), a)
  {
    var all := front + [a];
    forall n | 0 <= n <= |front|
      ensures Terminates(Run(all[..n]), all[n]) <==> Terminates(Run(front[..n]), if n < |front| then front[n] else a)
    {
      PrefixStays(front, a, n);
    }
    assert front[..|front|] == front;
    assert Terminates(Run(all[..|front|]), all[|front|]) == Terminates(Run(front), a);
    if Terminated(front) {
      var n :| 0 <= n < |front| && Terminates(Run(front[..n]), front[n]);
      assert Terminates(Run(all[..n]), all[n]);
    }
  }

  lemma {:induction false} SilenceSoFar(actions: seq<Action>)
    ensures SocketOk(Run(actions))
    ensures Run(actions).status.Running? ==>
              (Cut(actions) <==> Covered(Run(actions))) && !Broke(actions) && !Terminated(actions)
    ensures Run(actions).status.Exited? ==>
              (End !in Run(actions).sent <==> Cut(actions) || Broke(actions) || Terminated(actions))
    decreases |actions|
  {
    if actions != [] {
      var front, a := actions[..|actions| - 1], actions[|actions| - 1];
      var p := Run(front);
      assert front + [a] == actions;
      SilenceSoFar(front);
      RunInvariant(front);
      CutGrows(front, a);
      BrokeGrows(front, a);
      TerminatedGrows(front, a);
      SocketKeeps(p, a);
      if p.status.Running? {
        CoverStep(p, a);
        if Breaks(p, a) || Terminates(p, a) { BreakExits(p, a); }
        if Step(p, a).status.Exited? { ExitStep(p, a.env); }
      }
    }
  }

  /** Exactly when a process exits without telling its client, over every run: a SIGINT or SIGTSTP
      got through while a frame stood between closing the pipe and sending, a call failed, or a
      SIGTERM broke off the receive. */
  lemma {:induction false} SilentExitIff(actions: seq<Action>)
    requires Run(actions).status.Exited?
    ensures End !in Run(actions).sent <==> Cut(actions) || Broke(actions) || Terminated(actions)
  {
    SilenceSoFar(actions);
  }

  /** No receive, reading of the status, update or send fails. */
  predicate CallsSucceed(actions: seq<Action>) {
    forall n :: 0 <= n < |actions| && actions[n].Go? ==>
      var env := actions[n].env;
      !env.recvFails && !env.statusFails && !env.updateFails && !env.sendFails
  }

  /** With no call failing, "exactly one end message" holds of a finished process if and only if no
      SIGINT or SIGTSTP cut in and no SIGTERM broke off the receive. */
  lemma {:induction false} ExactlyOneEndIff(actions: seq<Action>)
    requires Run(actions).status.Exited? && CallsSucceed(actions)
    ensures multiset(Run(actions).sent)[End] == 1 <==> !Cut(actions) && !Terminated(actions)
  {
    SilenceSoFar(actions);
    AtMostOneEndAndLast(actions);
    EndsCounted(Run(actions).sent);
    assert !Broke(actions);
  }

  lemma {:induction false} EndsCounted(sent: seq<Message>)
    requires EndIsLast(sent)
    ensures multiset(sent)[End] == if End in sent then 1 else 0
  {
    if sent != [] {
      var n := |sent| - 1;
      assert sent == sent[..n] + [sent[n]];
      assert End !in sent[..n];
    }
  }

  // ----- SIGTERM ---------------------------------------------------------------------------

  /** The loop waits in its receive and nothing interrupts it. */
  predicate WaitsAlone(p: Process) { p.status.Running? && p.frames == [Main(Waiting)] }

  /** A SIGTERM arrives while the loop waits. */
  predicate Disturbs(p: Process, a: Action) { WaitsAlone(p) && a == Deliver(Term) }

  /** A SIGTERM lies on a waiting receive, or has broken it off. */
  predicate Disturbed(p: Process) {
    && p.frames != []
    && (p.frames[0].pc.BrokenOff?
        || (p.frames[0].pc.Waiting? && |p.frames| > 1 && p.frames[1].Handler? && p.frames[1].signal.Term?))
  }

  lemma {:induction false} DisturbedPop(p: Process)
    requires Invariant(p) && !Disturbed(p) && |p.frames| > 1 && Top(p).Handler? && Top(p).signal.Term?
    ensures !Disturbed(BreakOff(Below(p)))
  {
    assert Below(p).frames[0] == p.frames[0];
    if |p.frames| > 2 {
      assert Below(p).frames[1] == p.frames[1] && FrameOk(p, |p.frames| - 2);
      assert BreakOff(Below(p)) == Below(p);
    }
  }

  /** Only its delivery brings that about. */
  lemma {:induction false} DisturbedGo(p: Process, env: Env)
    requires Invariant(p) && p.status.Running? && !Disturbed(p)
    ensures !Disturbed(Advance(p, env))
  {
    assert FrameOk(p, |p.frames| - 1);
    if Top(p).Handler? && Top(p).signal.Term? {
      TermReturns(p, env);
      DisturbedPop(p);
    } else if |p.frames| > 1 {
      AdvanceMovesTop(p, env);
      assert Advance(p, env).frames[0] == p.frames[0];
    }
  }

  lemma {:induction false} DisturbedPush(p: Process, signal: Signal)
    requires Invariant(p) && p.status.Running? && !Disturbed(p) && Disturbed(Step(p, Deliver(signal)))
    ensures Disturbs(p, Deliver(signal))
  {
    var p' := Step(p, Deliver(signal));
    assert FrameOk(p, 0) && p'.frames[0] == p.frames[0];
    if |p.frames| == 1 { assert p.frames == [p.frames[0]]; }
  }

  ghost predicate DisturbedIn(actions: seq<Action>) {
    exists n :: 0 <= n < |actions| && Disturbs(Run(actions[..n]), actions[n])
  }

  lemma {:induction false} DisturbedInLonger(actions: seq<Action>, m: nat)
    requires m <= |actions| && DisturbedIn(actions[..m])
    ensures DisturbedIn(actions)
  {
    var front := actions[..m];
    var n :| 0 <= n < m && Disturbs(Run(front[..n]), front[n]);
    assert front[..n] == actions[..n] && front[n] == actions[n];
    assert Disturbs(Run(actions[..n]), actions[n]);
  }

  /** A broken-off receive is the work of a SIGTERM that arrived while the loop waited in it. */
  lemma {:induction false} BrokenOffByTerm(actions: seq<Action>)
    requires Disturbed(Run(actions))
    ensures DisturbedIn(actions)
    decreases |actions|
  {
    if actions != [] {
      var m := |actions| - 1;
      var p := Run(actions[..m]);
      RunInvariant(actions[..m]);
      if Disturbed(p) {
        BrokenOffByTerm(actions[..m]);
        DisturbedInLonger(actions, m);
      } else if actions[m].Go? {
        DisturbedGo(p, actions[m].env);
      } else {
        DisturbedPush(p, actions[m].signal);
        assert Disturbs(Run(actions[..m]), actions[m]);
      }
    }
  }

  lemma {:induction false} BrokenOffIsDisturbed(p: Process)
    requires Invariant(p) && Top(p).pc.BrokenOff?
    ensures Disturbed(p)
  {
    assert FrameOk(p, |p.frames| - 1);
  }

  /** So the third case of a silent exit needs such a SIGTERM ... */
  lemma {:induction false} TerminatedByTerm(actions: seq<Action>)
    requires Terminated(actions)
    ensures DisturbedIn(actions)
  {
    var m :| 0 <= m < |actions| && Terminates(Run(actions[..m]), actions[m]);
    RunInvariant(actions[..m]);
    BrokenOffIsDisturbed(Run(actions[..m]));
    BrokenOffByTerm(actions[..m]);
    DisturbedInLonger(actions, m);
  }

  /** ... and one that is left to itself ends the process with nothing said. */
  lemma {:induction false} TermEndsQuietly(p: Process, e1: Env, e2: Env)
    requires WaitsAlone(p)
    ensures var p' := Step(Step(Step(p, Deliver(Term)), Go(e1)), Go(e2));
            p'.status == Exited(false) && p'.sent == p.sent
  {
    var p1 := Step(p, Deliver(Term));
    assert p1.frames == [Main(Waiting), Handler(Term, Entered)];
    assert p1.frames[..1] == [Main(Waiting)];
    assert Step(p1, Go(e1)).frames == [Main(BrokenOff)];
  }
}

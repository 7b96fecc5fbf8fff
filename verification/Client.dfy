/** The client: menu, send buffer, and the polling loop that recurses while a flag stays set. */
module Client {
  datatype Signal = Quiet | Int | Tstp

  /** What a receive that no signal disturbs comes back with: the end message, a reply, or nothing
      because the call fails or the connection is closed. */
  datatype Reply = EndReply | OtherReply | NoReply

  /** One exchange with the server: the signals that arrive before the send, while the receive waits
      and before the flag is tested, and what a receive that is left alone brings. */
  datatype Round = Round(beforeSend: Signal, whileReceiving: Signal, reply: Reply, beforeTest: Signal)

  datatype Amend = Amend(category: string, key: string, amount: nat)

  /** What the send buffer holds: command "1", or command "2" with its fields. */
  datatype Request = Status | Modify(amend: Amend)

  datatype Choice = AskStatus | AskModify(amend: Amend) | Quit | Invalid

  /** A menu choice; a request sent, and whether the flag was set; a receive that read the reply to
      request number `answers`; one that came back without a message; one that read the end message. */
  datatype Act = Chose(r: Request) | Sent(r: Request, polling: bool) | Got(answers: nat) | Broken | Ended

  /** The globals of the client, what it did so far, the requests whose replies it has not read
      (oldest first; the server answers in order), the exchanges over and those to come. `stopped`
      once the process has exited or waits for a reply that never comes. */
  datatype State = State(flag: bool, skip: bool, buffer: Request, trace: seq<Act>, unread: seq<nat>,
                         sends: nat, past: seq<Round>, rounds: seq<Round>, stopped: bool)

  /** An administrator starts at the menu; any other user starts by polling. */
  function Start(admin: bool, exchanges: seq<Round>): State {
    State(!admin, admin, Status, [], [], 0, [], exchanges, false)
  }

  // ----- specification: flat steps -------------------------------------------------------

  /** sign_handler. */
  function Handle(s: State, signal: Signal): State {
    match signal
    case Quiet => s
    case Int => s.(flag := false, skip := true)
    case Tstp => s.(stopped := true)
  }

  function PutOnWire(s: State): State {
    s.(trace := s.trace + [Sent(s.buffer, s.flag)], unread := s.unread + [s.sends], sends := s.sends + 1)
  }

  /** send_message_to_server. */
  function Send(s: State): (s': State)
    ensures s'.buffer == s.buffer && (s'.flag ==> s.flag) && s'.rounds == s.rounds && s'.past == s.past
    ensures s.skip ==> s'.skip
    ensures s'.stopped ==> s'.trace == s.trace && s'.unread == s.unread && s'.sends == s.sends
    ensures !s'.stopped ==> !s.stopped && s'.trace == s.trace + [Sent(s.buffer, s'.flag)]
                            && s'.unread == s.unread + [s.sends] && s'.sends == s.sends + 1
  {
    if s.stopped then s
    else
      var s1 := if s.rounds == [] then s else Handle(s, s.rounds[0].beforeSend);
      if s1.stopped then s1 else PutOnWire(s1)
  }

  /** The receive that takes the next exchange: a SIGINT while it waits makes it return without a
      message, and the reply is left for a later one. */
  function Take(s: State, r: Round): (s': State)
    requires !s.stopped
    ensures s'.buffer == s.buffer && (s'.flag ==> s.flag) && (s.skip ==> s'.skip)
    ensures s'.rounds == s.rounds && s'.past == s.past && s.trace <= s'.trace
  {
    match r.whileReceiving
    case Tstp => Handle(s, Tstp)
    case Int => Handle(s, Int).(trace := s.trace + [Broken])
    case Quiet =>
      if r.reply.NoReply? then s.(trace := s.trace + [Broken])
      else if r.reply.EndReply? then s.(trace := s.trace + [Ended], stopped := true)
      else if s.unread == [] then s.(stopped := true)
      else s.(trace := s.trace + [Got(s.unread[0])], unread := s.unread[1..])
  }

  /** The straight-line part of recv_and_check_message. */
  function Receive(s: State): (s': State)
    ensures s.stopped ==> s' == s
    ensures |s'.rounds| <= |s.rounds| && (s'.stopped || |s'.rounds| < |s.rounds|)
    ensures s.skip ==> s'.skip
    ensures s'.buffer == s.buffer && (s'.flag ==> s.flag)
    ensures s'.past + s'.rounds == s.past + s.rounds && s.trace <= s'.trace
  {
    if s.stopped then s
    else if s.rounds == [] then s.(stopped := true)
    else
      var r := s.rounds[0];
      var s1 := Take(s.(past := s.past + [r], rounds := s.rounds[1..]), r);
      if s1.stopped then s1 else Handle(s1, r.beforeTest)
  }

  /** A flat poll loop: while the flag is set, send and receive. */
  function Poll(s: State): (s': State)
    ensures s'.stopped || !s'.flag
    ensures s.skip ==> s'.skip
    ensures |s'.rounds| <= |s.rounds|
    ensures s'.buffer == s.buffer && s'.past + s'.rounds == s.past + s.rounds && s.trace <= s'.trace
    decreases !s.stopped, |s.rounds|
  {
    if s.stopped || !s.flag then s else Poll(Receive(Send(s)))
  }

  /** The loop body, with a whole inner poll in place of one receive, leads to the same end. */
  lemma {:induction false} PollOnce(s: State)
    requires !s.stopped && s.flag
    ensures Poll(s) == Poll(Poll(Receive(Send(s))))
    ensures Send(s).stopped ==> Poll(s) == Poll(Send(s))
  {
  }

  /** The menu: the buffer for a choice; only the first option sets the flag. An invalid choice is
      asked for again. */
  function Choose(s: State, c: Choice): State {
    match c
    case AskStatus => s.(flag := true, buffer := Status, trace := s.trace + [Chose(Status)])
    case AskModify(a) => s.(buffer := Modify(a), trace := s.trace + [Chose(Modify(a))])
    case Quit => s.(stopped := true)
    case Invalid => s
  }

  /** Send what the buffer holds, receive, poll. */
  function Exchange(s: State): (s': State)
    ensures s'.stopped || s'.skip
    ensures s'.past + s'.rounds == s.past + s.rounds
  {
    if s.stopped then s else Poll(Receive(Send(s.(skip := true))))
  }

  /** The main loop, until the choices run out or the client stops. */
  function MainLoop(s: State, choices: seq<Choice>): (s': State)
    ensures s'.past + s'.rounds == s.past + s.rounds
    decreases |choices|, !s.stopped && !s.skip
  {
    if s.stopped then s
    else if !s.skip then MainLoop(Exchange(s.(buffer := Status)), choices)
    else if choices == [] then s
    else if choices[0].Invalid? then MainLoop(s, choices[1..])
    else MainLoop(Exchange(Choose(s, choices[0])), choices[1..])
  }

  // ----- the program ---------------------------------------------------------------------

  class Process {
    var flag: bool
    var skip: bool
    var buffer: Request
    var trace: seq<Act>
    var unread: seq<nat>
    var sends: nat
    var past: seq<Round>
    var rounds: seq<Round>
    var stopped: bool

    ghost function View(): State
      reads this
    {
      State(flag, skip, buffer, trace, unread, sends, past, rounds, stopped)
    }

    constructor (admin: bool, exchanges: seq<Round>)
      ensures View() == Start(admin, exchanges)
    {
      flag, skip, buffer, trace, stopped := !admin, admin, Status, [], false;
      unread, sends, past, rounds := [], 0, [], exchanges;
    }

    method OnSignal(signal: Signal)
      modifies this
      ensures View() == Handle(old(View()), signal)
    {
      match signal {
        case Quiet =>
        case Int => flag := false; skip := true;
        case Tstp => stopped := true;
      }
    }

    method SendMessage()
      requires !stopped
      modifies this
      ensures View() == Send(old(View()))
    {
      if rounds != [] { OnSignal(rounds[0].beforeSend); }
      if stopped { return; }
      trace := trace + [Sent(buffer, flag)];
      unread := unread + [sends];
      sends := sends + 1;
    }

    /** recv_tcp_message and the look for the end key. */
    method RecvMessage(r: Round)
      requires !stopped
      modifies this
      ensures View() == Take(old(View()), r)
    {
      OnSignal(r.whileReceiving);
      if stopped { return; }
      if r.whileReceiving.Int? || r.reply.NoReply? { trace := trace + [Broken]; return; }
      if r.reply.EndReply? { trace := trace + [Ended]; stopped := true; return; }
      if unread == [] { stopped := true; return; }
      trace := trace + [Got(unread[0])];
      unread := unread[1..];
    }

    /** The part of recv_and_check_message before its loop. */
    method TakeReply()
      requires !stopped
      modifies this
      ensures View() == Receive(old(View()))
    {
      if rounds == [] { stopped := true; return; }
      var r := rounds[0];
      past := past + [r];
      rounds := rounds[1..];
      RecvMessage(r);
      if !stopped { OnSignal(r.beforeTest); }
    }

    /** recv_and_check_message: a loop around a recursive call. It does what the flat loop does, and
        no frame runs its loop body twice. */
    method RecvAndCheck() returns (ghost bodies: nat)
      requires !stopped
      modifies this
      ensures View() == Poll(Receive(old(View())))
      ensures bodies <= 1
      decreases |rounds|
    {
      bodies := 0;
      TakeReply();
      ghost var goal := Poll(View());
      while flag && !stopped
        invariant Poll(View()) == goal
        invariant stopped || |rounds| < |old(rounds)|
        invariant bodies <= 1 && (bodies == 1 ==> stopped || !flag)
        decreases 1 - bodies
      {
        PollOnce(View());
        SendMessage();
        if !stopped { var _ := RecvAndCheck(); }
        bodies := bodies + 1;
      }
    }

    /** get_options: the buffer for a choice. */
    method GetOption(c: Choice)
      requires !stopped
      modifies this
      ensures View() == Choose(old(View()), c)
    {
      match c {
        case AskStatus => flag := true; buffer := Status; trace := trace + [Chose(buffer)];
        case AskModify(a) => buffer := Modify(a); trace := trace + [Chose(buffer)];
        case Quit => stopped := true;
        case Invalid =>
      }
    }

    /** The end of the main loop's body. */
    method DoExchange()
      modifies this
      ensures View() == Exchange(old(View()))
    {
      if stopped { return; }
      skip := true;
      SendMessage();
      if !stopped { var _ := RecvAndCheck(); }
    }

    /** The main loop. */
    method Menu(choices: seq<Choice>)
      modifies this
      ensures View() == MainLoop(old(View()), choices)
    {
      var todo := choices;
      while !stopped && (!skip || todo != [])
        invariant MainLoop(View(), todo) == MainLoop(old(View()), choices)
        decreases |todo|, !stopped && !skip
      {
        if skip && todo[0].Invalid? {
          todo := todo[1..];
          continue;
        }
        if skip {
          GetOption(todo[0]);
          todo := todo[1..];
        } else {
          buffer := Status;
        }
        DoExchange();
      }
    }
  }

  // ----- counting what a trace holds -------------------------------------------------------

  datatype Kind = Choosing | Sending | Reading | Breaking | Ending

  function KindOf(a: Act): Kind {
    match a
    case Chose(_) => Choosing
    case Sent(_, _) => Sending
    case Got(_) => Reading
    case Broken => Breaking
    case Ended => Ending
  }

  function Tally(trace: seq<Act>, kind: Kind): nat {
    if trace == [] then 0
    else Tally(trace[..|trace| - 1], kind) + if KindOf(trace[|trace| - 1]) == kind then 1 else 0
  }

  lemma {:induction false} TallyExtends(trace: seq<Act>, a: Act, kind: Kind)
    ensures Tally(trace + [a], kind) == Tally(trace, kind) + if KindOf(a) == kind then 1 else 0
  {
    assert (trace + [a])[..|trace|] == trace;
  }

  lemma {:induction false} TallyZero(trace: seq<Act>, kind: Kind)
    ensures Tally(trace, kind) == 0 <==> forall i :: 0 <= i < |trace| ==> KindOf(trace[i]) != kind
  {
    if trace != [] { TallyZero(trace[..|trace| - 1], kind); }
  }

  /** Sends whose receive has not returned, with a message or without. */
  function Waiting(trace: seq<Act>): int {
    Tally(trace, Sending) - Tally(trace, Reading) - Tally(trace, Breaking) - Tally(trace, Ending)
  }

  /** The receive comes back without a message: a SIGINT breaks it off, or there is nothing to read. */
  predicate ComesBackEmpty(r: Round) {
    r.whileReceiving.Int? || (r.whileReceiving.Quiet? && r.reply.NoReply?)
  }

  function Interrupts(rounds: seq<Round>): nat {
    if rounds == [] then 0
    else Interrupts(rounds[..|rounds| - 1]) + if ComesBackEmpty(rounds[|rounds| - 1]) then 1 else 0
  }

  // ----- what every run does on the wire --------------------------------------------------

  /** Send and receive calls alternate strictly: a send only when no receive is due, a receive only
      after a send. */
  predicate Alternates(trace: seq<Act>) { forall i :: 0 <= i < |trace| ==> InTurn(trace, i) }

  predicate InTurn(trace: seq<Act>, i: nat)
    requires i < |trace|
  {
    Waiting(trace[..i]) == if trace[i].Chose? || trace[i].Sent? then 0 else 1
  }

  /** A modify request is sent right after it is chosen and at no other time; a chosen one is sent
      right away unless the run ends there. */
  predicate ModifiesOnce(trace: seq<Act>) {
    && (forall i :: 0 <= i < |trace| && trace[i].Sent? && trace[i].r.Modify? ==>
          i > 0 && trace[i - 1] == Chose(trace[i].r))
    && (forall i :: 0 <= i < |trace| - 1 && trace[i].Chose? ==>
          trace[i + 1].Sent? && trace[i + 1].r == trace[i].r)
  }

  /** Whatever is sent with the polling flag set is the status request. */
  predicate PollsStatus(trace: seq<Act>) {
    forall i :: 0 <= i < |trace| && trace[i].Sent? && trace[i].polling ==> trace[i].r.Status?
  }

  /** Every reply read is as many requests late as receives were broken off before it. */
  predicate Lags(trace: seq<Act>) { forall i :: 0 <= i < |trace| ==> LateBy(trace, i) }

  predicate LateBy(trace: seq<Act>, i: nat)
    requires i < |trace|
  {
    trace[i].Got? ==> trace[i].answers + Tally(trace[..i], Breaking) == Tally(trace[..i], Sending) - 1
  }

  /** The replies not read are those to the latest requests, in order. */
  predicate InOrder(s: State) {
    |s.unread| <= s.sends && forall i :: 0 <= i < |s.unread| ==> s.unread[i] == s.sends - |s.unread| + i
  }

  predicate WireOk(s: State) {
    && InOrder(s)
    && s.sends == Tally(s.trace, Sending)
    && s.sends - |s.unread| == Tally(s.trace, Reading)
    && Interrupts(s.past) == Tally(s.trace, Breaking)
    && (!s.stopped ==> Tally(s.trace, Ending) == 0)
  }

  function LastAct(s: State): Act
    requires s.trace != []
  {
    s.trace[|s.trace| - 1]
  }

  /** The last act is a choice still to be sent. */
  predicate Owing(s: State) { s.trace != [] && LastAct(s).Chose? }

  predicate GoodTrace(trace: seq<Act>) {
    Alternates(trace) && ModifiesOnce(trace) && PollsStatus(trace) && Lags(trace)
  }

  predicate Good(s: State) { GoodTrace(s.trace) && WireOk(s) }

  /** No receive is due; what the buffer holds may be sent now. */
  predicate ReadyToSend(s: State) {
    && Good(s) && Waiting(s.trace) == 0
    && (s.buffer.Modify? ==> Owing(s))
    && (Owing(s) ==> LastAct(s) == Chose(s.buffer))
    && (s.flag ==> s.buffer.Status?)
  }

  /** A request is out, and the flag is only set if it is a status request. */
  predicate ReadyToReceive(s: State) {
    Good(s) && Waiting(s.trace) == 1 && !Owing(s) && (s.flag ==> s.buffer.Status?)
  }

  /** Between exchanges. */
  predicate Settled(s: State) {
    Good(s) && (s.stopped || (Waiting(s.trace) == 0 && !Owing(s)))
  }

  /** The act may come next. */
  predicate Fits(trace: seq<Act>, a: Act) {
    && Waiting(trace) == (if a.Chose? || a.Sent? then 0 else 1)
    && (a.Sent? && a.r.Modify? ==> trace != [] && trace[|trace| - 1] == Chose(a.r))
    && (trace != [] && trace[|trace| - 1].Chose? ==> a.Sent? && a.r == trace[|trace| - 1].r)
    && (a.Sent? && a.polling ==> a.r.Status?)
    && (a.Got? ==> a.answers + Tally(trace, Breaking) == Tally(trace, Sending) - 1)
  }

  lemma {:induction false} TurnsExtend(trace: seq<Act>, a: Act)
    requires Alternates(trace) && Lags(trace) && Fits(trace, a)
    ensures Alternates(trace + [a]) && Lags(trace + [a])
  {
    var t := trace + [a];
    forall i | 0 <= i < |t| ensures InTurn(t, i) && LateBy(t, i) {
      if i < |trace| {
        assert t[..i] == trace[..i];
        assert InTurn(trace, i) && LateBy(trace, i);
      } else {
        assert t[..i] == trace;
      }
    }
  }

  lemma {:induction false} TraceExtends(trace: seq<Act>, a: Act)
    requires GoodTrace(trace) && Fits(trace, a)
    ensures GoodTrace(trace + [a])
  {
    TurnsExtend(trace, a);
  }

  lemma {:induction false} TalliesExtend(trace: seq<Act>, a: Act)
    ensures forall kind :: Tally(trace + [a], kind) == Tally(trace, kind) + if KindOf(a) == kind then 1 else 0
  {
    forall kind ensures Tally(trace + [a], kind) == Tally(trace, kind) + if KindOf(a) == kind then 1 else 0 {
      TallyExtends(trace, a, kind);
    }
  }

  lemma {:induction false} SendKeeps(s: State)
    requires ReadyToSend(s) && !s.stopped
    ensures Good(Send(s)) && (Send(s).stopped || ReadyToReceive(Send(s)))
  {
    if !Send(s).stopped {
      TraceExtends(s.trace, Sent(s.buffer, Send(s).flag));
      TalliesExtend(s.trace, Sent(s.buffer, Send(s).flag));
    }
  }

  /** With one receive due, the reply at the head of the queue is as late as receives were broken. */
  lemma {:induction false} HeadLags(s: State)
    requires ReadyToReceive(s) && !s.stopped
    ensures |s.unread| == 1 + Tally(s.trace, Breaking)
    ensures s.unread[0] + Tally(s.trace, Breaking) == Tally(s.trace, Sending) - 1
  {
  }

  lemma {:induction false} InterruptsExtend(past: seq<Round>, r: Round)
    ensures Interrupts(past + [r]) == Interrupts(past) + if ComesBackEmpty(r) then 1 else 0
  {
    assert (past + [r])[..|past|] == past;
  }

  /** The exchange is over: what a receive does with it. */
  function Begin(s: State): State
    requires s.rounds != []
  {
    s.(past := s.past + [s.rounds[0]], rounds := s.rounds[1..])
  }

  /** Reading the reply at the head leaves the others in order. */
  lemma {:induction false} ReadKeepsWire(s: State, past: seq<Round>, rounds: seq<Round>)
    requires WireOk(s) && s.unread != [] && Interrupts(past) == Interrupts(s.past)
    ensures WireOk(s.(trace := s.trace + [Got(s.unread[0])], unread := s.unread[1..], past := past, rounds := rounds))
  {
    TalliesExtend(s.trace, Got(s.unread[0]));
  }

  /** A receive without a reply leaves the queue alone; a broken one is counted. */
  lemma {:induction false} MissKeepsWire(s: State, a: Act, s': State)
    requires WireOk(s) && (a.Broken? || (a.Ended? && s'.stopped)) && s'.trace == s.trace + [a]
    requires s'.unread == s.unread && s'.sends == s.sends && (s.stopped ==> s'.stopped)
    requires Interrupts(s'.past) == Interrupts(s.past) + if a.Broken? then 1 else 0
    ensures WireOk(s')
  {
    TalliesExtend(s.trace, a);
  }

  lemma {:induction false} TakeKeepsWire(s: State)
    requires ReadyToReceive(s) && !s.stopped && s.rounds != []
    ensures WireOk(Take(Begin(s), s.rounds[0]))
  {
    var r := s.rounds[0];
    var s' := Take(Begin(s), r);
    InterruptsExtend(s.past, r);
    if ComesBackEmpty(r) {
      MissKeepsWire(s, Broken, s');
    } else if r.whileReceiving.Quiet? && r.reply.EndReply? {
      MissKeepsWire(s, Ended, s');
    } else if r.whileReceiving.Quiet? {
      HeadLags(s);
      ReadKeepsWire(s, s.past + [r], s.rounds[1..]);
    }
  }

  /** A receive returns: the trace grows by an act that fits, and no receive is due any more. */
  lemma {:induction false} ReturnKeepsTrace(trace: seq<Act>, a: Act)
    requires GoodTrace(trace) && Fits(trace, a) && !a.Chose? && !a.Sent?
    ensures GoodTrace(trace + [a]) && Waiting(trace + [a]) == 0
  {
    TraceExtends(trace, a);
    TalliesExtend(trace, a);
  }

  lemma {:induction false} TakeKeepsTrace(s: State)
    requires ReadyToReceive(s) && !s.stopped && s.rounds != []
    ensures var s' := Take(Begin(s), s.rounds[0]);
            GoodTrace(s'.trace) && (s'.stopped || (Waiting(s'.trace) == 0 && !Owing(s')))
  {
    var r := s.rounds[0];
    if ComesBackEmpty(r) {
      ReturnKeepsTrace(s.trace, Broken);
    } else if r.whileReceiving.Quiet? && r.reply.EndReply? {
      ReturnKeepsTrace(s.trace, Ended);
    } else if r.whileReceiving.Quiet? {
      HeadLags(s);
      ReturnKeepsTrace(s.trace, Got(s.unread[0]));
    }
  }

  lemma {:induction false} HandleKeeps(s: State, signal: Signal)
    requires Settled(s)
    ensures Settled(Handle(s, signal))
  {
  }

  lemma {:induction false} ReceiveKeeps(s: State)
    requires ReadyToReceive(s) && !s.stopped
    ensures Settled(Receive(s)) && Receive(s).buffer == s.buffer
    ensures Receive(s).flag ==> s.buffer.Status?
  {
    if s.rounds != [] {
      TakeKeepsWire(s);
      TakeKeepsTrace(s);
      HandleKeeps(Take(Begin(s), s.rounds[0]), s.rounds[0].beforeTest);
    }
  }

  lemma {:induction false} RoundKeeps(s: State)
    requires ReadyToSend(s) && !s.stopped
    ensures Settled(Receive(Send(s))) && (Receive(Send(s)).flag ==> Receive(Send(s)).buffer.Status?)
  {
    SendKeeps(s);
    if !Send(s).stopped { ReceiveKeeps(Send(s)); }
  }

  /** Only status requests are sent from here on. */
  predicate StatusSince(trace: seq<Act>, n: nat) {
    forall i :: n <= i < |trace| && trace[i].Sent? ==> trace[i].r.Status?
  }

  lemma {:induction false} RoundSends(s: State)
    requires s.buffer.Status?
    ensures StatusSince(Receive(Send(s)).trace, |s.trace|)
  {
    var s1 := Send(s);
    assert StatusSince(s1.trace, |s.trace|);
    if !s1.stopped && s1.rounds != [] { TakeSendsNothing(Begin(s1), s1.rounds[0]); }
  }

  lemma {:induction false} TakeSendsNothing(s: State, r: Round)
    requires !s.stopped
    ensures StatusSince(Take(s, r).trace, |s.trace|)
  {
  }

  /** Polling that starts with the status request in the buffer sends nothing else. */
  lemma {:induction false} PollKeeps(s: State)
    requires Settled(s) && (s.flag ==> s.buffer.Status?)
    ensures Settled(Poll(s)) && StatusSince(Poll(s).trace, |s.trace|)
    decreases !s.stopped, |s.rounds|
  {
    if !s.stopped && s.flag {
      var s1 := Receive(Send(s));
      RoundKeeps(s);
      RoundSends(s);
      PollKeeps(s1);
      StatusJoins(s1.trace, Poll(s1).trace, |s.trace|);
    }
  }

  lemma {:induction false} StatusJoins(a: seq<Act>, b: seq<Act>, n: nat)
    requires a <= b && StatusSince(a, n) && StatusSince(b, |a|)
    ensures StatusSince(b, n)
  {
    forall i | n <= i < |b| && b[i].Sent? ensures b[i].r.Status? {
      if i < |a| { assert a[i] == b[i]; }
    }
  }

  lemma {:induction false} ExchangeKeeps(s: State)
    requires ReadyToSend(s) && !s.stopped
    ensures Settled(Exchange(s))
    ensures Exchange(s).stopped || !Exchange(s).flag
  {
    var s1 := s.(skip := true);
    RoundKeeps(s1);
    PollKeeps(Receive(Send(s1)));
  }

  /** A choice fits between exchanges, and leaves the wire alone. */
  lemma {:induction false} ChoiceExtends(s: State, s': State, r: Request)
    requires Settled(s) && !s.stopped && s'.trace == s.trace + [Chose(r)] && s'.buffer == r
    requires s'.unread == s.unread && s'.sends == s.sends && s'.past == s.past && (s'.flag ==> r.Status?)
    ensures ReadyToSend(s')
  {
    TraceExtends(s.trace, Chose(r));
    TalliesExtend(s.trace, Chose(r));
  }

  lemma {:induction false} ChooseKeeps(s: State, c: Choice)
    requires Settled(s) && !s.stopped && !s.flag
    ensures Choose(s, c).stopped ==> Settled(Choose(s, c))
    ensures !c.Invalid? && !Choose(s, c).stopped ==> ReadyToSend(Choose(s, c))
  {
    match c
    case AskStatus => ChoiceExtends(s, Choose(s, c), Status);
    case AskModify(a) => ChoiceExtends(s, Choose(s, c), Modify(a));
    case _ =>
  }

  lemma {:induction false} MainLoopKeeps(s: State, choices: seq<Choice>)
    requires Settled(s) && (s.flag && !s.stopped ==> !s.skip)
    ensures Settled(MainLoop(s, choices))
    decreases |choices|, !s.stopped && !s.skip
  {
    if s.stopped {
    } else if !s.skip {
      var s1 := s.(buffer := Status);
      ExchangeKeeps(s1);
      MainLoopKeeps(Exchange(s1), choices);
    } else if choices != [] && choices[0].Invalid? {
      MainLoopKeeps(s, choices[1..]);
    } else if choices != [] {
      var s1 := Choose(s, choices[0]);
      ChooseKeeps(s, choices[0]);
      if !s1.stopped { ExchangeKeeps(s1); }
      MainLoopKeeps(Exchange(s1), choices[1..]);
    }
  }

  /** Every client run, whatever the user picks, the server answers and the signals do: send and
      receive calls alternate, each modify request chosen goes out once, and while the polling flag
      is set the buffer holds the status request. */
  lemma {:induction false} EveryRun(admin: bool, exchanges: seq<Round>, choices: seq<Choice>)
    ensures var trace := MainLoop(Start(admin, exchanges), choices).trace;
            Alternates(trace) && ModifiesOnce(trace) && PollsStatus(trace)
  {
    MainLoopKeeps(Start(admin, exchanges), choices);
  }

  // ----- replies and requests --------------------------------------------------------------

  /** The account of replies in every run: the exchanges over are the first ones, a receive was
      broken off once for each SIGINT that came while one waited or call that failed, and each reply
      read is exactly as many requests late as receives had been broken off by then. */
  lemma {:induction false} RepliesLag(admin: bool, exchanges: seq<Round>, choices: seq<Choice>)
    ensures var s := MainLoop(Start(admin, exchanges), choices);
            && s.past <= exchanges
            && Tally(s.trace, Breaking) == Interrupts(s.past)
            && Lags(s.trace)
            && (!s.stopped ==> |s.unread| == Interrupts(s.past))
  {
    MainLoopKeeps(Start(admin, exchanges), choices);
    var s := MainLoop(Start(admin, exchanges), choices);
    assert s.past + s.rounds == exchanges;
  }

  /** Every reply read so far answers the request sent just before. */
  predicate InStep(trace: seq<Act>) {
    forall i :: 0 <= i < |trace| && trace[i].Got? ==> trace[i].answers == Tally(trace[..i], Sending) - 1
  }

  /** A reply read answers the request just sent if and only if no receive was broken off before. */
  lemma {:induction false} InStepIff(admin: bool, exchanges: seq<Round>, choices: seq<Choice>, i: nat)
    requires var trace := MainLoop(Start(admin, exchanges), choices).trace;
             i < |trace| && trace[i].Got?
    ensures var trace := MainLoop(Start(admin, exchanges), choices).trace;
            trace[i].answers == Tally(trace[..i], Sending) - 1 <==> Broken !in trace[..i]
  {
    RepliesLag(admin, exchanges, choices);
    assert LateBy(MainLoop(Start(admin, exchanges), choices).trace, i);
    TallyZero(MainLoop(Start(admin, exchanges), choices).trace[..i], Breaking);
  }

  lemma {:induction false} NoInterrupts(rounds: seq<Round>)
    ensures Interrupts(rounds) == 0 <==> forall i :: 0 <= i < |rounds| ==> !ComesBackEmpty(rounds[i])
  {
    if rounds != [] { NoInterrupts(rounds[..|rounds| - 1]); }
  }

  /** So a client still at its menu has read every reply if and only if no receive was broken off by
      a SIGINT or a failing call, and then every reply it read answered the request just sent. */
  lemma {:induction false} MenuInStepIff(admin: bool, exchanges: seq<Round>, choices: seq<Choice>)
    requires !MainLoop(Start(admin, exchanges), choices).stopped
    ensures var s := MainLoop(Start(admin, exchanges), choices);
            && (s.unread == [] <==> forall i :: 0 <= i < |s.past| ==> !ComesBackEmpty(s.past[i]))
            && (s.unread == [] ==> InStep(s.trace))
  {
    var s := MainLoop(Start(admin, exchanges), choices);
    RepliesLag(admin, exchanges, choices);
    NoInterrupts(s.past);
    forall i | s.unread == [] && 0 <= i < |s.trace| && s.trace[i].Got?
      ensures s.trace[i].answers == Tally(s.trace[..i], Sending) - 1
    {
      InStepIff(admin, exchanges, choices, i);
      TallyZero(s.trace, Breaking);
      TallyZero(s.trace[..i], Breaking);
    }
  }

  const BROKEN_ROUND := Round(Quiet, Int, OtherReply, Quiet)
  const QUIET_ROUND := Round(Quiet, Quiet, OtherReply, Quiet)

  /** A run that gets out of step: the user asks for the status, leaves the polling with SIGINT while
      the receive waits, and picks an update. What the client then reads and shows is the reply to
      the status request. */
  lemma {:induction false} OldReplyShown(a: Amend)
    ensures MainLoop(Start(true, [BROKEN_ROUND, QUIET_ROUND]), [AskStatus, AskModify(a)]).trace
         == [Chose(Status), Sent(Status, true), Broken, Chose(Modify(a)), Sent(Modify(a), false), Got(0)]
  {
    var s0 := Start(true, [BROKEN_ROUND, QUIET_ROUND]);
    var s1 := Exchange(Choose(s0, AskStatus));
    assert s1 == State(false, true, Status, [Chose(Status), Sent(Status, true), Broken], [0], 1,
                       [BROKEN_ROUND], [QUIET_ROUND], false);
    var s2 := Exchange(Choose(s1, AskModify(a)));
    assert s2.trace == [Chose(Status), Sent(Status, true), Broken, Chose(Modify(a)), Sent(Modify(a), false), Got(0)];
    assert !s2.stopped && s2.skip;
    assert [AskStatus, AskModify(a)][1..] == [AskModify(a)] && [AskModify(a)][1..] == [];
    assert MainLoop(s1, [AskModify(a)]) == MainLoop(s2, []);
  }

  // ----- polling ---------------------------------------------------------------------------

  /** `n` exchanges of the same request; the first reads the reply to request number `first`. */
  function Exchanges(r: Request, first: nat, n: nat): seq<Act>
    decreases n
  {
    if n == 0 then [] else [Sent(r, true), Got(first)] + Exchanges(r, first + 1, n - 1)
  }

  predicate Undisturbed(r: Round) {
    r.beforeSend.Quiet? && r.whileReceiving.Quiet? && r.reply.OtherReply? && r.beforeTest.Quiet?
  }

  /** The request whose reply is read next. */
  function NextReply(s: State): nat
    requires InOrder(s)
  {
    s.sends - |s.unread|
  }

  lemma {:induction false} QuietRound(s: State)
    requires !s.stopped && s.flag && s.rounds != [] && Undisturbed(s.rounds[0]) && InOrder(s)
    ensures var s' := Receive(Send(s));
            && !s'.stopped && s'.flag && s'.buffer == s.buffer && s'.rounds == s.rounds[1..]
            && s'.trace == s.trace + [Sent(s.buffer, true), Got(NextReply(s))]
            && InOrder(s') && NextReply(s') == NextReply(s) + 1
  {
    assert s.trace + [Sent(s.buffer, true)] + [Got(NextReply(s))] == s.trace + [Sent(s.buffer, true), Got(NextReply(s))];
  }

  /** With the flag set and no signal, the client keeps asking for as long as the server answers. */
  lemma {:induction false} PollingContinues(s: State)
    requires !s.stopped && s.flag && InOrder(s)
    requires forall i :: 0 <= i < |s.rounds| ==> Undisturbed(s.rounds[i])
    ensures Poll(s).trace == s.trace + Exchanges(s.buffer, NextReply(s), |s.rounds|) + [Sent(s.buffer, true)]
    ensures Poll(s).stopped
    decreases |s.rounds|
  {
    if s.rounds == [] {
      PollRunsOut(s);
    } else {
      var s1 := Receive(Send(s));
      QuietRound(s);
      PollingContinues(s1);
      OneMore(s.trace, s.buffer, NextReply(s), |s.rounds|);
      assert Poll(s) == Poll(s1);
    }
  }

  lemma {:induction false} PollRunsOut(s: State)
    requires !s.stopped && s.flag && s.rounds == []
    ensures Poll(s).trace == s.trace + [] + [Sent(s.buffer, true)] && Poll(s).stopped
  {
    assert Poll(Receive(Send(s))) == Receive(Send(s));
    assert s.trace + [] == s.trace;
  }

  lemma {:induction false} OneMore(trace: seq<Act>, r: Request, first: nat, n: nat)
    requires n > 0
    ensures trace + [Sent(r, true), Got(first)] + Exchanges(r, first + 1, n - 1) == trace + Exchanges(r, first, n)
  {
  }

  /** So picking the first menu option polls until a signal or the end of the connection, reading
      the replies in order. */
  lemma {:induction false} StatusIsPolled(s: State)
    requires !s.stopped && s.rounds != [] && InOrder(s)
    requires forall i :: 0 <= i < |s.rounds| ==> Undisturbed(s.rounds[i])
    ensures Exchange(Choose(s, AskStatus)).trace
         == s.trace + [Chose(Status)] + Exchanges(Status, NextReply(s), |s.rounds|) + [Sent(Status, true)]
  {
    var s1 := Choose(s, AskStatus).(skip := true);
    QuietRound(s1);
    PollingContinues(Receive(Send(s1)));
    OneMore(s1.trace, Status, NextReply(s), |s.rounds|);
  }
}

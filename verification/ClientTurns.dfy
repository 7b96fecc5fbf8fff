/** Turn by turn: what the client does with each choice, each signal and each message. */
module ClientTurns {
  import opened Client

  predicate AtMenu(s: State) { !s.stopped && s.skip && !s.flag }

  /** Choosing the end ends the client: nothing is sent, whatever would have been chosen next. */
  lemma {:induction false} QuitEnds(s: State, more: seq<Choice>)
    requires !s.stopped && s.skip
    ensures MainLoop(s, [Quit] + more) == s.(stopped := true)
  {
    assert ([Quit] + more)[1..] == more;
  }

  /** An invalid choice changes nothing but that it is asked again. */
  lemma {:induction false} InvalidIsAskedAgain(s: State, more: seq<Choice>)
    requires !s.stopped && s.skip
    ensures MainLoop(s, [Invalid] + more) == MainLoop(s, more)
  {
    assert ([Invalid] + more)[1..] == more;
  }

  /** A round that nothing disturbs before some point. */
  predicate QuietUntilTest(r: Round) { r.beforeSend.Quiet? && r.whileReceiving.Quiet? }

  /** SIGTSTP ends the client at each of its points, with nothing done after it. */
  lemma {:induction false} TstpEnds(s: State)
    requires !s.stopped && s.rounds != [] && s.unread == []
    ensures s.rounds[0].beforeSend.Tstp? ==> Exchange(s).stopped && Exchange(s).trace == s.trace
    ensures s.rounds[0].beforeSend.Quiet? && s.rounds[0].whileReceiving.Tstp? ==>
              Exchange(s).stopped && Exchange(s).trace == s.trace + [Sent(s.buffer, s.flag)]
    ensures QuietUntilTest(s.rounds[0]) && s.rounds[0].reply.OtherReply? && s.rounds[0].beforeTest.Tstp? ==>
              Exchange(s).stopped && Exchange(s).trace == s.trace + [Sent(s.buffer, s.flag), Got(s.sends)]
  {
    var t := s.trace + [Sent(s.buffer, s.flag)];
    assert t + [Got(s.sends)] == s.trace + [Sent(s.buffer, s.flag), Got(s.sends)];
  }

  /** The end message ends the client too. */
  lemma {:induction false} EndMessageEnds(s: State)
    requires !s.stopped && s.rounds != [] && QuietUntilTest(s.rounds[0]) && s.rounds[0].reply.EndReply?
    ensures Exchange(s).stopped && Exchange(s).trace == s.trace + [Sent(s.buffer, s.flag), Ended]
  {
    var t := s.trace + [Sent(s.buffer, s.flag)];
    assert t + [Ended] == s.trace + [Sent(s.buffer, s.flag), Ended];
  }

  /** A receive with no reply to come, and one with no exchange left, waits for good. */
  lemma {:induction false} ReceiveWaits(s: State)
    requires !s.stopped
    ensures s.rounds == [] ==> Receive(s) == s.(stopped := true)
    ensures s.rounds != [] && s.rounds[0].whileReceiving.Quiet? && s.rounds[0].reply.OtherReply? && s.unread == [] ==>
              Receive(s).stopped && Receive(s).trace == s.trace
  {
  }

  /** An update is sent once, its reply read, and the client is at its menu again. */
  lemma {:induction false} UpdateReturns(s: State, a: Amend)
    requires AtMenu(s) && s.rounds != [] && Undisturbed(s.rounds[0]) && s.unread == []
    ensures var s' := Exchange(Choose(s, AskModify(a)));
            && AtMenu(s')
            && s'.trace == s.trace + [Chose(Modify(a)), Sent(Modify(a), false), Got(s.sends)]
  {
    var t := s.trace + [Chose(Modify(a))];
    assert t + [Sent(Modify(a), false)] + [Got(s.sends)]
        == s.trace + [Chose(Modify(a)), Sent(Modify(a), false), Got(s.sends)];
  }

  /** SIGINT leaves the polling at each of its points: the exchange under way is the last. */
  lemma {:induction false} IntLeavesPolling(s: State)
    requires !s.stopped && s.flag && s.rounds != [] && s.unread == []
    requires var r := s.rounds[0];
             || (r.beforeSend.Int? && r.whileReceiving.Quiet? && r.reply.OtherReply? && r.beforeTest.Quiet?)
             || (r.beforeSend.Quiet? && r.whileReceiving.Int? && r.beforeTest.Quiet?)
             || (r.beforeSend.Quiet? && r.whileReceiving.Quiet? && r.reply.OtherReply? && r.beforeTest.Int?)
    ensures AtMenu(Poll(s))
    ensures Poll(s).trace == s.trace + [Sent(s.buffer, s.rounds[0].beforeSend.Quiet?),
                                        if s.rounds[0].whileReceiving.Int? then Broken else Got(s.sends)]
  {
    var last := if s.rounds[0].whileReceiving.Int? then Broken else Got(s.sends);
    var t := s.trace + [Sent(s.buffer, s.rounds[0].beforeSend.Quiet?)];
    assert t + [last] == s.trace + [Sent(s.buffer, s.rounds[0].beforeSend.Quiet?), last];
    assert Poll(s) == Poll(Receive(Send(s)));
  }

  /** An administrator starts at the menu, and nothing happens without a choice. */
  lemma {:induction false} AdminStartsAtMenu(exchanges: seq<Round>)
    ensures MainLoop(Start(true, exchanges), []) == Start(true, exchanges)
    ensures AtMenu(Start(true, exchanges)) && Start(true, exchanges).trace == []
  {
  }

  /** Any other user polls from the start, until a signal or the end. */
  lemma {:induction false} UserPolls(exchanges: seq<Round>, choices: seq<Choice>)
    requires exchanges != [] && forall i :: 0 <= i < |exchanges| ==> Undisturbed(exchanges[i])
    ensures MainLoop(Start(false, exchanges), choices).trace
         == Exchanges(Status, 0, |exchanges|) + [Sent(Status, true)]
  {
    var s := Start(false, exchanges).(skip := true);
    QuietRound(s);
    PollingContinues(Receive(Send(s)));
    OneMore([], Status, 0, |exchanges|);
    assert Exchange(Start(false, exchanges)) == Poll(Receive(Send(s)));
    assert [] + Exchanges(Status, 0, |exchanges|) == Exchanges(Status, 0, |exchanges|);
    UserLoop(exchanges, choices);
  }

  lemma {:induction false} UserLoop(exchanges: seq<Round>, choices: seq<Choice>)
    requires Exchange(Start(false, exchanges)).stopped
    ensures MainLoop(Start(false, exchanges), choices) == Exchange(Start(false, exchanges))
  {
    assert Start(false, exchanges).(buffer := Status) == Start(false, exchanges);
  }
}

/**
 When a paper trading run halts, said in terms of its inputs: the ticks the trader gives its kill
 switch (marked PnL and inventory after each market event), the feed's signs of life, the watchdog.
 */
module TraderHalts {
  import opened OrderBook
  import opened TradingDesk
  import opened KillSwitches
  import opened HaltProtocol
  import P = Paper
  import H = KillSwitchHistory

  /** The desk a market event leaves, before the switch is told and the strategy called. */
  function Marked<S>(setup: P.PaperSetup<S>, t: P.Trader<S>, event: MarketEvent): Account {
    P.MarketApplied(setup.category, P.Drained(setup.category, t, event.ts), event).desk.core.account
  }

  /** What one turn tells the switch. */
  function Heard<S>(setup: P.PaperSetup<S>, t: P.Trader<S>, input: P.Input): seq<H.Event> {
    match input
    case MarketMessage(event, receivedS, tickedS) =>
      var account := Marked(setup, t, event);
      [H.WsMessage(receivedS), H.Tick(tickedS, MarkToMid(account), account.inventory)]
    case OtherMessage(receivedS) => [H.WsMessage(receivedS)]
    case WatchdogWakes(nowS) => if t.watching then [H.Heartbeat(nowS)] else []
    case StopRequest => []
  }

  function AllHeard<S>(setup: P.PaperSetup<S>, t: P.Trader<S>, inputs: seq<P.Input>): seq<H.Event>
    requires setup.limits.Valid()
  {
    if inputs == [] then []
    else
      var init := inputs[..|inputs| - 1];
      AllHeard(setup, t, init) + Heard(setup, P.After(setup, t, init), inputs[|inputs| - 1])
  }

  lemma TurnTells<S>(setup: P.PaperSetup<S>, t: P.Trader<S>, input: P.Input, events: seq<H.Event>)
    requires setup.limits.Valid() && t.switch == H.After(setup.limits, events)
    ensures P.Handle(setup, t, input).switch == H.After(setup.limits, events + Heard(setup, t, input))
  {
    hide P.Drained, P.DrainOne, Apply, Ticked, Called, H.Told;
    match input
    case MarketMessage(event, receivedS, tickedS) =>
      var noted := MessageNoted(t.switch, receivedS);
      DrainIgnoresSwitch(setup.category, t, noted, event.ts);
      DrainIgnoresSwitch(setup.category, t, t.switch, event.ts);
      var account := Marked(setup, t, event);
      ToldNext(setup.limits, events, H.WsMessage(receivedS));
      ToldNext(setup.limits, events + [H.WsMessage(receivedS)], H.Tick(tickedS, MarkToMid(account), account.inventory));
      assert events + Heard(setup, t, input)
          == events + [H.WsMessage(receivedS)] + [H.Tick(tickedS, MarkToMid(account), account.inventory)];
    case OtherMessage(receivedS) => ToldNext(setup.limits, events, H.WsMessage(receivedS));
    case WatchdogWakes(nowS) =>
      if t.watching { ToldNext(setup.limits, events, H.Heartbeat(nowS)); } else { assert events + [] == events; }
    case StopRequest => assert events + [] == events;
  }

  lemma ToldNext(limits: Limits, events: seq<H.Event>, e: H.Event)
    requires limits.Valid()
    ensures H.After(limits, events + [e]) == H.Told(limits, H.After(limits, events), e)
    ensures e.WsMessage? ==> H.After(limits, events + [e]) == MessageNoted(H.After(limits, events), e.nowS)
    ensures e.Tick? ==>
              H.After(limits, events + [e]) == Ticked(limits, H.After(limits, events), e.nowS, e.pnl, e.inventory)
    ensures e.Heartbeat? ==> H.After(limits, events + [e]) == HeartbeatChecked(limits, H.After(limits, events), e.nowS)
  {
    assert (events + [e])[..|events|] == events;
  }

  lemma {:induction false} SwitchHasHeard<S>(setup: P.PaperSetup<S>, book: Book, state: S, inputs: seq<P.Input>)
    requires setup.limits.Valid()
    ensures P.After(setup, P.Fresh(book, state), inputs).switch
            == H.After(setup.limits, AllHeard(setup, P.Fresh(book, state), inputs))
  {
    hide P.Handle, Heard;
    if inputs != [] {
      var init := inputs[..|inputs| - 1];
      SwitchHasHeard(setup, book, state, init);
      TurnTells(setup, P.After(setup, P.Fresh(book, state), init), inputs[|inputs| - 1],
                AllHeard(setup, P.Fresh(book, state), init));
    }
  }

  /**
   A run is halted if and only if some tick or heartbeat of its inputs breached a rule, judged by
   everything the switch had heard by then; the reason is that of the last breach.
   */
  lemma RunHaltedIffBreached<S>(setup: P.PaperSetup<S>, book: Book, state: S, inputs: seq<P.Input>)
    requires setup.limits.Valid()
    ensures var heard := AllHeard(setup, P.Fresh(book, state), inputs);
            var s := P.After(setup, P.Fresh(book, state), inputs).switch;
            && (s.halted <==> exists i :: 0 <= i < |heard| && H.TripsAt(setup.limits, heard, i))
            && (forall i :: 0 <= i < |heard| && H.TripsAt(setup.limits, heard, i)
                            && (forall k :: i < k < |heard| ==> !H.TripsAt(setup.limits, heard, k)) ==>
                  s.haltReason == H.ReasonAt(setup.limits, heard, i))
  {
    hide H.TripsAt, H.ReasonAt, H.After, P.After;
    var heard := AllHeard(setup, P.Fresh(book, state), inputs);
    SwitchHasHeard(setup, book, state, inputs);
    H.HaltedIffBreached(setup.limits, heard, |heard|);
    assert heard[..|heard|] == heard;
  }
}

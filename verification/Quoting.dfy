/**
 The shared quoting loop as a strategy: decide a target per side, cancel a quote that no longer
 matches it, place a quote where one is missing. The pricing function is left open.
 */
module Quoting {
  import opened Prelude
  import opened OrderBook
  import opened TradingDesk

  datatype Kind = BookKind | PriceChangeKind | TradeKind | TickSizeChangeKind | PlaceArrivalKind | CancelArrivalKind

  function KindOf(e: Timed): Kind {
    match e.payload
    case PlaceArrival(_) => PlaceArrivalKind
    case CancelArrival(_) => CancelArrivalKind
    case Market(event) =>
      match event
      case BookSnapshot(_, _, _) => BookKind
      case PriceChange(_, _) => PriceChangeKind
      case LastTrade(_, _, _, _) => TradeKind
      case TickSizeChange(_, _) => TickSizeChangeKind
  }

  const DEFAULT_KINDS: set<Kind> := {BookKind, PriceChangeKind, TradeKind}

  type OrderSize = v: real | v > 0.0 witness 1.0

  type Targets = (Option<real>, Option<real>)

  /** `observe` runs on every event, before the check whether to requote; `desired` prices the quotes. */
  datatype Quoter<!I> = Quoter(size: OrderSize, requoteKinds: set<Kind>,
                               observe: (I, View, Timed) -> I, desired: (I, View) -> (I, Targets))

  datatype Quote = Quote(oid: Option<OrderId>, price: Option<real>)

  datatype QuoteState<I> = QuoteState(bid: Quote, ask: Quote, inner: I)

  const NO_QUOTE: Quote := Quote(None, None)

  predicate SamePrice(price: Option<real>, target: Option<real>, tick: Tick) {
    price.Some? && target.Some? && Abs(price.value - target.value) < tick / 2.0
  }

  predicate MustCancel(q: Quote, target: Option<real>, tick: Tick) {
    q.oid.Some? && !SamePrice(q.price, target, tick)
  }

  predicate MustPlace(q: Quote, target: Option<real>, tick: Tick) {
    target.Some? && (q.oid.None? || MustCancel(q, target, tick))
  }

  function ReconcileActions(q: Quote, side: Side, target: Option<real>, size: OrderSize, tick: Tick): seq<Action> {
    (if MustCancel(q, target, tick) then [CancelOrder(q.oid.value)] else [])
    + (if MustPlace(q, target, tick) then [PlaceOrder(side, target.value, size, true)] else [])
  }

  function Reconciled(q: Quote, target: Option<real>, tick: Tick, nextId: OrderId): Quote {
    if MustPlace(q, target, tick) then Quote(Some(nextId), target)
    else if MustCancel(q, target, tick) then NO_QUOTE
    else q
  }

  /** The id the ask placement gets: the bid placement, if any, comes first. */
  function AskId(q: Quote, target: Option<real>, view: View): OrderId {
    if MustPlace(q, target, view.book.tick) then view.nextId + 1 else view.nextId
  }

  predicate Requotes<I>(quoter: Quoter<I>, e: Timed) {
    KindOf(e) in quoter.requoteKinds
  }

  function TargetsFor<I>(quoter: Quoter<I>, state: QuoteState<I>, view: View, e: Timed): Targets {
    quoter.desired(quoter.observe(state.inner, view, e), view).1
  }

  function OnEvent<I>(quoter: Quoter<I>, state: QuoteState<I>, view: View, e: Timed): Reply<QuoteState<I>> {
    var seen := quoter.observe(state.inner, view, e);
    if !Requotes(quoter, e) then Reply(state.(inner := seen), [])
    else
      var (inner, targets) := quoter.desired(seen, view);
      var tick := view.book.tick;
      Reply(QuoteState(Reconciled(state.bid, targets.0, tick, view.nextId),
                       Reconciled(state.ask, targets.1, tick, AskId(state.bid, targets.0, view)),
                       inner),
            ReconcileActions(state.bid, Bid, targets.0, quoter.size, tick)
            + ReconcileActions(state.ask, Ask, targets.1, quoter.size, tick))
  }

  function AsStrategy<I>(quoter: Quoter<I>): Strategy<QuoteState<I>> {
    Strategy((state: QuoteState<I>, view: View, e: Timed, n: nat) => OnEvent(quoter, state, view, e))
  }

  function Initial<I>(inner: I): QuoteState<I> {
    QuoteState(NO_QUOTE, NO_QUOTE, inner)
  }

  lemma AllowedAll(actions: seq<Action>)
    requires forall i :: 0 <= i < |actions| ==> Acceptable(actions[i])
    ensures Allowed(actions) == actions && !Raises(actions)
  {
    if actions != [] {
      assert forall i :: 0 <= i < |actions[1..]| ==> actions[1..][i] == actions[i + 1];
      AllowedAll(actions[1..]);
      assert actions == [actions[0]] + actions[1..];
    }
  }

  /** Reconciling is within the rules of the simulator, and quiet on everything but requote events. */
  lemma QuoterIsWellBehaved<I>(quoter: Quoter<I>, state: QuoteState<I>, view: View, e: Timed)
    ensures var actions := OnEvent(quoter, state, view, e).actions;
            && Allowed(actions) == actions && !Raises(actions)
            && |actions| <= 4 && (!Requotes(quoter, e) ==> actions == [])
  {
    AllowedAll(OnEvent(quoter, state, view, e).actions);
  }

  /** By default a quoter requotes on snapshots, price changes and trades: on every market event but a new tick. */
  lemma DefaultKindsAre<I>(quoter: Quoter<I>, e: Timed)
    requires quoter.requoteKinds == DEFAULT_KINDS
    ensures Requotes(quoter, e) <==> e.payload.Market? && !e.payload.event.TickSizeChange?
  {
  }
}

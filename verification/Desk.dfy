/**
 What the backtester and the paper trader have in common, as values: accounts, the
 queue of timed events, and what each event or strategy action does to them.
 The two drivers (Backtest, Paper) only differ in when they deliver events.
 */
module TradingDesk {
  import opened Prelude
  import opened OrderBook
  import opened Fees

  // ---------- events ----------

  datatype PriceLevelChange = PriceLevelChange(side: Aggressor, price: real, size: real)

  datatype MarketEvent =
    | BookSnapshot(ts: Millis, bids: seq<(real, real)>, asks: seq<(real, real)>)
    | PriceChange(ts: Millis, changes: seq<PriceLevelChange>)
    | LastTrade(ts: Millis, price: real, size: Volume, side: Aggressor)
    | TickSizeChange(ts: Millis, newTick: Tick)

  datatype Placement = Placement(id: OrderId, side: Side, price: real, size: real, postOnly: bool)

  datatype Payload = Market(event: MarketEvent) | PlaceArrival(order: Placement) | CancelArrival(id: OrderId)

  datatype Timed = Timed(ts: Millis, payload: Payload)

  function OnTape(event: MarketEvent): Timed {
    Timed(event.ts, Market(event))
  }

  /** A stable priority queue: sorted by time, equal times in order of insertion. */
  function Enqueue(queue: seq<Timed>, e: Timed): seq<Timed> {
    if queue == [] || e.ts < queue[0].ts then [e] + queue
    else [queue[0]] + Enqueue(queue[1..], e)
  }

  /** The sequence numbers of a queue once an event with number `n` joined it: the number goes where its event goes. */
  function NumberIn(queue: seq<Timed>, numbers: seq<nat>, ts: Millis, n: nat): (r: seq<nat>)
    ensures |numbers| == |queue| ==> |r| == |queue| + 1
  {
    if queue == [] || numbers == [] || ts < queue[0].ts then [n] + numbers
    else [numbers[0]] + NumberIn(queue[1..], numbers[1..], ts, n)
  }

  // ---------- accounts ----------

  datatype Fill = Fill(timestamp: int, id: OrderId, side: Side, price: real, size: real, isMaker: bool,
                       feePaid: real, rebateReceived: real, queueAhead: real, timeInBook: int)

  datatype Account = Account(cash: real, inventory: real, feesPaid: real, rebatesReceived: real,
                             fills: seq<Fill>, lastMid: Option<real>)

  const FLAT: Account := Account(0.0, 0.0, 0.0, 0.0, [], None)

  function Sign(side: Side): real {
    if side.Bid? then 1.0 else -1.0
  }

  function Booked(account: Account, f: Fill): Account {
    account.(cash := account.cash + (-Sign(f.side) * (f.price * f.size) + f.rebateReceived - f.feePaid),
             inventory := account.inventory + Sign(f.side) * f.size,
             feesPaid := account.feesPaid + f.feePaid,
             rebatesReceived := account.rebatesReceived + f.rebateReceived,
             fills := account.fills + [f])
  }

  function MakerFill(f: BookFill, price: real, ts: int, category: FeeCategory): Fill {
    Fill(ts, f.id, f.side, price, f.size, true, 0.0, MakerRebate(price, f.size, category), f.queueAhead, f.timeInBook)
  }

  function TakerFill(p: Placement, price: real, size: real, now: int, category: FeeCategory): Fill {
    Fill(now, p.id, p.side, price, size, false, TakerFee(price, size, category), 0.0, 0.0, 0)
  }

  function BookedAll(account: Account, fills: seq<BookFill>, price: real, ts: int, category: FeeCategory): Account {
    if fills == [] then account
    else Booked(BookedAll(account, fills[..|fills| - 1], price, ts, category),
                MakerFill(fills[|fills| - 1], price, ts, category))
  }

  function MarkToMid(account: Account): real {
    if account.lastMid.None? then account.cash else account.cash + account.inventory * account.lastMid.value
  }

  // ---------- what an event does ----------

  datatype Core = Core(book: Book, account: Account, pending: map<OrderId, Placement>)

  function WithMid(core: Core): Core {
    if Mid(core.book).None? then core else core.(account := core.account.(lastMid := Mid(core.book)))
  }

  function ApplyChanges(book: Book, changes: seq<PriceLevelChange>): Book {
    if changes == [] then book
    else
      var last := changes[|changes| - 1];
      ApplyPriceChange(ApplyChanges(book, changes[..|changes| - 1]), last.side, last.price, last.size)
  }

  function ApplyMarket(category: FeeCategory, core: Core, event: MarketEvent): Core {
    match event
    case BookSnapshot(_, bids, asks) => WithMid(core.(book := ApplySnapshot(core.book, bids, asks)))
    case PriceChange(_, changes) => WithMid(core.(book := ApplyChanges(core.book, changes)))
    case LastTrade(ts, price, size, side) =>
      var walked := Traded(core.book, price, size, side, ts);
      WithMid(core.(book := core.book.(orders := walked.orders),
                    account := BookedAll(core.account, walked.fills, price, ts, category)))
    case TickSizeChange(_, tick) => core.(book := core.book.(tick := tick))
  }

  predicate CrossesSpread(book: Book, side: Side, price: real) {
    if side.Bid? then BestAsk(book).Some? && price >= BestAsk(book).value.0
    else BestBid(book).Some? && price <= BestBid(book).value.0
  }

  function Opposite(book: Book, side: Side): Option<(real, real)> {
    if side.Bid? then BestAsk(book) else BestBid(book)
  }

  /** An order reaches the book, unless it was cancelled on the way. */
  function ApplyPlace(category: FeeCategory, core: Core, p: Placement, now: Millis): Core {
    if p.id !in core.pending then core
    else
      var arrived := core.(pending := core.pending - {p.id});
      if !p.postOnly && CrossesSpread(core.book, p.side, p.price) then
        var top := Opposite(core.book, p.side).value;
        var size := Min(p.size, top.1);
        var paid := arrived.(account := Booked(core.account, TakerFill(p, top.0, size, now, category)));
        if p.size - size > 0.0 then paid.(book := AddOrder(core.book, p.id, p.side, p.price, p.size - size, now))
        else paid
      else arrived.(book := AddOrder(core.book, p.id, p.side, p.price, p.size, now))
  }

  function ApplyCancel(core: Core, id: OrderId): Core {
    core.(book := RemoveOrder(core.book, id), pending := core.pending - {id})
  }

  function Apply(category: FeeCategory, core: Core, e: Timed): Core {
    match e.payload
    case Market(event) => ApplyMarket(category, core, event)
    case PlaceArrival(p) => ApplyPlace(category, core, p, e.ts)
    case CancelArrival(id) => ApplyCancel(core, id)
  }

  // ---------- strategies ----------

  datatype Action = PlaceOrder(side: Side, price: real, size: real, postOnly: bool) | CancelOrder(id: OrderId)

  /** What a strategy may look at: its simulator interface, and the id its next order will get. */
  datatype View = View(now: Millis, inventory: real, book: Book, nextId: OrderId)

  datatype Reply<S> = Reply(state: S, actions: seq<Action>)

  /**
   A deterministic strategy: its own state, and a callback that answers with actions in order. The
   callback is given the event and its sequence number, the engine's count of events pushed before it.
   */
  datatype Strategy<!S> = Strategy(onEvent: (S, View, Timed, nat) -> Reply<S>)

  /** The strategy answers the same whatever number the event carries. */
  ghost predicate IgnoresNumbers<S(!new)>(strategy: Strategy<S>) {
    forall state: S, view: View, e: Timed, n: nat, m: nat ::
      strategy.onEvent(state, view, e, n) == strategy.onEvent(state, view, e, m)
  }

  /** The strategy cannot tell an event under the one number from the event under the other. */
  ghost predicate SameToStrategy<S(!new)>(strategy: Strategy<S>, n: nat, m: nat) {
    n == m || IgnoresNumbers(strategy)
  }

  datatype Call = Call(event: Timed, seqNo: nat, view: View, actions: seq<Action>)

  /** Arrival time of the n-th action submitted in a run, given when it was decided. */
  type Latency = (nat, Millis) -> Millis

  /** No latency at all. */
  function Instant(n: nat, now: Millis): Millis {
    now
  }

  ghost predicate Causal(latency: Latency) {
    forall n, t :: latency(n, t) >= t
  }

  /** The same delay for every action. */
  ghost predicate Constant(latency: Latency, delay: nat) {
    forall n: nat, t: Millis :: latency(n, t) == t + delay
  }

  // ---------- the desk ----------

  /**
   Bookkeeping that no decision depends on: every order ever placed, the cancels requested,
   the orders whose cancel has arrived, and the ids in the order in which they came to rest.
   */
  datatype History = History(placed: map<OrderId, Placement>, cancelRequested: set<OrderId>,
                             cancelled: set<OrderId>, rested: seq<OrderId>, calls: seq<Call>)

  datatype Desk = Desk(core: Core, queue: seq<Timed>, nextId: OrderId, draws: nat, now: Millis, history: History)

  const NO_HISTORY: History := History(map[], {}, {}, [], [])

  function Opened(book: Book): Desk {
    Desk(Core(book, FLAT, map[]), [], 1, 0, 0, NO_HISTORY)
  }

  function ViewOf(d: Desk): View {
    View(d.now, d.core.account.inventory, d.core.book, d.nextId)
  }

  function Noted(history: History, before: Core, after: Core, e: Timed): History {
    match e.payload
    case Market(_) => history
    case PlaceArrival(p) =>
      if Tracks(after.book.orders, p.id) && !Tracks(before.book.orders, p.id)
      then history.(rested := history.rested + [p.id]) else history
    case CancelArrival(id) =>
      if id in history.placed then history.(cancelled := history.cancelled + {id}) else history
  }

  /** Time moves to the event and the event is applied. */
  function Delivered(category: FeeCategory, d: Desk, e: Timed): Desk {
    var core := Apply(category, d.core, e);
    d.(core := core, now := e.ts, history := Noted(d.history, d.core, core, e))
  }

  function PlaceLimit(latency: Latency, d: Desk, side: Side, price: real, size: real, postOnly: bool): Desk {
    var p := Placement(d.nextId, side, price, size, postOnly);
    d.(core := d.core.(pending := d.core.pending[p.id := p]),
       queue := Enqueue(d.queue, Timed(latency(d.draws, d.now), PlaceArrival(p))),
       nextId := d.nextId + 1,
       draws := d.draws + 1,
       history := d.history.(placed := d.history.placed[p.id := p]))
  }

  function RequestCancel(latency: Latency, d: Desk, id: OrderId): Desk {
    d.(queue := Enqueue(d.queue, Timed(latency(d.draws, d.now), CancelArrival(id))),
       draws := d.draws + 1,
       history := d.history.(cancelRequested := d.history.cancelRequested + {id}))
  }

  /** The arrival that an action schedules. */
  function ActionEvent(latency: Latency, d: Desk, a: Action): Timed {
    Timed(latency(d.draws, d.now),
          if a.PlaceOrder? then PlaceArrival(Placement(d.nextId, a.side, a.price, a.size, a.postOnly))
               else CancelArrival(a.id))
  }

  predicate Acceptable(a: Action) {
    a.PlaceOrder? ==> a.size > 0.0
  }

  function Perform(latency: Latency, d: Desk, a: Action): Desk
    requires Acceptable(a)
  {
    match a
    case PlaceOrder(side, price, size, postOnly) => PlaceLimit(latency, d, side, price, size, postOnly)
    case CancelOrder(id) => RequestCancel(latency, d, id)
  }

  /** The actions a callback gets to perform: all before the first placement that is refused. */
  function Allowed(actions: seq<Action>): (r: seq<Action>)
    ensures forall i :: 0 <= i < |r| ==> Acceptable(r[i])
    ensures |r| <= |actions| && r == actions[..|r|]
  {
    if actions == [] || !Acceptable(actions[0]) then []
    else [actions[0]] + Allowed(actions[1..])
  }

  predicate Raises(actions: seq<Action>) {
    |Allowed(actions)| < |actions|
  }

  function PerformAll(latency: Latency, d: Desk, actions: seq<Action>): Desk
    requires forall i :: 0 <= i < |actions| ==> Acceptable(actions[i])
  {
    if actions == [] then d
    else Perform(latency, PerformAll(latency, d, actions[..|actions| - 1]), actions[|actions| - 1])
  }

  /** The numbers on the queue after the same actions: each pushes one arrival under the next number. */
  function NumbersAfter(latency: Latency, d: Desk, actions: seq<Action>, numbers: seq<nat>, pushes: nat): (r: seq<nat>)
    requires forall i :: 0 <= i < |actions| ==> Acceptable(actions[i])
  {
    if actions == [] then numbers
    else
      var init := actions[..|actions| - 1];
      var before := PerformAll(latency, d, init);
      NumberIn(before.queue, NumbersAfter(latency, d, init, numbers, pushes), latency(before.draws, before.now),
               pushes + |init|)
  }

  /** One strategy callback on the event just delivered. */
  function Called<S>(strategy: Strategy<S>, latency: Latency, d: Desk, state: S, e: Timed,
                     seqNo: nat): (Desk, S, bool) {
    var reply := strategy.onEvent(state, ViewOf(d), e, seqNo);
    var after := PerformAll(latency, d, Allowed(reply.actions));
    (after.(history := after.history.(calls := after.history.calls + [Call(e, seqNo, ViewOf(d), reply.actions)])),
     reply.state, Raises(reply.actions))
  }
}

/**
 The paper trader as a state machine. Two tasks take turns: the feed task handles one message
 at a time, the heartbeat task wakes up now and then. A step is one uninterrupted turn of either.
 The queue of the desk holds only latency-delayed arrivals.
 */
module Paper {
  import opened OrderBook
  import opened Fees
  import opened TradingDesk
  import opened DeskInvariant
  import opened KillSwitches

  datatype PaperSetup<!S> = PaperSetup(category: FeeCategory, latency: Latency, strategy: Strategy<S>, limits: Limits)

  datatype Trader<S> = Trader(desk: Desk, ourIds: set<OrderId>, state: S, switch: Switch, haltLogged: bool,
                              haltRecords: nat, watching: bool, stopping: bool, seqCounter: nat)

  function Fresh<S>(book: Book, state: S): Trader<S> {
    Trader(Opened(book), {}, state, ARMED, false, 0, true, false, 0)
  }

  datatype Input =
    | MarketMessage(event: MarketEvent, receivedS: real, tickedS: real)
    | OtherMessage(receivedS: real)      // another asset, or a message that does not parse
    | WatchdogWakes(nowS: real)
    | StopRequest

  // ---------- bookkeeping of our own ids ----------

  /** Orders that a trade filled completely are dropped from the ids, fill by fill. */
  function DropFilled(ids: set<OrderId>, fills: seq<BookFill>, orders: seq<Resting>): set<OrderId> {
    if fills == [] then ids
    else
      var before, last := DropFilled(ids, fills[..|fills| - 1], orders), fills[|fills| - 1];
      if Tracks(orders, last.id) then before else before - {last.id}
  }

  function IdsAfter(ids: set<OrderId>, before: Core, after: Core, e: Timed): set<OrderId> {
    match e.payload
    case Market(event) =>
      if event.LastTrade?
      then DropFilled(ids, Traded(before.book, event.price, event.size, event.side, event.ts).fills, after.book.orders)
      else ids
    case PlaceArrival(p) =>
      if p.id !in before.pending then ids
      else if Tracks(after.book.orders, p.id) then ids + {p.id} else ids - {p.id}
    case CancelArrival(id) => ids - {id}
  }

  // ---------- draining arrivals ----------

  /** An arrival is handled at the current time when that is already past its own. */
  function Due(d: Desk): Desk
    requires d.queue != []
  {
    var e := d.queue[0];
    d.(queue := [e.(ts := if e.ts > d.now then e.ts else d.now)] + d.queue[1..])
  }

  function DrainOne<S>(category: FeeCategory, t: Trader<S>): Trader<S>
    requires t.desk.queue != []
  {
    var due := Due(t.desk);
    var desk := DeliverHead(category, due);
    t.(desk := desk, ourIds := IdsAfter(t.ourIds, t.desk.core, desk.core, due.queue[0]))
  }

  /** All arrivals that should have landed by `ts`, in order. */
  function Drained<S>(category: FeeCategory, t: Trader<S>, ts: Millis): Trader<S>
    decreases |t.desk.queue|
  {
    if t.desk.queue == [] || t.desk.queue[0].ts > ts then t
    else Drained(category, DrainOne(category, t), ts)
  }

  // ---------- a market event ----------

  /** The event is numbered as it is processed, then applied. */
  function MarketApplied<S>(category: FeeCategory, t: Trader<S>, event: MarketEvent): Trader<S> {
    var desk := Delivered(category, t.desk, OnTape(event));
    t.(desk := desk.(now := if event.ts > t.desk.now then event.ts else t.desk.now),
       ourIds := IdsAfter(t.ourIds, t.desk.core, desk.core, OnTape(event)),
       seqCounter := t.seqCounter + 1)
  }

  function SwitchTicked<S>(limits: Limits, t: Trader<S>, nowS: real): Trader<S>
    requires limits.Valid()
  {
    t.(switch := Ticked(limits, t.switch, nowS, MarkToMid(t.desk.core.account), t.desk.core.account.inventory))
  }

  function WithoutAll(orders: seq<Resting>, ids: set<OrderId>): seq<Resting> {
    if orders == [] then []
    else (if orders[0].id in ids then [] else [orders[0]]) + WithoutAll(orders[1..], ids)
  }

  /** Our orders off the book, nothing pending, nothing under way. */
  function Cleared(d: Desk, ids: set<OrderId>): Desk {
    d.(core := d.core.(book := d.core.book.(orders := WithoutAll(d.core.book.orders, ids)), pending := map[]),
       queue := [],
       history := d.history.(cancelled := d.history.cancelled + (ids + d.core.pending.Keys)))
  }

  /** `_on_halt`: the first time it clears our side of the book and writes the halt record. */
  function Halted<S>(t: Trader<S>): Trader<S> {
    if t.haltLogged then t
    else t.(desk := Cleared(t.desk, t.ourIds), ourIds := {}, haltLogged := true, haltRecords := t.haltRecords + 1)
  }

  function StrategyCalled<S>(setup: PaperSetup<S>, t: Trader<S>, event: MarketEvent, seqNo: nat): Trader<S> {
    var (desk, state, raised) := Called(setup.strategy, setup.latency, t.desk, t.state, OnTape(event), seqNo);
    var actions := Allowed(setup.strategy.onEvent(t.state, ViewOf(t.desk), OnTape(event), seqNo).actions);
    t.(desk := desk, state := state, seqCounter := t.seqCounter + |actions|)
  }

  function EventProcessed<S>(setup: PaperSetup<S>, t: Trader<S>, event: MarketEvent, nowS: real): Trader<S>
    requires setup.limits.Valid()
  {
    var drained := Drained(setup.category, t, event.ts);
    var ticked := SwitchTicked(setup.limits, MarketApplied(setup.category, drained, event), nowS);
    if ticked.switch.halted then Halted(ticked) else StrategyCalled(setup, ticked, event, drained.seqCounter)
  }

  function WokenUp<S>(limits: Limits, t: Trader<S>, nowS: real): Trader<S> {
    if !t.watching then t
    else
      var checked := t.(switch := HeartbeatChecked(limits, t.switch, nowS));
      if checked.switch.halted then Halted(checked).(watching := false)
      else checked.(watching := !t.stopping)
  }

  function Handle<S>(setup: PaperSetup<S>, t: Trader<S>, input: Input): Trader<S>
    requires setup.limits.Valid()
  {
    match input
    case MarketMessage(event, receivedS, tickedS) =>
      EventProcessed(setup, t.(switch := MessageNoted(t.switch, receivedS)), event, tickedS)
    case OtherMessage(receivedS) => t.(switch := MessageNoted(t.switch, receivedS))
    case WatchdogWakes(nowS) => WokenUp(setup.limits, t, nowS)
    case StopRequest => t.(stopping := true)
  }

  function After<S>(setup: PaperSetup<S>, t: Trader<S>, inputs: seq<Input>): Trader<S>
    requires setup.limits.Valid()
  {
    if inputs == [] then t else Handle(setup, After(setup, t, inputs[..|inputs| - 1]), inputs[|inputs| - 1])
  }
}

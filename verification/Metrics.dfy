/** Cash and inventory recomputed from a list of fills: the specification of the running totals. */
module Metrics {
  import opened TradingDesk

  function CashDelta(f: Fill): real {
    (if f.side.Bid? then -1.0 else 1.0) * f.price * f.size + f.rebateReceived - f.feePaid
  }

  function InventoryDelta(f: Fill): real {
    (if f.side.Bid? then 1.0 else -1.0) * f.size
  }

  function CashOf(fills: seq<Fill>): real {
    if fills == [] then 0.0 else CashOf(fills[..|fills| - 1]) + CashDelta(fills[|fills| - 1])
  }

  function InventoryOf(fills: seq<Fill>): real {
    if fills == [] then 0.0 else InventoryOf(fills[..|fills| - 1]) + InventoryDelta(fills[|fills| - 1])
  }

  function FeesOf(fills: seq<Fill>): real {
    if fills == [] then 0.0 else FeesOf(fills[..|fills| - 1]) + fills[|fills| - 1].feePaid
  }

  function RebatesOf(fills: seq<Fill>): real {
    if fills == [] then 0.0 else RebatesOf(fills[..|fills| - 1]) + fills[|fills| - 1].rebateReceived
  }

  method RealisedCash(fills: seq<Fill>) returns (cash: real)
    ensures cash == CashOf(fills)
  {
    cash := 0.0;
    for i := 0 to |fills|
      invariant cash == CashOf(fills[..i])
    {
      var f := fills[i];
      var sign := if f.side.Bid? then -1.0 else 1.0;
      assert fills[..i + 1][..i] == fills[..i];
      cash := cash + sign * f.price * f.size;
      cash := cash + f.rebateReceived;
      cash := cash - f.feePaid;
    }
    assert fills[..|fills|] == fills;
  }

  method InventoryFromFills(fills: seq<Fill>) returns (net: real)
    ensures net == InventoryOf(fills)
  {
    net := 0.0;
    for i := 0 to |fills|
      invariant net == InventoryOf(fills[..i])
    {
      var f := fills[i];
      var sign := if f.side.Bid? then 1.0 else -1.0;
      assert fills[..i + 1][..i] == fills[..i];
      net := net + sign * f.size;
    }
    assert fills[..|fills|] == fills;
  }
}

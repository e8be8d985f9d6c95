/**
 Volume-bucketed VPIN. A trade fills the current bucket; while it holds at least one bucket's
 volume, a bucket is closed and the excess is carried over in proportion. A closed bucket records
 the whole volume present before the carry, not one bucket's volume.
 */
module Vpin {
  import opened Prelude

  datatype Bucket = Bucket(buy: real, sell: real, price: real) {
    function Volume(): real { buy + sell }
  }

  // ---------- what one trade closes ----------

  /** How many whole buckets fit. */
  function Whole(total: real, size: real): nat
    requires total >= 0.0 && size > 0.0
  {
    QuotientNotNegative(total, size);
    (total / size).Floor
  }

  lemma QuotientNotNegative(total: real, size: real)
    requires total >= 0.0 && size > 0.0
    ensures total / size >= 0.0
  {
  }

  function SellShare(buy: real, sell: real): real {
    if buy + sell > 0.0 then sell / (buy + sell) else 0.5
  }

  /** The volume `total` split in the given proportion. */
  function Portion(total: real, share: real, price: real): Bucket {
    Bucket(total * (1.0 - share), total * share, price)
  }

  /** The buckets closed by a current volume of `total`: what is present shrinks by one bucket each time. */
  function Closed(total: real, size: real, share: real, price: real, n: nat): (r: seq<Bucket>)
    ensures |r| == n
  {
    seq(n, j requires 0 <= j < n => Portion(total - Times(j, size), share, price))
  }

  lemma ClosedNext(total: real, size: real, share: real, price: real, n: nat)
    ensures Closed(total, size, share, price, n + 1)
            == Closed(total, size, share, price, n) + [Portion(total - Times(n, size), share, price)]
  {
  }

  /** The trailing `n` elements. */
  function Trailing<T>(s: seq<T>, n: nat): (r: seq<T>)
    ensures |r| == if |s| <= n then |s| else n
    ensures forall i :: 0 <= i < |r| ==> r[i] == s[|s| - |r| + i]
  {
    if |s| <= n then s else s[|s| - n..]
  }

  lemma TrailingNext<T>(s: seq<T>, x: T, n: nat)
    requires n > 0
    ensures Trailing(s + [x], n) == if |Trailing(s, n)| + 1 > n then Trailing(s, n)[1..] + [x] else Trailing(s, n) + [x]
  {
    if |s| == n {
      assert Trailing(s, n) == s && Trailing(s + [x], n) == (s + [x])[1..] == s[1..] + [x];
    } else if |s| > n {
      var from := |s| - n;
      assert Trailing(s + [x], n) == (s + [x])[from + 1..] == s[from + 1..] + [x];
      assert s[from..][1..] == s[from + 1..];
    }
  }

  /** The volume of `k` buckets. */
  function Times(k: nat, size: real): real {
    k as real * size
  }

  lemma OneMore(k: nat, size: real)
    ensures Times(0, size) == 0.0
    ensures Times(k + 1, size) == Times(k, size) + size
  {
  }

  lemma {:induction false} MoreBuckets(a: nat, b: nat, size: real)
    requires size > 0.0 && a <= b
    ensures Times(a, size) <= Times(b, size)
    ensures a < b ==> Times(a, size) < Times(b, size)
    decreases b
  {
    hide Times;
    if a < b {
      OneMore(b - 1, size);
      MoreBuckets(a, b - 1, size);
    }
  }

  lemma ScaleBack(total: real, size: real)
    requires size > 0.0
    ensures (total / size) * size == total
  {
  }

  lemma Scaled(a: real, b: real, size: real)
    requires size > 0.0 && a <= b
    ensures a * size <= b * size
    ensures a < b ==> a * size < b * size
  {
    assert (b - a) * size >= 0.0;
    if a < b { assert (b - a) * size > 0.0; }
  }

  lemma WholeBounds(total: real, size: real)
    requires size > 0.0 && total >= 0.0
    ensures Times(Whole(total, size), size) <= total < Times(Whole(total, size) + 1, size)
  {
    var q, n := total / size, Whole(total, size);
    ScaleBack(total, size);
    Scaled(n as real, q, size);
    assert q < (n + 1) as real;
    Scaled(q, (n + 1) as real, size);
    var upper := (n + 1) as real * size;
    assert total < upper;
    assert Times(n + 1, size) == upper;
  }

  lemma WholeIs(total: real, size: real, k: nat)
    requires size > 0.0 && total >= 0.0 && Times(k, size) <= total < Times(k + 1, size)
    ensures Whole(total, size) == k
  {
    hide Times, Whole;
    var n := Whole(total, size);
    WholeBounds(total, size);
    if n < k { MoreBuckets(n + 1, k, size); }
    if k < n { MoreBuckets(k + 1, n, size); }
  }

  /** While a bucket's volume is present there is another bucket to close; otherwise all are closed. */
  lemma ClosingLoop(total: real, size: real, k: nat)
    requires size > 0.0 && total >= 0.0 && total - Times(k, size) >= 0.0
    ensures total - Times(k, size) >= size ==> k < Whole(total, size)
    ensures total - Times(k, size) < size ==> k == Whole(total, size)
  {
    hide Times, Whole;
    var n := Whole(total, size);
    OneMore(k, size);
    WholeBounds(total, size);
    if total - Times(k, size) >= size {
      if n <= k { MoreBuckets(n + 1, k + 1, size); }
    } else {
      WholeIs(total, size, k);
    }
  }

  /** Every bucket holds at least one bucket's volume. */
  ghost predicate AllFull(buckets: seq<Bucket>, size: real) {
    forall i :: 0 <= i < |buckets| ==> buckets[i].buy >= 0.0 && buckets[i].sell >= 0.0 && buckets[i].Volume() >= size
  }

  lemma AllFullNext(buckets: seq<Bucket>, b: Bucket, size: real)
    requires AllFull(buckets, size) && b.buy >= 0.0 && b.sell >= 0.0 && b.Volume() >= size
    ensures AllFull(buckets + [b], size)
  {
  }

  /** A current bucket holding the given sell share. */
  ghost predicate Shared(buy: real, sell: real, share: real) {
    buy >= 0.0 && sell >= 0.0 && buy == (buy + sell) * (1.0 - share) && sell == (buy + sell) * share
  }

  lemma SharedMeans(buy: real, sell: real, share: real, price: real)
    requires Shared(buy, sell, share)
    ensures Bucket(buy, sell, price) == Portion(buy + sell, share, price)
    ensures buy >= 0.0 && sell >= 0.0 && sell == (buy + sell) * share
  {
  }

  /** The mean price of the trades in the current bucket. */
  function Mean(priceSum: real, n: nat): real {
    priceSum / (if n > 1 then n else 1) as real
  }

  /** The price of a bucket is the average of the prices added up for it. */
  lemma MeanIs(priceSum: real, n: nat)
    requires n > 0
    ensures Mean(priceSum, n) * n as real == priceSum
  {
    ScaleBack(priceSum, n as real);
  }

  lemma MeanOfOne(price: real)
    ensures Mean(price, 1) == price
  {
  }

  class VPINCalculator {
    const bucketVolume: real
    const nBuckets: nat
    var buckets: seq<Bucket>
    var curBuy: real
    var curSell: real
    var curPriceSum: real
    var curN: nat

    /** Every bucket ever closed, and all volume ever added. */
    ghost var everClosed: seq<Bucket>
    ghost var volume: real

    ghost predicate Valid()
      reads this
    {
      && bucketVolume > 0.0 && nBuckets > 0
      && curBuy >= 0.0 && curSell >= 0.0 && curBuy + curSell < bucketVolume
      && buckets == Trailing(everClosed, nBuckets)
      && volume == Times(|everClosed|, bucketVolume) + (curBuy + curSell)
      && AllFull(everClosed, bucketVolume)
    }

    constructor (bucketVolume: real, nBuckets: nat)
      requires bucketVolume > 0.0 && nBuckets > 0
      ensures Valid() && everClosed == [] && volume == 0.0
      ensures this.bucketVolume == bucketVolume && this.nBuckets == nBuckets
    {
      this.bucketVolume, this.nBuckets := bucketVolume, nBuckets;
      buckets, curBuy, curSell, curPriceSum, curN := [], 0.0, 0.0, 0.0, 0;
      everClosed, volume := [], 0.0;
    }

    static method Create(bucketVolume: real, nBuckets: int) returns (r: Option<VPINCalculator>)
      ensures r.Some? <==> bucketVolume > 0.0 && nBuckets > 0
      ensures r.Some? ==> fresh(r.value) && r.value.Valid() && r.value.everClosed == [] && r.value.volume == 0.0
      ensures r.Some? ==> r.value.bucketVolume == bucketVolume && r.value.nBuckets == nBuckets
    {
      if bucketVolume <= 0.0 || nBuckets <= 0 { return None; }
      var v := new VPINCalculator(bucketVolume, nBuckets);
      return Some(v);
    }

    /**
     The buckets a trade closes, in one formula: as many as fit in the volume then present, all with
     one sell share and one mean price, each recording all that was still present.
     */
    method AddTrade(volume: real, isBuy: bool, price: real)
      requires Valid()
      modifies this
      ensures Valid()
      ensures this.volume == old(this.volume) + (if volume > 0.0 then volume else 0.0)
      ensures volume <= 0.0 ==>
                everClosed == old(everClosed) && curBuy == old(curBuy) && curSell == old(curSell)
                && curPriceSum == old(curPriceSum) && curN == old(curN)
      ensures volume > 0.0 ==>
                var buy := old(curBuy) + (if isBuy then volume else 0.0);
                var sell := old(curSell) + (if isBuy then 0.0 else volume);
                var mean := Mean(old(curPriceSum) + price, old(curN) + 1);
                var n := Whole(buy + sell, bucketVolume);
                && everClosed == old(everClosed) + Closed(buy + sell, bucketVolume, SellShare(buy, sell), mean, n)
                && curBuy + curSell == buy + sell - Times(n, bucketVolume)
                && curSell == (curBuy + curSell) * SellShare(buy, sell)
                && (n == 0 ==> curPriceSum == old(curPriceSum) + price && curN == old(curN) + 1)
                && (n > 0 && curBuy + curSell > 0.0 ==> curPriceSum == mean && curN == 1)
                && (n > 0 && curBuy + curSell == 0.0 ==> curPriceSum == 0.0 && curN == 0)
    {
      hide Whole, Closed, SellShare, Trailing, Times, Mean, AllFull;
      if volume <= 0.0 { return; }
      if isBuy {
        curBuy := curBuy + volume;
      } else {
        curSell := curSell + volume;
      }
      curPriceSum := curPriceSum + price;
      curN := curN + 1;
      this.volume := this.volume + volume;
      Drain();
    }

    /** The closing loop. */
    method Drain()
      requires bucketVolume > 0.0 && nBuckets > 0 && buckets == Trailing(everClosed, nBuckets)
      requires AllFull(everClosed, bucketVolume)
      requires curBuy >= 0.0 && curSell >= 0.0 && curBuy + curSell > 0.0 && curN > 0
      requires volume == Times(|everClosed|, bucketVolume) + (curBuy + curSell)
      modifies this
      ensures Valid() && volume == old(volume)
      ensures var buy, sell := old(curBuy), old(curSell);
              var n := Whole(buy + sell, bucketVolume);
              && everClosed == old(everClosed)
                               + Closed(buy + sell, bucketVolume, SellShare(buy, sell),
                                        Mean(old(curPriceSum), old(curN)), n)
              && curBuy + curSell == buy + sell - Times(n, bucketVolume)
              && curSell == (curBuy + curSell) * SellShare(buy, sell)
              && (n == 0 ==> curPriceSum == old(curPriceSum) && curN == old(curN))
              && (n > 0 && curBuy + curSell > 0.0 ==> curPriceSum == Mean(old(curPriceSum), old(curN)) && curN == 1)
              && (n > 0 && curBuy + curSell == 0.0 ==> curPriceSum == 0.0 && curN == 0)
    {
      hide Whole, Closed, SellShare, Trailing, Times, Mean, Shared, Portion, AllFull;
      ghost var share, mean, total := SellShare(curBuy, curSell), Mean(curPriceSum, curN), curBuy + curSell;
      ghost var k, before := 0, everClosed;
      ShareInUnit(curBuy, curSell);
      MeanOfOne(mean);
      NoneClosed(total, bucketVolume, share, mean);
      while curBuy + curSell >= bucketVolume
        invariant bucketVolume > 0.0 && nBuckets > 0 && buckets == Trailing(everClosed, nBuckets)
        invariant AllFull(everClosed, bucketVolume)
        invariant volume == Times(|everClosed|, bucketVolume) + (curBuy + curSell) == old(volume)
        invariant curBuy + curSell == total - Times(k, bucketVolume)
        invariant Shared(curBuy, curSell, share) && curBuy >= 0.0 && curSell >= 0.0
        invariant k == 0 ==> curPriceSum == old(curPriceSum) && curN == old(curN)
        invariant k > 0 && curBuy + curSell > 0.0 ==> curPriceSum == mean && curN == 1
        invariant k > 0 && curBuy + curSell == 0.0 ==> curPriceSum == 0.0 && curN == 0
        invariant everClosed == before + Closed(total, bucketVolume, share, mean, k)
        decreases Whole(total, bucketVolume) - k
      {
        ClosingLoop(total, bucketVolume, k);
        SharedMeans(curBuy, curSell, share, mean);
        var pMean := Mean(curPriceSum, curN);
        AllFullNext(everClosed, Bucket(curBuy, curSell, pMean), bucketVolume);
        CloseBucket(pMean);
        AnotherClosed(before, total, bucketVolume, share, mean, k);
        CarryExcess(pMean, share);
        OneMore(k, bucketVolume);
        k := k + 1;
      }
      ClosingLoop(total, bucketVolume, k);
      SharedMeans(curBuy, curSell, share, mean);
    }

    /** Carries what exceeds the bucket over in proportion; a bucket drained exactly starts afresh. */
    method CarryExcess(pMean: real, ghost share: real)
      requires Shared(curBuy, curSell, share) && curBuy + curSell >= bucketVolume > 0.0 && 0.0 <= share <= 1.0
      modifies `curBuy, `curSell, `curPriceSum, `curN
      ensures curBuy + curSell == old(curBuy + curSell) - bucketVolume && Shared(curBuy, curSell, share)
      ensures if curBuy + curSell > 0.0 then curPriceSum == pMean && curN == 1 else curPriceSum == 0.0 && curN == 0
    {
      var excess := curBuy + curSell - bucketVolume;
      var totalNow := curBuy + curSell;
      var sellFrac := if totalNow > 0.0 then curSell / totalNow else 0.5;
      ShareKept(totalNow, share, curSell);
      Split(excess, share);
      curSell := excess * sellFrac;
      curBuy := excess * (1.0 - sellFrac);
      if excess > 0.0 {
        curPriceSum, curN := pMean, 1;
      } else {
        curPriceSum, curN := 0.0, 0;
      }
    }

    /** Appends the current bucket and evicts the oldest when there are too many. */
    method CloseBucket(pMean: real)
      requires nBuckets > 0 && buckets == Trailing(everClosed, nBuckets)
      modifies `buckets, `everClosed
      ensures everClosed == old(everClosed) + [Bucket(curBuy, curSell, pMean)]
              && buckets == Trailing(everClosed, nBuckets)
      ensures Times(|everClosed|, bucketVolume) == Times(old(|everClosed|), bucketVolume) + bucketVolume
    {
      TrailingNext(everClosed, Bucket(curBuy, curSell, pMean), nBuckets);
      OneMore(|everClosed|, bucketVolume);
      buckets := buckets + [Bucket(curBuy, curSell, pMean)];
      everClosed := everClosed + [Bucket(curBuy, curSell, pMean)];
      if |buckets| > nBuckets { buckets := buckets[1..]; }
    }
  }

  lemma AnotherClosed(before: seq<Bucket>, total: real, size: real, share: real, price: real, k: nat)
    ensures before + Closed(total, size, share, price, k + 1)
            == (before + Closed(total, size, share, price, k)) + [Portion(total - Times(k, size), share, price)]
  {
    ClosedNext(total, size, share, price, k);
  }

  lemma NoneClosed(total: real, size: real, share: real, price: real)
    ensures Closed(total, size, share, price, 0) == []
    ensures total - Times(0, size) == total
  {
  }

  lemma ShareInUnit(buy: real, sell: real)
    requires buy >= 0.0 && sell >= 0.0 && buy + sell > 0.0
    ensures 0.0 <= SellShare(buy, sell) <= 1.0
    ensures sell == (buy + sell) * SellShare(buy, sell) && buy == (buy + sell) * (1.0 - SellShare(buy, sell))
    ensures Shared(buy, sell, SellShare(buy, sell))
  {
    var total, share := buy + sell, sell / (buy + sell);
    assert total * share == sell;
    assert total * (1.0 - share) == total - total * share;
    if share > 1.0 { Scaled(1.0, share, total); }
  }

  lemma ShareKept(total: real, share: real, sell: real)
    requires total > 0.0 && sell == total * share
    ensures sell / total == share
  {
  }

  lemma Split(excess: real, share: real)
    requires excess >= 0.0 && 0.0 <= share <= 1.0
    ensures excess * (1.0 - share) + excess * share == excess
    ensures excess * (1.0 - share) >= 0.0 && excess * share >= 0.0
  {
  }

  /** How many buckets were ever closed depends on the volume alone, however it was cut into trades. */
  lemma ClosedCountIsWhole(v: VPINCalculator)
    requires v.Valid()
    ensures v.volume >= 0.0 && |v.everClosed| == Whole(v.volume, v.bucketVolume)
    ensures |v.buckets| == if |v.everClosed| <= v.nBuckets then |v.everClosed| else v.nBuckets
    ensures 0.0 <= v.volume - Times(|v.everClosed|, v.bucketVolume) < v.bucketVolume
  {
    hide Whole, Times, Trailing;
    MoreBuckets(0, |v.everClosed|, v.bucketVolume);
    OneMore(|v.everClosed|, v.bucketVolume);
    WholeIs(v.volume, v.bucketVolume, |v.everClosed|);
  }

  // ---------- what a closed bucket records ----------

  lemma PortionVolume(total: real, share: real, price: real)
    ensures Portion(total, share, price).Volume() == total
  {
    assert total * (1.0 - share) + total * share == total;
  }

  /**
   A closed bucket records one bucket's volume only when it is the last one of its trade and nothing
   is left over; every other one records more.
   */
  lemma RecordsOneBucketIff(total: real, size: real, share: real, price: real, j: nat)
    requires size > 0.0 && total >= 0.0 && j < Whole(total, size)
    ensures var closed := Closed(total, size, share, price, Whole(total, size));
            && |closed| == Whole(total, size) && closed[j].Volume() >= size
            && (closed[j].Volume() == size <==> j == Whole(total, size) - 1 && total == Times(Whole(total, size), size))
  {
    hide Whole, Times;
    var n := Whole(total, size);
    PortionVolume(total - Times(j, size), share, price);
    WholeBounds(total, size);
    OneMore(j, size);
    MoreBuckets(j + 1, n, size);
  }

  // ---------- why the value does not suffer ----------

  function Clamped(p: real): (c: real)
    ensures 0.000001 <= c <= 0.999999
  {
    Max(0.000001, Min(1.0 - 0.000001, p))
  }

  function Spread(sqrt: real -> real, price: real): real {
    var p := Clamped(price);
    sqrt(p * (1.0 - p))
  }

  function Term(sqrt: real -> real, b: Bucket): real {
    var denom := Spread(sqrt, b.price) * (b.buy + b.sell);
    if denom > 0.0 then Abs(b.buy - b.sell) / denom else 0.0
  }

  function Terms(sqrt: real -> real, buckets: seq<Bucket>): real {
    if buckets == [] then 0.0 else Terms(sqrt, buckets[..|buckets| - 1]) + Term(sqrt, buckets[|buckets| - 1])
  }

  ghost predicate IsRoot(sqrt: real -> real) {
    forall x :: x > 0.0 ==> sqrt(x) > 0.0
  }

  /** The mean term over the kept buckets; 0 before the first bucket closes. */
  method Value(sqrt: real -> real, buckets: seq<Bucket>) returns (r: real)
    ensures buckets == [] ==> r == 0.0
    ensures buckets != [] ==> r * |buckets| as real == Terms(sqrt, buckets)
  {
    hide Spread, Terms, Abs;
    if buckets == [] { return 0.0; }
    var total := 0.0;
    NoTerms(sqrt);
    for i := 0 to |buckets|
      invariant total == Terms(sqrt, buckets[..i])
    {
      var b := buckets[i];
      LastTerm(sqrt, buckets[..i], b);
      assert buckets[..i + 1] == buckets[..i] + [b];
      var denom := Spread(sqrt, b.price) * (b.buy + b.sell);
      if denom > 0.0 { total := total + Abs(b.buy - b.sell) / denom; }
    }
    assert buckets[..|buckets|] == buckets;
    ScaleBack(total, |buckets| as real);
    return total / |buckets| as real;
  }

  /**
   The term of a bucket with volume: its imbalance over its volume and the standard deviation of a
   payoff at its price, kept a millionth away from 0 and 1.
   */
  lemma TermIs(sqrt: real -> real, b: Bucket, p: real)
    requires IsRoot(sqrt) && b.buy + b.sell > 0.0
    requires p == if b.price < 0.000001 then 0.000001 else if b.price > 0.999999 then 0.999999 else b.price
    ensures sqrt(p * (1.0 - p)) > 0.0
    ensures Term(sqrt, b) * (sqrt(p * (1.0 - p)) * (b.buy + b.sell))
            == if b.buy > b.sell then b.buy - b.sell else b.sell - b.buy
  {
    SpreadPositive(sqrt, b.price);
    ClampedIs(b.price);
    assert Spread(sqrt, b.price) == sqrt(p * (1.0 - p));
    TermOfSpread(sqrt, b);
    hide Spread, Term;
  }

  lemma TermOfSpread(sqrt: real -> real, b: Bucket)
    requires Spread(sqrt, b.price) > 0.0 && b.buy + b.sell > 0.0
    ensures Term(sqrt, b) * (Spread(sqrt, b.price) * (b.buy + b.sell)) == Abs(b.buy - b.sell)
  {
    var s, v, x := Spread(sqrt, b.price), b.buy + b.sell, Abs(b.buy - b.sell);
    hide Spread, Abs;
    PositiveProduct(s, v);
    ScaleBack(x, s * v);
  }

  lemma PositiveProduct(a: real, b: real)
    requires a > 0.0 && b > 0.0
    ensures a * b > 0.0
  {
  }

  lemma ClampedIs(price: real)
    ensures Clamped(price) == if price < 0.000001 then 0.000001 else if price > 0.999999 then 0.999999 else price
  {
  }

  /** A bucket without volume has no term. */
  lemma NoVolumeNoTerm(sqrt: real -> real, b: Bucket)
    requires b.buy + b.sell == 0.0
    ensures Term(sqrt, b) == 0.0
  {
  }

  /** A bucket's term depends on its share and price, not on the volume it records. */
  lemma TermScaleFree(sqrt: real -> real, a: real, b: real, share: real, price: real)
    requires IsRoot(sqrt) && a > 0.0 && b > 0.0
    ensures Term(sqrt, Portion(a, share, price)) == Term(sqrt, Portion(b, share, price))
  {
    TermOfShare(sqrt, a, share, price);
    TermOfShare(sqrt, b, share, price);
  }

  lemma TermOfShare(sqrt: real -> real, total: real, share: real, price: real)
    requires IsRoot(sqrt) && total > 0.0
    ensures Spread(sqrt, price) > 0.0
    ensures Term(sqrt, Portion(total, share, price)) == Abs(1.0 - 2.0 * share) / Spread(sqrt, price)
  {
    hide Spread, Abs;
    var b, s, x := Portion(total, share, price), Spread(sqrt, price), 1.0 - 2.0 * share;
    SpreadPositive(sqrt, price);
    PortionVolume(total, share, price);
    assert b.buy - b.sell == total * x;
    AbsScaled(total, x);
    Cancel(Abs(x), total, s);
  }

  lemma SpreadPositive(sqrt: real -> real, price: real)
    requires IsRoot(sqrt)
    ensures Spread(sqrt, price) > 0.0
  {
    var p := Clamped(price);
    assert p * (1.0 - p) > 0.0;
  }

  lemma AbsScaled(k: real, x: real)
    requires k > 0.0
    ensures Abs(k * x) == k * Abs(x)
  {
  }

  lemma Cancel(x: real, k: real, s: real)
    requires k > 0.0 && s > 0.0
    ensures s * k > 0.0 && (k * x) / (s * k) == x / s
  {
    var q := x / s;
    assert q * s == x;
    assert k * x == q * (s * k);
  }

  /** The buckets one trade closes all have the term of a bucket of exactly one bucket's volume. */
  lemma {:induction false} TradeTermsAreEqual(sqrt: real -> real, total: real, size: real, share: real, price: real,
                                              n: nat)
    requires IsRoot(sqrt) && size > 0.0 && total >= Times(n, size)
    ensures Terms(sqrt, Closed(total, size, share, price, n)) == Times(n, Term(sqrt, Portion(size, share, price)))
  {
    hide Closed, Term, Times, Terms;
    if n == 0 {
      NoneClosed(total, size, share, price);
      OneMore(0, Term(sqrt, Portion(size, share, price)));
      NoTerms(sqrt);
    } else {
      ClosedNext(total, size, share, price, n - 1);
      OneMore(n - 1, size);
      TradeTermsAreEqual(sqrt, total, size, share, price, n - 1);
      MoreBuckets(n - 1, n, size);
      TermScaleFree(sqrt, total - Times(n - 1, size), size, share, price);
      OneMore(n - 1, Term(sqrt, Portion(size, share, price)));
      LastTerm(sqrt, Closed(total, size, share, price, n - 1), Portion(total - Times(n - 1, size), share, price));
    }
  }

  lemma NoTerms(sqrt: real -> real)
    ensures Terms(sqrt, []) == 0.0
  {
  }

  lemma LastTerm(sqrt: real -> real, buckets: seq<Bucket>, b: Bucket)
    ensures Terms(sqrt, buckets + [b]) == Terms(sqrt, buckets) + Term(sqrt, b)
  {
    assert (buckets + [b])[..|buckets|] == buckets;
  }

  /** The same bucket, recording exactly one bucket's volume. */
  function Normalised(b: Bucket, size: real): Bucket {
    Portion(size, SellShare(b.buy, b.sell), b.price)
  }

  function AllNormalised(buckets: seq<Bucket>, size: real): seq<Bucket> {
    seq(|buckets|, i requires 0 <= i < |buckets| => Normalised(buckets[i], size))
  }

  lemma NormalisedTerm(sqrt: real -> real, b: Bucket, size: real)
    requires IsRoot(sqrt) && size > 0.0 && b.buy >= 0.0 && b.sell >= 0.0 && b.Volume() >= size
    ensures Term(sqrt, b) == Term(sqrt, Normalised(b, size))
  {
    ShareInUnit(b.buy, b.sell);
    SharedMeans(b.buy, b.sell, SellShare(b.buy, b.sell), b.price);
    TermScaleFree(sqrt, b.buy + b.sell, size, SellShare(b.buy, b.sell), b.price);
  }

  lemma {:induction false} NormalisedTerms(sqrt: real -> real, buckets: seq<Bucket>, size: real)
    requires IsRoot(sqrt) && size > 0.0 && AllFull(buckets, size)
    ensures Terms(sqrt, buckets) == Terms(sqrt, AllNormalised(buckets, size))
  {
    hide Term, Normalised, SellShare;
    if buckets != [] {
      var init, b := buckets[..|buckets| - 1], buckets[|buckets| - 1];
      NormalisedTerms(sqrt, init, size);
      NormalisedTerm(sqrt, b, size);
      assert AllNormalised(buckets, size) == AllNormalised(init, size) + [Normalised(b, size)];
      LastTerm(sqrt, AllNormalised(init, size), Normalised(b, size));
    }
  }

  /**
   The value over the kept buckets, closed by whatever trades, is what it would be had each of them
   recorded exactly one bucket's volume in its own proportion.
   */
  lemma OverstatementCancels(sqrt: real -> real, v: VPINCalculator)
    requires IsRoot(sqrt) && v.Valid()
    ensures Terms(sqrt, v.buckets) == Terms(sqrt, AllNormalised(v.buckets, v.bucketVolume))
  {
    NormalisedTerms(sqrt, v.buckets, v.bucketVolume);
  }
}

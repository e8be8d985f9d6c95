/** Polymarket fee categories: taker fee and maker rebate per fill. */
module Fees {
  import opened Prelude

  datatype FeeCategory =
    | Crypto | Economics | Mentions | Culture | Weather | Finance
    | Politics | Tech | Sports | Geopolitics | Other
  {
    function PeakRate(): real {
      match this
      case Crypto => 0.018
      case Economics => 0.015
      case Mentions => 0.0156
      case Culture => 0.0125
      case Weather => 0.0125
      case Finance => 0.01
      case Politics => 0.01
      case Tech => 0.01
      case Sports => 0.0075
      case Geopolitics => 0.0
      case Other => 0.0
    }

    function RebateShare(): real {
      match this
      case Finance => 0.5
      case Crypto => 0.2
      case Geopolitics => 0.0
      case Other => 0.0
      case _ => 0.25
    }
  }

  function TakerFee(price: real, size: real, category: FeeCategory): real {
    if category.PeakRate() == 0.0 then 0.0
    else
      var p := Max(0.0, Min(1.0, price));
      category.PeakRate() * size * p * (1.0 - p) * 4.0
  }

  function MakerRebate(price: real, size: real, category: FeeCategory): real {
    TakerFee(price, size, category) * category.RebateShare()
  }

  /** The height of the fee parabola: 1 at one half, 0 at 0, at 1 and beyond. */
  function Curve(price: real): real {
    if 0.0 < price < 1.0 then 4.0 * (price * (1.0 - price)) else 0.0
  }

  lemma CurveInUnit(price: real)
    ensures 0.0 <= Curve(price) <= 1.0 && Curve(1.0 - price) == Curve(price) && Curve(0.5) == 1.0
  {
    assert (price - 0.5) * (price - 0.5) >= 0.0;
    if 0.0 < price < 1.0 { assert price * (1.0 - price) >= 0.0; }
  }

  lemma FeeIs(price: real, size: real, category: FeeCategory)
    ensures TakerFee(price, size, category) == category.PeakRate() * size * Curve(price)
  {
    var a, p := category.PeakRate() * size, Max(0.0, Min(1.0, price));
    Regrouped(a, p, 1.0 - p);
    if category.PeakRate() == 0.0 { assert 0.0 * size * Curve(price) == 0.0; }
  }

  lemma Regrouped(a: real, b: real, c: real)
    ensures a * b * c * 4.0 == a * (4.0 * (b * c))
  {
    assert a * b * c == a * (b * c);
  }

  /**
   The fee is a parabola in the price: symmetric about one half, where it peaks, and zero at 0, at 1
   and beyond.
   */
  lemma FeeIsParabola(price: real, size: real, category: FeeCategory)
    ensures 0.0 < price < 1.0 ==>
              TakerFee(price, size, category) == TakerFee(0.5, size, category) * (4.0 * (price * (1.0 - price)))
    ensures price <= 0.0 || price >= 1.0 ==> TakerFee(price, size, category) == 0.0
    ensures TakerFee(1.0 - price, size, category) == TakerFee(price, size, category)
  {
    hide TakerFee;
    FeeIs(price, size, category);
    FeeIs(1.0 - price, size, category);
    FeeIs(0.5, size, category);
    CurveInUnit(price);
  }

  lemma PeakFee(size: real, category: FeeCategory)
    ensures TakerFee(0.5, size, category) == category.PeakRate() * size
  {
    hide TakerFee;
    FeeIs(0.5, size, category);
    CurveInUnit(0.5);
    var fee := category.PeakRate() * size;
    assert fee * Curve(0.5) == fee * 1.0;
  }

  lemma AtHalf(category: FeeCategory)
    ensures TakerFee(0.5, 100.0, category) == category.PeakRate() * 100.0
    ensures MakerRebate(0.5, 100.0, category) == category.PeakRate() * 100.0 * category.RebateShare()
  {
    PeakFee(100.0, category);
  }

  /** Dollars per 100 contracts at the peak: taker fee and maker rebate of every category. */
  function Table(category: FeeCategory): (real, real) {
    match category
    case Crypto => (1.8, 0.36)
    case Economics => (1.5, 0.375)
    case Mentions => (1.56, 0.39)
    case Culture => (1.25, 0.3125)
    case Weather => (1.25, 0.3125)
    case Finance => (1.0, 0.5)
    case Politics => (1.0, 0.25)
    case Tech => (1.0, 0.25)
    case Sports => (0.75, 0.1875)
    case Geopolitics => (0.0, 0.0)
    case Other => (0.0, 0.0)
  }

  lemma FeesAreTable(category: FeeCategory)
    ensures (TakerFee(0.5, 100.0, category), MakerRebate(0.5, 100.0, category)) == Table(category)
  {
    AtHalf(category);
    hide TakerFee, MakerRebate;
  }

  /** Fee and rebate are proportional to the size. */
  lemma FeeScales(price: real, size: real, category: FeeCategory)
    ensures TakerFee(price, size, category) * 100.0 == TakerFee(price, 100.0, category) * size
    ensures MakerRebate(price, size, category) * 100.0 == MakerRebate(price, 100.0, category) * size
  {
    FeeIs(price, size, category);
    FeeIs(price, 100.0, category);
    hide TakerFee, Curve;
    Swapped(category.PeakRate(), size, Curve(price), category.RebateShare());
  }

  lemma Swapped(rate: real, size: real, curve: real, share: real)
    ensures rate * size * curve * 100.0 == rate * 100.0 * curve * size
    ensures rate * size * curve * share * 100.0 == rate * 100.0 * curve * share * size
  {
    assert rate * size * curve == rate * curve * size;
    assert rate * curve * size * share == rate * curve * share * size;
  }

  /** The rebate is never more than the fee, and the fee never more than at one half. */
  lemma FeesAreOrdered(price: real, size: real, category: FeeCategory)
    requires size >= 0.0
    ensures 0.0 <= MakerRebate(price, size, category) <= TakerFee(price, size, category)
    ensures TakerFee(price, size, category) <= TakerFee(0.5, size, category)
  {
    FeeIs(price, size, category);
    PeakFee(size, category);
    CurveInUnit(price);
    var peak := category.PeakRate() * size;
    assert TakerFee(0.5, size, category) == peak && TakerFee(price, size, category) == peak * Curve(price);
    hide TakerFee, Curve;
    Bounded(peak, Curve(price), category.RebateShare());
    assert TakerFee(price, size, category) <= peak;
  }

  lemma Bounded(full: real, curve: real, share: real)
    requires full >= 0.0 && 0.0 <= curve <= 1.0 && 0.0 <= share <= 1.0
    ensures 0.0 <= full * curve * share <= full * curve <= full
  {
    Shrinks(full, curve);
    Shrinks(full * curve, share);
  }

  lemma Shrinks(x: real, share: real)
    requires x >= 0.0 && 0.0 <= share <= 1.0
    ensures 0.0 <= x * share <= x
  {
    var rest := 1.0 - share;
    assert x * rest >= 0.0 && x * share >= 0.0;
    assert x * share + x * rest == x * (share + rest);
  }
}

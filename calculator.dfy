/** The arithmetic both `MetalPriceTracker` clients share: the unit-conversion and
    purity tables, the unit display names, the price per gram after purity, the cost
    of a weight of metal, and the price-history buffer of the chart. */
module Calculator {
  import opened Wrappers
  import opened Text

  datatype Metal = Gold | Silver

  /** The metal a `metal_type` or `<select>` value names (`None`: any other text). */
  function MetalNamed(s: string): Option<Metal> {
    if s == "gold" then Some(Gold) else if s == "silver" then Some(Silver) else None
  }

  /** An object with one number per metal (`prices`, `workingCosts`). */
  datatype PerMetal = PerMetal(gold: real, silver: real) {
    function Of(m: Metal): real {
      if m == Gold then gold else silver
    }

    /** `this[m] = v` */
    function With(m: Metal, v: real): (r: PerMetal)
      ensures r.Of(m) == v
      ensures forall n :: n != m ==> r.Of(n) == Of(n)
    {
      if m == Gold then this.(gold := v) else this.(silver := v)
    }
  }

  /** `conversions[unit]`: grams per unit; `None` is `undefined`. */
  function Conversion(unit: string): Option<real> {
    if unit == "gram" then Some(1.0)
    else if unit == "tola" then Some(11.664)
    else if unit == "ounce" then Some(31.1035)
    else if unit == "kilogram" then Some(1000.0)
    else if unit == "pound" then Some(453.592)
    else if unit == "ana" then Some(0.729)
    else if unit == "lal" then Some(0.0583)
    else if unit == "ratti" then Some(0.1215)
    else None
  }

  /** `purityFactors[purity]`; `None` is `undefined`. */
  function PurityFactor(purity: int): Option<real> {
    if purity == 24 then Some(1.0)
    else if purity == 22 then Some(0.9167)
    else if purity == 21 then Some(0.875)
    else if purity == 18 then Some(0.75)
    else None
  }

  /** `getUnitName`: the display name of a known unit, the unit itself otherwise. */
  function UnitName(unit: string): string {
    if unit == "gram" then "Gram(s)"
    else if unit == "tola" then "Tola(s)"
    else if unit == "ounce" then "Ounce(s)"
    else if unit == "kilogram" then "Kilogram(s)"
    else if unit == "pound" then "Pound(s)"
    else if unit == "ana" then "Ana(s)"
    else if unit == "lal" then "Lal(s)"
    else if unit == "ratti" then "Ratti(s)"
    else unit
  }

  /** Exactly the eight units with a conversion factor have a display name of their
      own; every factor is positive and no larger than a kilogram. */
  lemma UnitTables(unit: string)
    ensures Conversion(unit).Some? <==> UnitName(unit) != unit
    ensures Conversion(unit).Some? ==> 0.0 < Conversion(unit).value <= 1000.0
  {
    if unit == "gram" {
      assert UnitName(unit)[0] != unit[0];
    } else if unit == "tola" {
      assert UnitName(unit)[0] != unit[0];
    } else if unit == "ounce" {
      assert UnitName(unit)[0] != unit[0];
    } else if unit == "kilogram" {
      assert UnitName(unit)[0] != unit[0];
    } else if unit == "pound" {
      assert UnitName(unit)[0] != unit[0];
    } else if unit == "ana" {
      assert UnitName(unit)[0] != unit[0];
    } else if unit == "lal" {
      assert UnitName(unit)[0] != unit[0];
    } else if unit == "ratti" {
      assert UnitName(unit)[0] != unit[0];
    }
  }

  /** Every purity factor is a fraction of pure gold, 24 carat being pure. */
  lemma PurityTable(purity: int)
    ensures PurityFactor(purity).Some? <==> purity in {24, 22, 21, 18}
    ensures PurityFactor(purity).Some? ==> 0.0 < PurityFactor(purity).value <= 1.0
    ensures PurityFactor(purity) == Some(1.0) <==> purity == 24
  {
  }

  /** `weight * conversions[unit]`; `None` is `NaN`. */
  function WeightInGrams(weight: real, unit: string): Option<real> {
    match Conversion(unit)
    case None => None
    case Some(c) => Some(weight * c)
  }

  /** The price per gram after purity: gold is scaled by its purity factor, silver
      is not (whatever purity is selected). */
  function EffectivePrice(prices: PerMetal, metal: Metal, purity: int): Option<real> {
    if metal == Gold then
      match PurityFactor(purity)
      case None => None
      case Some(f) => Some(prices.gold * f)
    else Some(prices.silver)
  }

  /** `weightInGrams * effectivePrice`. */
  function MetalCost(prices: PerMetal, metal: Metal, purity: int, weight: real, unit: string): Option<real> {
    var grams := WeightInGrams(weight, unit);
    var price := EffectivePrice(prices, metal, purity);
    if grams.Some? && price.Some? then Some(grams.value * price.value) else None
  }

  /** The input guard `!x || x <= 0`, negated, on a `parseFloat` result: the text
      parsed to a number that is truthy and positive. */
  predicate PositiveNumber(x: Option<real>) {
    x.Some? && x.value != 0.0 && x.value > 0.0
  }

  /** What the calculator shows: nothing for a missing, zero or negative weight,
      otherwise a total (`None`: `NaN`). */
  datatype Display = Hidden | Total(value: Option<real>)

  /** The manual price field of both clients: accepted only when it parses to a truthy, positive number. */
  function ManualPrice(text: string): Option<real> {
    var v := ParseFloat(text);
    if PositiveNumber(v) then v else None
  }

  /** For a known unit and purity, the metal cost is the weight in grams (weight times
      grams per unit) times the per-gram price times, for gold only, the purity factor. */
  lemma MetalCostFormula(prices: PerMetal, metal: Metal, purity: int, weight: real, unit: string)
    requires Conversion(unit).Some? && PurityFactor(purity).Some?
    ensures MetalCost(prices, metal, purity, weight, unit).Some?
    ensures MetalCost(prices, metal, purity, weight, unit).value ==
      (weight * Conversion(unit).value) *
      (prices.Of(metal) * (if metal == Gold then PurityFactor(purity).value else 1.0))
  {
  }

  /** A cost needs both a known unit and, for gold, a known purity. */
  lemma MetalCostDefined(prices: PerMetal, metal: Metal, purity: int, weight: real, unit: string)
    ensures MetalCost(prices, metal, purity, weight, unit).Some? <==>
      Conversion(unit).Some? && (metal == Gold ==> PurityFactor(purity).Some?)
  {
  }

  /** A non-negative weight at a non-negative price never costs more than the same
      weight of pure (24 carat) metal. */
  lemma MetalCostAtMostPure(prices: PerMetal, metal: Metal, purity: int, weight: real, unit: string)
    requires Conversion(unit).Some? && PurityFactor(purity).Some?
    requires weight >= 0.0 && prices.Of(metal) >= 0.0
    ensures MetalCost(prices, metal, purity, weight, unit).value <= MetalCost(prices, metal, 24, weight, unit).value
  {
    var c := Conversion(unit).value;
    var f := PurityFactor(purity).value;
    PurityTable(purity);
    assert c > 0.0;
    MetalCostFormula(prices, metal, purity, weight, unit);
    MetalCostFormula(prices, metal, 24, weight, unit);
    var g := weight * c;
    assert g >= 0.0;
    if metal == Gold {
      var p := prices.gold;
      assert p * f <= p * 1.0;
      assert g * (p * f) <= g * (p * 1.0);
    }
  }

  /** The chart keeps at most this many points. */
  const HISTORY_LIMIT: nat := 20

  /** `push`, then `shift` when the list has grown past 20. */
  function ChartPush<T>(xs: seq<T>, x: T): seq<T> {
    if |xs + [x]| > HISTORY_LIMIT then (xs + [x])[1..] else xs + [x]
  }

  /** The last `HISTORY_LIMIT` elements (all of them when there are fewer). */
  function Window<T>(xs: seq<T>): (r: seq<T>)
    ensures |r| <= HISTORY_LIMIT
  {
    if |xs| > HISTORY_LIMIT then xs[|xs| - HISTORY_LIMIT..] else xs
  }

  function PushAll<T>(xs: seq<T>, ys: seq<T>): seq<T>
    decreases |ys|
  {
    if |ys| == 0 then xs else PushAll(ChartPush(xs, ys[0]), ys[1..])
  }

  /** One push on a buffer within the limit: it stays within the limit, the new point
      is last, and the buffer is the window of the old one with the point appended. */
  lemma ChartPushWindow<T>(xs: seq<T>, x: T)
    requires |xs| <= HISTORY_LIMIT
    ensures ChartPush(xs, x) == Window(xs + [x])
    ensures |ChartPush(xs, x)| <= HISTORY_LIMIT && ChartPush(xs, x)[|ChartPush(xs, x)| - 1] == x
  {
  }

  /** After any series of pushes onto a buffer within the limit, the buffer holds
      exactly the last 20 of all the points, oldest first. */
  lemma {:induction false} PushAllWindow<T>(xs: seq<T>, ys: seq<T>)
    requires |xs| <= HISTORY_LIMIT
    ensures PushAll(xs, ys) == Window(xs + ys)
    decreases |ys|
  {
    if |ys| > 0 {
      ChartPushWindow(xs, ys[0]);
      var zs := ChartPush(xs, ys[0]);
      PushAllWindow(zs, ys[1..]);
      assert xs + ys == (xs + [ys[0]]) + ys[1..];
      var a := xs + [ys[0]];
      if |a| > HISTORY_LIMIT {
        assert zs + ys[1..] == (a + ys[1..])[1..];
      } else {
        assert zs + ys[1..] == a + ys[1..];
      }
    }
  }

  /** Pushing a price and its label onto two lists of equal length keeps them equal
      in length. */
  lemma ChartPushPaired<T, U>(xs: seq<T>, ys: seq<U>, x: T, y: U)
    requires |xs| == |ys|
    ensures |ChartPush(xs, x)| == |ChartPush(ys, y)|
  {
  }
}

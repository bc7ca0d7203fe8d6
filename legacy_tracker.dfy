/** The older client's `MetalPriceTracker`: the same tables, calculator and chart
    buffer as the current client, without working costs, and with the live price
    simulated by a random walk that is clamped to a floor. `Math.random()` is a
    parameter in [0, 1). */
module LegacyTracker {
  import opened Wrappers
  import opened Text
  import opened Calculator
  import Tracker

  /** The walk's full width per step: 50 for gold, 5 for silver. */
  function Range(metal: Metal): real {
    if metal == Gold then 50.0 else 5.0
  }

  /** The lowest price the walk allows: 10000 for gold, 100 for silver. */
  function Floor(metal: Metal): real {
    if metal == Gold then 10000.0 else 100.0
  }

  /** One simulated step: `Math.max(floor, price + (random - 0.5) * range)`. */
  function Walk(metal: Metal, price: real, random: real): real {
    var next := price + (random - 0.5) * Range(metal);
    if Floor(metal) >= next then Floor(metal) else next
  }

  /** The prices after `fetchLivePrice(metal)`: only that metal's price moves. */
  function Walked(prices: PerMetal, metal: Metal, random: real): PerMetal {
    prices.With(metal, Walk(metal, prices.Of(metal), random))
  }

  /** After a step the price is at least the floor. From a price at or above the floor
      it moves by at most half the range (25 for gold, 2.5 for silver), and it equals
      the unclamped step whenever that step stays above the floor. */
  lemma WalkBounds(metal: Metal, price: real, random: real)
    requires 0.0 <= random < 1.0
    ensures Walk(metal, price, random) >= Floor(metal)
    ensures price >= Floor(metal) ==>
      price - Range(metal) / 2.0 <= Walk(metal, price, random) < price + Range(metal) / 2.0
    ensures price + (random - 0.5) * Range(metal) > Floor(metal) ==>
      Walk(metal, price, random) == price + (random - 0.5) * Range(metal)
  {
    var d := (random - 0.5) * Range(metal);
    assert -Range(metal) / 2.0 <= d < Range(metal) / 2.0;
  }

  /** A price more than half a range below the floor (as a manual update may set) is
      replaced by the floor itself at the next step. */
  lemma WalkLiftsLowPrice(metal: Metal, price: real, random: real)
    requires 0.0 <= random < 1.0
    requires price < Floor(metal) - Range(metal) / 2.0
    ensures Walk(metal, price, random) == Floor(metal)
  {
    var d := (random - 0.5) * Range(metal);
    assert d < Range(metal) / 2.0;
  }

  /** `calculatePrice` of the older client: the metal cost alone. */
  function LegacyDisplay(prices: PerMetal, metal: Metal, purity: int, weight: Option<real>, unit: string): Display {
    if !PositiveNumber(weight) then Hidden
    else Total(MetalCost(prices, metal, purity, weight.value, unit))
  }

  /** The older calculator shows exactly what the current one shows when its working
      costs are zero. */
  lemma LegacyDisplayIsZeroWorkingCost(prices: PerMetal, metal: Metal, purity: int, weight: Option<real>, unit: string)
    ensures LegacyDisplay(prices, metal, purity, weight, unit)
      == Tracker.CalculatorDisplay(prices, PerMetal(0.0, 0.0), metal, purity, weight, unit)
  {
    if PositiveNumber(weight) {
      var cost := MetalCost(prices, metal, purity, weight.value, unit);
      if cost.Some? {
        assert PerMetal(0.0, 0.0).Of(metal) == 0.0;
        assert cost == Some(cost.value + 0.0);
      }
    }
  }

  /** A manual update of the metal on display is walked straight away and so ends at
      or above the floor; a manual update of the other metal is kept as entered. */
  lemma ManualThenWalk(prices: PerMetal, current: Metal, selected: Metal, v: real, random: real)
    requires 0.0 <= random < 1.0
    ensures var r := Walked(prices.With(selected, v), current, random);
      (selected == current ==> r.Of(selected) >= Floor(selected) && (v > Floor(selected) + Range(selected) / 2.0 ==> r.Of(selected) != Floor(selected))) &&
      (selected != current ==> r.Of(selected) == v && r.Of(current) == Walk(current, prices.Of(current), random))
  {
    WalkBounds(current, prices.With(selected, v).Of(current), random);
  }

  class MetalPriceTracker {
    var currentMetal: Metal
    var currentPurity: int
    var prices: PerMetal
    var priceHistory: seq<real>
    var timeLabels: seq<string>

    /** The chart's lists stay paired and within the limit, and the purity is one the
        factor table knows (the purity buttons offer only those). */
    predicate Valid()
      reads this
    {
      |priceHistory| == |timeLabels| <= HISTORY_LIMIT && PurityFactor(currentPurity).Some?
    }

    /** The state before the first update: gold at 24K, the default prices, an empty chart. */
    constructor()
      ensures Valid()
      ensures currentMetal == Gold && currentPurity == 24
      ensures prices == PerMetal(12500.0, 150.0)
      ensures priceHistory == [] && timeLabels == []
    {
      currentMetal := Gold;
      currentPurity := 24;
      prices := PerMetal(12500.0, 150.0);
      priceHistory := [];
      timeLabels := [];
    }

    /** `fetchLivePrice`: one step of the walk on `prices[metal]`, returned. */
    method FetchLivePrice(metal: Metal, random: real) returns (price: real)
      requires 0.0 <= random < 1.0
      modifies this
      ensures prices == Walked(old(prices), metal, random)
      ensures price == prices.Of(metal) && price >= Floor(metal)
      ensures currentMetal == old(currentMetal) && currentPurity == old(currentPurity)
      ensures priceHistory == old(priceHistory) && timeLabels == old(timeLabels)
    {
      var fluctuationRange := if metal == Gold then 50.0 else 5.0;
      var fluctuation := (random - 0.5) * fluctuationRange;
      var next := prices.Of(metal) + fluctuation;
      var floor := if metal == Gold then 10000.0 else 100.0;
      price := if floor >= next then floor else next;
      prices := prices.With(metal, price);
      WalkBounds(metal, old(prices).Of(metal), random);
    }

    /** `updateChart`: push the point and its label, then drop the oldest pair once
        there are more than 20. */
    method UpdateChart(price: real, time: string)
      requires Valid()
      modifies this
      ensures Valid()
      ensures priceHistory == ChartPush(old(priceHistory), price)
      ensures timeLabels == ChartPush(old(timeLabels), time)
      ensures currentMetal == old(currentMetal) && currentPurity == old(currentPurity)
      ensures prices == old(prices)
    {
      priceHistory := priceHistory + [price];
      timeLabels := timeLabels + [time];
      if |priceHistory| > HISTORY_LIMIT {
        priceHistory := priceHistory[1..];
        timeLabels := timeLabels[1..];
      }
    }

    /** `updatePrices`: walk the current metal's price only, then chart its effective
        price per gram. */
    method UpdatePrices(random: real, time: string)
      requires Valid() && 0.0 <= random < 1.0
      modifies this
      ensures Valid()
      ensures prices == Walked(old(prices), currentMetal, random)
      ensures EffectivePrice(prices, currentMetal, currentPurity).Some?
      ensures priceHistory == ChartPush(old(priceHistory), EffectivePrice(prices, currentMetal, currentPurity).value)
      ensures timeLabels == ChartPush(old(timeLabels), time)
      ensures currentMetal == old(currentMetal) && currentPurity == old(currentPurity)
    {
      var basePerGram := FetchLivePrice(currentMetal, random);
      var perGram := basePerGram;
      if currentMetal == Gold {
        perGram := basePerGram * PurityFactor(currentPurity).value;
      }
      assert perGram == EffectivePrice(prices, currentMetal, currentPurity).value;
      UpdateChart(perGram, time);
    }

    /** `calculatePrice`, without its rendering. */
    method CalculatePrice(weight: Option<real>, unit: string) returns (shown: Display)
      ensures shown == LegacyDisplay(prices, currentMetal, currentPurity, weight, unit)
    {
      if !PositiveNumber(weight) {
        return Hidden;
      }
      var grams := WeightInGrams(weight.value, unit);
      var perGram := EffectivePrice(prices, currentMetal, currentPurity);
      if grams.None? || perGram.None? {
        return Total(None);
      }
      var metalCost := grams.value * perGram.value;
      assert MetalCost(prices, currentMetal, currentPurity, weight.value, unit).value == metalCost;
      shown := Total(Some(metalCost));
    }

    /** `manualPriceUpdate`: refuse anything but a positive number and change nothing;
        otherwise set the selected metal's price and run an update. */
    method ManualPriceUpdate(text: string, selected: Metal, random: real, time: string) returns (accepted: bool)
      requires Valid() && 0.0 <= random < 1.0
      modifies this
      ensures Valid()
      ensures accepted <==> ManualPrice(text).Some?
      ensures !accepted ==> prices == old(prices) && priceHistory == old(priceHistory) && timeLabels == old(timeLabels)
      ensures accepted ==>
        prices == Walked(old(prices).With(selected, ManualPrice(text).value), currentMetal, random) &&
        EffectivePrice(prices, currentMetal, currentPurity).Some? &&
        priceHistory == ChartPush(old(priceHistory), EffectivePrice(prices, currentMetal, currentPurity).value) &&
        timeLabels == ChartPush(old(timeLabels), time)
      ensures currentMetal == old(currentMetal) && currentPurity == old(currentPurity)
    {
      var manual := ParseFloat(text);
      if !PositiveNumber(manual) {
        return false;
      }
      prices := prices.With(selected, manual.value);
      UpdatePrices(random, time);
      return true;
    }

    /** `switchMetal`: select the metal and run an update; the chart keeps its points. */
    method SwitchMetal(metal: Metal, random: real, time: string)
      requires Valid() && 0.0 <= random < 1.0
      modifies this
      ensures Valid()
      ensures currentMetal == metal && currentPurity == old(currentPurity)
      ensures prices == Walked(old(prices), metal, random)
      ensures EffectivePrice(prices, metal, currentPurity).Some?
      ensures priceHistory == ChartPush(old(priceHistory), EffectivePrice(prices, metal, currentPurity).value)
      ensures timeLabels == ChartPush(old(timeLabels), time)
    {
      currentMetal := metal;
      UpdatePrices(random, time);
    }

    /** `setPurity`, from a purity button: select it and run an update. */
    method SetPurity(purity: int, random: real, time: string)
      requires Valid() && PurityFactor(purity).Some? && 0.0 <= random < 1.0
      modifies this
      ensures Valid()
      ensures currentPurity == purity && currentMetal == old(currentMetal)
      ensures prices == Walked(old(prices), currentMetal, random)
      ensures EffectivePrice(prices, currentMetal, purity).Some?
      ensures priceHistory == ChartPush(old(priceHistory), EffectivePrice(prices, currentMetal, purity).value)
      ensures timeLabels == ChartPush(old(timeLabels), time)
    {
      currentPurity := purity;
      UpdatePrices(random, time);
    }
  }
}

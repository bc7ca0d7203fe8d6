/** The browser client's `MetalPriceTracker`: per-metal prices refreshed from the
    server's gold and silver routes with the last known price kept on failure, a
    manual price override, per-metal working costs, the weight calculator, the
    jewelry totals, and the price-history buffer behind the chart. Responses, the
    input fields' text and the chart's time label are parameters. */
module Tracker {
  import opened Wrappers
  import opened Text
  import opened Scrape
  import opened Calculator
  import GoldRoute
  import SilverRoute
  import Jewelry

  // ------------------------------------------------------------ live prices

  /** What `fetchLivePrice` reads from one response: `Unreachable` when the request
      throws or the status is not ok (both land in the `catch`); otherwise
      `rates['24'].perGram` and `rates.perGram` of the JSON body, `None` where the
      body lacks them. */
  datatype LiveBody = Unreachable | Body(rate24PerGram: Option<real>, ratesPerGram: Option<real>)

  /** The per-gram price a response offers for `metal`: the 24K rate for gold, the
      plain rate for silver. */
  function Offered(metal: Metal, body: LiveBody): Option<real> {
    if body.Unreachable? then None
    else if metal == Gold then body.rate24PerGram
    else body.ratesPerGram
  }

  /** The prices after `fetchLivePrice(metal)`: a truthy offered price replaces
      `prices[metal]`; on any failure the last known prices stay. */
  function Refresh(prices: PerMetal, metal: Metal, body: LiveBody): PerMetal {
    var v := Offered(metal, body);
    if Truthy(v) then prices.With(metal, v.value) else prices
  }

  /** A refresh touches only the fetched metal's price: it takes the offered price
      when that is truthy and keeps the last known one otherwise (always, when the
      server is unreachable); refreshing twice from the same response changes nothing
      more. */
  lemma RefreshCases(prices: PerMetal, metal: Metal, body: LiveBody)
    ensures var r := Refresh(prices, metal, body);
      (Truthy(Offered(metal, body)) ==> r.Of(metal) == Offered(metal, body).value) &&
      (!Truthy(Offered(metal, body)) ==> r == prices) &&
      (forall n :: n != metal ==> r.Of(n) == prices.Of(n)) &&
      (body.Unreachable? ==> r == prices) &&
      Refresh(r, metal, body) == r
  {
  }

  /** The response the gold route's reply makes: a 502 is not ok; every other reply
      is a JSON body whose `rates['24']` is the payload's 24K rate and which has no
      `rates.perGram`. */
  function GoldBody(reply: Reply<GoldRoute.GoldPayload>): LiveBody {
    if reply.BadGateway? then Unreachable else Body(Some(reply.payload.rates.k24.perGram), None)
  }

  /** The response the silver route's reply makes: `rates.perGram` of the payload. */
  function SilverBody(reply: Reply<SilverRoute.SilverPayload>): LiveBody {
    if reply.BadGateway? then Unreachable else Body(None, Some(reply.payload.perGram))
  }

  /** A freshly scraped gold payload is always adopted by the client, and one tola of
      24K gold then costs exactly the scraped per-tola price. */
  lemma ServedGoldAdopted(prices: PerMetal, page: Page, stamp: string)
    ensures var p := GoldRoute.Payload(page, stamp);
      var r := Refresh(prices, Gold, GoldBody(Served(p)));
      r == prices.With(Gold, p.rates.k24.perGram) &&
      MetalCost(r, Gold, 24, 1.0, "tola").Some? &&
      MetalCost(r, Gold, 24, 1.0, "tola").value == p.rates.k24.perTola
  {
    var p := GoldRoute.Payload(page, stamp);
    GoldRoute.PayloadPrices(page, stamp);
    var t := p.rates.k24.perTola;
    assert p.rates.k24.perGram == t / TOLA_TO_GRAM;
    assert t / TOLA_TO_GRAM != 0.0;
    var r := Refresh(prices, Gold, GoldBody(Served(p)));
    MetalCostFormula(r, Gold, 24, 1.0, "tola");
    assert 1.0 * TOLA_TO_GRAM * ((t / TOLA_TO_GRAM) * 1.0) == t;
  }

  /** A silver reply with a non-zero per-tola price is adopted by the client, and one
      kilogram of silver then costs exactly the payload's per-kilogram price. */
  lemma ServedSilverAdopted(prices: PerMetal, source: string, stamp: string, perTola: real)
    requires perTola != 0.0
    ensures var p := SilverRoute.PayloadFor(source, stamp, perTola);
      var r := Refresh(prices, Silver, SilverBody(Served(p)));
      r == prices.With(Silver, p.perGram) &&
      MetalCost(r, Silver, 24, 1.0, "kilogram").Some? &&
      MetalCost(r, Silver, 24, 1.0, "kilogram").value == p.perKg
  {
    var p := SilverRoute.PayloadFor(source, stamp, perTola);
    assert p.perGram == perTola / TOLA_TO_GRAM;
    assert p.perGram != 0.0;
    var r := Refresh(prices, Silver, SilverBody(Served(p)));
    MetalCostFormula(r, Silver, 24, 1.0, "kilogram");
  }

  /** One round of `updatePrices` (gold, then silver) leaves every price as it was
      exactly when neither fetch offers a truthy price different from the held one:
      an unreachable server, a thrown fetch, a non-OK status, a body that is not JSON,
      or a missing or zero price keeps the last known price. */
  lemma RoundKeepsPricesIff(prices: PerMetal, g: LiveBody, s: LiveBody)
    ensures Refresh(Refresh(prices, Gold, g), Silver, s) == prices <==>
      (!Truthy(Offered(Gold, g)) || Offered(Gold, g).value == prices.Of(Gold)) &&
      (!Truthy(Offered(Silver, s)) || Offered(Silver, s).value == prices.Of(Silver))
  {
  }

  // ------------------------------------------------------------- the inputs

  /** The working-cost field: `parseFloat(value) || 0`. */
  function WorkingCostInput(text: string): real {
    var v := ParseFloat(text);
    if Truthy(v) then v.value else 0.0
  }

  /** A manual price is accepted exactly when it is a positive number, and the
      working-cost field yields that number or 0, never `NaN`. */
  lemma InputsCases(text: string)
    ensures ManualPrice(text).Some? <==> ParseFloat(text).Some? && ParseFloat(text).value > 0.0
    ensures ManualPrice(text).Some? ==> ManualPrice(text) == ParseFloat(text) && WorkingCostInput(text) == ParseFloat(text).value
    ensures !Truthy(ParseFloat(text)) ==> WorkingCostInput(text) == 0.0
  {
  }

  /** After a manual update the refresh that follows still runs: the selected metal
      keeps the manual price only when its own fetch fails, and the other metal's
      price is whatever its fetch leaves. */
  lemma ManualThenRefresh(prices: PerMetal, selected: Metal, v: real, goldBody: LiveBody, silverBody: LiveBody)
    ensures var r := Refresh(Refresh(prices.With(selected, v), Gold, goldBody), Silver, silverBody);
      var own := if selected == Gold then goldBody else silverBody;
      var other := if selected == Gold then Silver else Gold;
      var otherBody := if selected == Gold then silverBody else goldBody;
      r.Of(selected) == (if Truthy(Offered(selected, own)) then Offered(selected, own).value else v) &&
      r.Of(other) == Refresh(prices, other, otherBody).Of(other)
  {
    var w := prices.With(selected, v);
    RefreshCases(w, Gold, goldBody);
    RefreshCases(Refresh(w, Gold, goldBody), Silver, silverBody);
    RefreshCases(prices, Gold, goldBody);
    RefreshCases(prices, Silver, silverBody);
  }

  // ------------------------------------------------------------ calculator

  /** `calculatePrice`: metal cost of the weight plus the current metal's working cost. */
  function CalculatorDisplay(prices: PerMetal, workingCosts: PerMetal, metal: Metal, purity: int,
                             weight: Option<real>, unit: string): Display {
    if !PositiveNumber(weight) then Hidden
    else
      var cost := MetalCost(prices, metal, purity, weight.value, unit);
      if cost.None? then Total(None) else Total(Some(cost.value + workingCosts.Of(metal)))
  }

  /** The result is hidden exactly for a weight that is not a positive number; it is a
      number exactly when the unit is known and, for gold, so is the purity; and then
      it is weight times grams per unit times the effective price per gram, plus the
      working cost of that metal. */
  lemma CalculatorCases(prices: PerMetal, workingCosts: PerMetal, metal: Metal, purity: int,
                        weight: Option<real>, unit: string)
    ensures var d := CalculatorDisplay(prices, workingCosts, metal, purity, weight, unit);
      (d.Hidden? <==> !PositiveNumber(weight)) &&
      (d.Total? ==> (d.value.Some? <==> Conversion(unit).Some? && (metal == Gold ==> PurityFactor(purity).Some?))) &&
      (d.Total? && Conversion(unit).Some? && PurityFactor(purity).Some? ==>
         d.value.Some? &&
         d.value.value == (weight.value * Conversion(unit).value) *
                          (prices.Of(metal) * (if metal == Gold then PurityFactor(purity).value else 1.0))
                          + workingCosts.Of(metal))
  {
    MetalCostDefined(prices, metal, purity, if weight.Some? then weight.value else 0.0, unit);
    if PositiveNumber(weight) && Conversion(unit).Some? && PurityFactor(purity).Some? {
      MetalCostFormula(prices, metal, purity, weight.value, unit);
    }
  }

  // --------------------------------------------------------------- jewelry

  /** The metal an item's `metal_type` names. */
  function ItemMetal(item: Jewelry.JewelryRow): Option<Metal> {
    if item.metalType.Some? then MetalNamed(item.metalType.value) else None
  }

  /** The metal cost of an item at the current prices, with its own unit, metal and
      purity; `None` (`NaN`) for an unknown or NULL unit, an unknown metal, or gold of
      an unknown or NULL purity (looked up as purity 0, which has no factor). */
  function ItemCost(prices: PerMetal, item: Jewelry.JewelryRow): Option<real> {
    var metal := ItemMetal(item);
    if metal.None? || item.weightUnit.None? then None
    else MetalCost(prices, metal.value, item.purity.GetOr(0), item.weight, item.weightUnit.value)
  }

  /** Evaluating `calculateJewelryTotalPrice`: it may throw before returning. */
  datatype Evaluation = Throws | Value(total: Option<real>)

  /** `calculateJewelryTotalPrice` as written: the debug log formats
      `prices[metal_type]` and `working_cost` with `toFixed`, so an unknown metal
      (`undefined`) or a NULL working cost (`null`) throws a `TypeError`, although the
      sum itself treats `null` as 0. */
  function JewelryTotalAsWritten(prices: PerMetal, item: Jewelry.JewelryRow): Evaluation {
    if ItemMetal(item).None? || item.workingCost.None? then Throws
    else
      var cost := ItemCost(prices, item);
      Value(if cost.None? then None else Some(cost.value + item.workingCost.value))
  }

  /** The jewelry total as the arithmetic intends it: metal cost plus working cost,
      a NULL working cost counting as 0. */
  function JewelryTotal(prices: PerMetal, item: Jewelry.JewelryRow): Option<real> {
    var cost := ItemCost(prices, item);
    if cost.None? then None else Some(cost.value + item.workingCost.GetOr(0.0))
  }

  /** The as-written total throws exactly for an unknown metal or a NULL working cost,
      and otherwise agrees with the intended total. */
  lemma JewelryTotalAsWrittenCases(prices: PerMetal, item: Jewelry.JewelryRow)
    ensures JewelryTotalAsWritten(prices, item).Throws? <==> ItemMetal(item).None? || item.workingCost.None?
    ensures JewelryTotalAsWritten(prices, item).Value? ==> JewelryTotalAsWritten(prices, item).total == JewelryTotal(prices, item)
  {
  }

  /** An item of positive weight is priced with the calculator's own formula: its
      total is what the calculator shows for its weight, unit, metal and purity with
      the item's working cost (0 when NULL) as that metal's working cost. */
  lemma JewelryTotalIsCalculatorTotal(prices: PerMetal, workingCosts: PerMetal, item: Jewelry.JewelryRow)
    requires ItemMetal(item).Some? && item.weightUnit.Some? && item.weight > 0.0
    ensures var m := ItemMetal(item).value;
      CalculatorDisplay(prices, workingCosts.With(m, item.workingCost.GetOr(0.0)), m, item.purity.GetOr(0),
                        Some(item.weight), item.weightUnit.value)
        == Total(JewelryTotal(prices, item))
  {
  }

  /** A `PUT` whose body has no `working_cost` succeeds and stores NULL there, and the
      client's as-written total then throws on that row; the intended total is the
      metal cost alone. */
  lemma PutWithoutWorkingCostBreaksTotal(prices: PerMetal, s: Jewelry.Store, cloud: bool, id: nat,
                                         form: Jewelry.Form, file: Option<Jewelry.Upload>)
    requires id in s.rows && !Jewelry.UploadRefused(cloud, file)
    requires form.name.Some? && form.weight.Some? && ParseFloat(form.weight.value).Some?
    requires form.workingCost.None?
    ensures var e := Jewelry.Put(s, cloud, id, form, file);
      e.reply == Jewelry.Updated && e.store.rows[id].workingCost.None? &&
      JewelryTotalAsWritten(prices, e.store.rows[id]) == Throws &&
      JewelryTotal(prices, e.store.rows[id]) == ItemCost(prices, e.store.rows[id])
  {
  }

  // ---------------------------------------------------------------- the client

  /** The client's state. The chart's two lists are reassigned by its methods; the
      prices and working costs are per-metal records. */
  class MetalPriceTracker {
    var currentMetal: Metal
    var currentPurity: int
    var prices: PerMetal
    var workingCosts: PerMetal
    var priceHistory: seq<real>
    var timeLabels: seq<string>

    /** The chart's lists stay paired and within the limit, and the purity is one the
        factor table knows (the purity buttons offer only those). */
    predicate Valid()
      reads this
    {
      |priceHistory| == |timeLabels| <= HISTORY_LIMIT && PurityFactor(currentPurity).Some?
    }

    /** The state before the first refresh has answered: gold at 24K, the default
        prices per gram, no working costs, an empty chart. */
    constructor()
      ensures Valid()
      ensures currentMetal == Gold && currentPurity == 24
      ensures prices == PerMetal(12500.0, 150.0) && workingCosts == PerMetal(0.0, 0.0)
      ensures priceHistory == [] && timeLabels == []
    {
      currentMetal := Gold;
      currentPurity := 24;
      prices := PerMetal(12500.0, 150.0);
      workingCosts := PerMetal(0.0, 0.0);
      priceHistory := [];
      timeLabels := [];
    }

    /** `fetchLivePrice`: store a truthy offered price for `metal`, and return the
        price now held for it (the last known one when the fetch failed). */
    method FetchLivePrice(metal: Metal, body: LiveBody) returns (price: real)
      modifies this
      ensures prices == Refresh(old(prices), metal, body)
      ensures price == prices.Of(metal)
      ensures currentMetal == old(currentMetal) && currentPurity == old(currentPurity)
      ensures workingCosts == old(workingCosts)
      ensures priceHistory == old(priceHistory) && timeLabels == old(timeLabels)
    {
      var v := Offered(metal, body);
      if Truthy(v) {
        prices := prices.With(metal, v.value);
        return v.value;
      }
      return prices.Of(metal);
    }

    /** `updateChart`: push the point and its label, then drop the oldest pair once
        there are more than 20. */
    method UpdateChart(price: real, time: string)
      requires Valid()
      modifies this
      ensures Valid()
      ensures priceHistory == ChartPush(old(priceHistory), price)
      ensures timeLabels == ChartPush(old(timeLabels), time)
      ensures currentMetal == old(currentMetal) && currentPurity == old(currentPurity)
      ensures prices == old(prices) && workingCosts == old(workingCosts)
    {
      priceHistory := priceHistory + [price];
      timeLabels := timeLabels + [time];
      if |priceHistory| > HISTORY_LIMIT {
        priceHistory := priceHistory[1..];
        timeLabels := timeLabels[1..];
      }
    }

    /** `updatePrices`: refresh gold, then silver, then chart the current metal's
        effective price per gram. */
    method UpdatePrices(goldBody: LiveBody, silverBody: LiveBody, time: string)
      requires Valid()
      modifies this
      ensures Valid()
      ensures prices == Refresh(Refresh(old(prices), Gold, goldBody), Silver, silverBody)
      ensures EffectivePrice(prices, currentMetal, currentPurity).Some?
      ensures priceHistory == ChartPush(old(priceHistory), EffectivePrice(prices, currentMetal, currentPurity).value)
      ensures timeLabels == ChartPush(old(timeLabels), time)
      ensures currentMetal == old(currentMetal) && currentPurity == old(currentPurity)
      ensures workingCosts == old(workingCosts)
    {
      var gold := FetchLivePrice(Gold, goldBody);
      var silver := FetchLivePrice(Silver, silverBody);
      var perGram := prices.Of(currentMetal);
      if currentMetal == Gold {
        perGram := perGram * PurityFactor(currentPurity).value;
      }
      assert perGram == EffectivePrice(prices, currentMetal, currentPurity).value;
      UpdateChart(perGram, time);
    }

    /** `calculatePrice`, without its rendering. */
    method CalculatePrice(weight: Option<real>, unit: string) returns (shown: Display)
      ensures shown == CalculatorDisplay(prices, workingCosts, currentMetal, currentPurity, weight, unit)
    {
      if !PositiveNumber(weight) {
        return Hidden;
      }
      var grams := WeightInGrams(weight.value, unit);
      var perGram := EffectivePrice(prices, currentMetal, currentPurity);
      if grams.None? || perGram.None? {
        return Total(None);
      }
      var metalCost := grams.value * perGram.value;
      assert MetalCost(prices, currentMetal, currentPurity, weight.value, unit).value == metalCost;
      shown := Total(Some(metalCost + workingCosts.Of(currentMetal)));
    }

    /** `manualPriceUpdate`: refuse anything but a positive number and change nothing;
        otherwise set the selected metal's price and run a refresh. */
    method ManualPriceUpdate(text: string, selected: Metal, goldBody: LiveBody, silverBody: LiveBody, time: string)
      returns (accepted: bool)
      requires Valid()
      modifies this
      ensures Valid()
      ensures accepted <==> ManualPrice(text).Some?
      ensures !accepted ==> prices == old(prices) && priceHistory == old(priceHistory) && timeLabels == old(timeLabels)
      ensures accepted ==>
        prices == Refresh(Refresh(old(prices).With(selected, ManualPrice(text).value), Gold, goldBody), Silver, silverBody) &&
        EffectivePrice(prices, currentMetal, currentPurity).Some? &&
        priceHistory == ChartPush(old(priceHistory), EffectivePrice(prices, currentMetal, currentPurity).value) &&
        timeLabels == ChartPush(old(timeLabels), time)
      ensures currentMetal == old(currentMetal) && currentPurity == old(currentPurity)
      ensures workingCosts == old(workingCosts)
    {
      var manual := ParseFloat(text);
      if !PositiveNumber(manual) {
        return false;
      }
      prices := prices.With(selected, manual.value);
      UpdatePrices(goldBody, silverBody, time);
      return true;
    }

    /** The working-cost field's `input` handler: only the current metal's working
        cost changes. */
    method SetWorkingCost(text: string)
      modifies this
      ensures workingCosts == old(workingCosts).With(currentMetal, WorkingCostInput(text))
      ensures currentMetal == old(currentMetal) && currentPurity == old(currentPurity)
      ensures prices == old(prices)
      ensures priceHistory == old(priceHistory) && timeLabels == old(timeLabels)
    {
      var v := ParseFloat(text);
      var cost := if Truthy(v) then v.value else 0.0;
      workingCosts := workingCosts.With(currentMetal, cost);
    }

    /** `switchMetal`: select the metal, start a new chart, and refresh; the chart
        then holds the one point of the new metal. */
    method SwitchMetal(metal: Metal, goldBody: LiveBody, silverBody: LiveBody, time: string)
      requires Valid()
      modifies this
      ensures Valid()
      ensures currentMetal == metal && currentPurity == old(currentPurity)
      ensures prices == Refresh(Refresh(old(prices), Gold, goldBody), Silver, silverBody)
      ensures EffectivePrice(prices, metal, currentPurity).Some?
      ensures priceHistory == [EffectivePrice(prices, metal, currentPurity).value] && timeLabels == [time]
      ensures workingCosts == old(workingCosts)
    {
      currentMetal := metal;
      priceHistory := [];
      timeLabels := [];
      UpdatePrices(goldBody, silverBody, time);
    }

    /** `setPurity`, from a purity button: select it and refresh. */
    method SetPurity(purity: int, goldBody: LiveBody, silverBody: LiveBody, time: string)
      requires Valid() && PurityFactor(purity).Some?
      modifies this
      ensures Valid()
      ensures currentPurity == purity && currentMetal == old(currentMetal)
      ensures prices == Refresh(Refresh(old(prices), Gold, goldBody), Silver, silverBody)
      ensures EffectivePrice(prices, currentMetal, purity).Some?
      ensures priceHistory == ChartPush(old(priceHistory), EffectivePrice(prices, currentMetal, purity).value)
      ensures timeLabels == ChartPush(old(timeLabels), time)
      ensures workingCosts == old(workingCosts)
    {
      currentPurity := purity;
      UpdatePrices(goldBody, silverBody, time);
    }
  }
}

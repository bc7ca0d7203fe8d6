/** The `/gold-price` route: read the hamropatro gold page, pull the 24-carat and
    22-carat prices per tola out of its table rows (and, failing that, out of its
    `<li>` pairs), patch missing prices with defaults, derive the 21- and 18-carat
    rates and the per-gram rates, and serve it all through the ten-minute cache. */
module GoldRoute {
  import opened Wrappers
  import opened Text
  import opened Scrape

  /** The 24-carat price per tola used when none can be read. */
  const DEFAULT_24K: real := 109500.0

  /** The 22-carat share of 24-carat gold used to derive a missing 22-carat price. */
  const RATIO_22K: real := 0.9167

  const SOURCE: string := "hamropatro.com"

  datatype Rate = Rate(perTola: real, perGram: real)

  datatype GoldRates = GoldRates(k24: Rate, k22: Rate, k21: Rate, k18: Rate)

  /** The JSON payload (its `currency` is always "NPR" and is not carried). */
  datatype GoldPayload = GoldPayload(source: string, lastUpdated: string, rates: GoldRates)

  datatype Grade = K24 | K22

  /** A row or list item that names a grade, with the numeral captured for it. */
  datatype Hit = Hit(grade: Grade, text: string)

  /** The two scan variables `per24K` and `per22K`; `None` is `null` or `NaN`. */
  datatype Extracted = Extracted(per24K: Option<real>, per22K: Option<real>) {
    function Get(g: Grade): Option<real> {
      if g == K24 then per24K else per22K
    }
  }

  predicate Is24Label(head: string) {
    Contains(head, "24") || (Contains(head, "hallmark") && Contains(head, "gold"))
  }

  predicate Is22Label(head: string) {
    Contains(head, "22") || (Contains(head, "tajabi") && Contains(head, "gold"))
  }

  /** What one `table tr` row contributes: a row of at least two cells whose
      lowercased first cell names 24 carat (or else 22 carat) yields the first
      numeral of its second cell; a 24-carat head whose price cell has no numeral
      yields nothing, even if the head also names 22 carat. */
  function RowHit(cells: seq<string>): Option<Hit> {
    if |cells| < 2 then None
    else
      var head := ToLower(cells[0]);
      var grade := if Is24Label(head) then Some(K24) else if Is22Label(head) then Some(K22) else None;
      match grade
      case None => None
      case Some(g) =>
        match FirstMatch(Numeral, cells[1])
        case None => None
        case Some(m) => Some(Hit(g, m))
  }

  /** What one `<li>` contributes: an item mentioning "tola" and 24 carat (or else
      22 carat), case-sensitively, yields the `Nrs.` numeral of the next item. */
  function ItemHit(li: ListItem): Option<Hit> {
    var t := li.text;
    var grade :=
      if (Contains(t, "Gold Hallmark") || Contains(t, "24")) && Contains(t, "tola") then Some(K24)
      else if (Contains(t, "Gold Tajabi") || Contains(t, "22")) && Contains(t, "tola") then Some(K22)
      else None;
    match grade
    case None => None
    case Some(g) =>
      match FirstMatch(NrsPrefixed, li.nextText)
      case None => None
      case Some(m) => Some(Hit(g, m))
  }

  /** One loop iteration: a hit overwrites its grade's variable with the parsed
      numeral, even when that parse is `NaN`. */
  function Apply(e: Extracted, h: Option<Hit>): Extracted {
    match h
    case None => e
    case Some(Hit(K24, m)) => e.(per24K := ParseNumber(m))
    case Some(Hit(K22, m)) => e.(per22K := ParseNumber(m))
  }

  /** A `.each` loop with no early exit, from the variables `e`. */
  function Scan<T>(e: Extracted, xs: seq<T>, hit: T -> Option<Hit>): Extracted
    decreases |xs|
  {
    if |xs| == 0 then e else Apply(Scan(e, xs[..|xs| - 1], hit), hit(xs[|xs| - 1]))
  }

  /** The table scan, then the list scan only when the table gave no truthy 24-carat
      price; the list scan starts from what the table scan left. */
  function Extract(page: Page): Extracted {
    var t := Scan(Extracted(None, None), page.rows, RowHit);
    if Truthy(t.per24K) then t else Scan(t, page.items, ItemHit)
  }

  /** `Math.round(x * 100) / 100`: round half up to a whole number of hundredths. */
  function Round2(x: real): (r: real)
    ensures x - 0.005 < r <= x + 0.005
  {
    ((x * 100.0 + 0.5).Floor as real) / 100.0
  }

  function Per24(e: Extracted): real {
    if Truthy(e.per24K) then e.per24K.value else DEFAULT_24K
  }

  function Per22(e: Extracted, per24K: real): real {
    if Truthy(e.per22K) then e.per22K.value else Round2(per24K * RATIO_22K)
  }

  function RateOf(perTola: real): Rate {
    Rate(perTola, perTola / TOLA_TO_GRAM)
  }

  function RatesFrom(per24K: real, per22K: real): GoldRates {
    GoldRates(RateOf(per24K), RateOf(per22K), RateOf(per24K * 0.875), RateOf(per24K * 0.75))
  }

  /** The payload of a successful scrape of `page`, stamped `stamp`. */
  function Payload(page: Page, stamp: string): GoldPayload {
    var e := Extract(page);
    var p24 := Per24(e);
    GoldPayload(SOURCE, stamp, RatesFrom(p24, Per22(e, p24)))
  }

  /** The payload of the `catch` block when nothing is cached. */
  function FallbackPayload(stamp: string): GoldPayload {
    GoldPayload(SOURCE, stamp, RatesFrom(DEFAULT_24K, Round2(DEFAULT_24K * RATIO_22K)))
  }

  /** The `try` block past the cache test: a thrown fetch or a non-OK status fails. */
  function Attempt(fetched: Fetched, stamp: string): Outcome<GoldPayload> {
    match fetched
    case Threw(m) => Failed(Thrown(m))
    case Response(ok, status, page) =>
      if ok then Scraped(Payload(page, stamp)) else Failed(HttpStatus(status))
  }

  /** One request: `now` is `Date.now()`, `stamp` is `new Date().toISOString()`,
      `fetched` what the fetch of the gold page would give. */
  function Handle(cache: CacheSlot<GoldPayload>, now: int, fetched: Fetched, stamp: string): Turn<GoldPayload> {
    Ladder(cache, now, Attempt(fetched, stamp), Some(FallbackPayload(stamp)))
  }

  /** Both `.each` loops, run in place on the two variables. */
  method ExtractPrices(page: Page) returns (per24K: Option<real>, per22K: Option<real>)
    ensures Extracted(per24K, per22K) == Extract(page)
  {
    per24K, per22K := None, None;
    var i := 0;
    while i < |page.rows|
      invariant 0 <= i <= |page.rows|
      invariant Extracted(per24K, per22K) == Scan(Extracted(None, None), page.rows[..i], RowHit)
    {
      match RowHit(page.rows[i]) {
        case None =>
        case Some(Hit(g, m)) =>
          if g == K24 { per24K := ParseNumber(m); } else { per22K := ParseNumber(m); }
      }
      assert page.rows[..i + 1][..i] == page.rows[..i];
      i := i + 1;
    }
    assert page.rows[..i] == page.rows;
    if !Truthy(per24K) {
      ghost var t := Extracted(per24K, per22K);
      var j := 0;
      while j < |page.items|
        invariant 0 <= j <= |page.items|
        invariant Extracted(per24K, per22K) == Scan(t, page.items[..j], ItemHit)
      {
        match ItemHit(page.items[j]) {
          case None =>
          case Some(Hit(g, m)) =>
            if g == K24 { per24K := ParseNumber(m); } else { per22K := ParseNumber(m); }
        }
        assert page.items[..j + 1][..j] == page.items[..j];
        j := j + 1;
      }
      assert page.items[..j] == page.items;
    }
  }

  /** The router module: its one piece of state is `priceCache`. */
  class GoldRouter {
    var priceCache: CacheSlot<GoldPayload>

    constructor()
      ensures priceCache == CacheSlot(0, None)
    {
      priceCache := CacheSlot(0, None);
    }

    /** `GET /gold-price`; `requested` tells whether the gold page was fetched. */
    method GetGoldPrice(now: int, fetched: Fetched, stamp: string) returns (reply: Reply<GoldPayload>, requested: bool)
      modifies this
      ensures Turn(priceCache, reply, requested) == Handle(old(priceCache), now, fetched, stamp)
    {
      if priceCache.Fresh(now) {
        return FromCache(priceCache.data.value, None), false;
      }
      requested := true;
      var failure: Failure;
      match fetched {
        case Threw(m) =>
          failure := Thrown(m);
        case Response(ok, status, page) =>
          if ok {
            var per24K, per22K := ExtractPrices(page);
            if !Truthy(per24K) {
              per24K := Some(DEFAULT_24K);
            }
            if !Truthy(per22K) {
              per22K := Some(Round2(per24K.value * RATIO_22K));
            }
            var payload := GoldPayload(SOURCE, stamp, RatesFrom(per24K.value, per22K.value));
            priceCache := CacheSlot(now, Some(payload));
            return Served(payload), true;
          }
          failure := HttpStatus(status);
      }
      if priceCache.data.Some? {
        reply := FromCache(priceCache.data.value, Some(failure));
      } else {
        reply := Fallback(FallbackPayload(stamp), failure);
      }
    }
  }

  /** No early exit: a grade's variable ends up holding the parse of the LAST element
      that hits that grade. */
  lemma {:induction false} ScanLastHitWins<T>(e: Extracted, xs: seq<T>, hit: T -> Option<Hit>, g: Grade, k: nat)
    requires k < |xs| && hit(xs[k]).Some? && hit(xs[k]).value.grade == g
    requires forall j :: k < j < |xs| ==> hit(xs[j]).None? || hit(xs[j]).value.grade != g
    ensures Scan(e, xs, hit).Get(g) == ParseNumber(hit(xs[k]).value.text)
    decreases |xs|
  {
    var n := |xs| - 1;
    assert xs[..n][..] == xs[..n];
    if k < n {
      assert xs[..n][k] == xs[k];
      ScanLastHitWins(e, xs[..n], hit, g, k);
    }
  }

  /** Without a hit on a grade, the scan leaves that grade's variable as it found it. */
  lemma {:induction false} ScanNoHitKeeps<T>(e: Extracted, xs: seq<T>, hit: T -> Option<Hit>, g: Grade)
    requires forall j :: 0 <= j < |xs| ==> hit(xs[j]).None? || hit(xs[j]).value.grade != g
    ensures Scan(e, xs, hit).Get(g) == e.Get(g)
    decreases |xs|
  {
    if |xs| > 0 {
      var n := |xs| - 1;
      assert forall j :: 0 <= j < n ==> xs[..n][j] == xs[j];
      ScanNoHitKeeps(e, xs[..n], hit, g);
    }
  }

  /** The list items are read only when the table gave no truthy 24-carat price. */
  lemma ItemsIgnoredAfterTableHit(page: Page, items: seq<ListItem>)
    requires Truthy(Scan(Extracted(None, None), page.rows, RowHit).per24K)
    ensures Extract(page.(items := items)) == Extract(page) == Scan(Extracted(None, None), page.rows, RowHit)
  {
  }

  /** The served 24-carat price is never missing, zero or `NaN`: it is the scraped
      price when that is truthy and 109500 otherwise; likewise 22 carat falls back to
      the 24-carat price times 0.9167, rounded to the nearest hundredth. */
  lemma PayloadPrices(page: Page, stamp: string)
    ensures var r := Payload(page, stamp).rates;
      var e := Extract(page);
      r.k24.perTola != 0.0 &&
      (Truthy(e.per24K) ==> r.k24.perTola == e.per24K.value) &&
      (!Truthy(e.per24K) ==> r.k24.perTola == DEFAULT_24K) &&
      (Truthy(e.per22K) ==> r.k22.perTola == e.per22K.value) &&
      (!Truthy(e.per22K) ==> r.k22.perTola == Round2(r.k24.perTola * RATIO_22K))
  {
  }

  /** Every grade's per-gram rate times 11.664 gives back its per-tola rate, and the
      21- and 18-carat rates are 0.875 and 0.75 of 24 carat, per tola and per gram. */
  lemma RatesConsistent(per24K: real, per22K: real)
    ensures var r := RatesFrom(per24K, per22K);
      r.k24.perTola == per24K && r.k22.perTola == per22K &&
      r.k24.perGram * TOLA_TO_GRAM == r.k24.perTola &&
      r.k22.perGram * TOLA_TO_GRAM == r.k22.perTola &&
      r.k21.perGram * TOLA_TO_GRAM == r.k21.perTola &&
      r.k18.perGram * TOLA_TO_GRAM == r.k18.perTola &&
      r.k21.perTola == 0.875 * r.k24.perTola && r.k21.perGram == 0.875 * r.k24.perGram &&
      r.k18.perTola == 0.75 * r.k24.perTola && r.k18.perGram == 0.75 * r.k24.perGram
  {
  }

  /** The default 22-carat price is 100378.65 per tola. */
  lemma Default22K()
    ensures Round2(DEFAULT_24K * RATIO_22K) == 100378.65
  {
    assert DEFAULT_24K * RATIO_22K * 100.0 + 0.5 == 10037865.5;
  }

  /** The `catch` block's fallback carries exactly the rates of a scrape that found
      nothing: the two default paths agree. */
  lemma FallbackIsEmptyScrape(page: Page, stamp: string)
    requires page.rows == [] && page.items == []
    ensures FallbackPayload(stamp) == Payload(page, stamp)
  {
  }

  /** A fresh cache answers with its payload and no fetch; otherwise an OK page is
      scraped into the slot; a thrown fetch or a non-OK status leaves the slot and
      answers from any cached data, else from the fallback payload, with the thrown
      message or the status as the error. */
  lemma HandleCases(cache: CacheSlot<GoldPayload>, now: int, fetched: Fetched, stamp: string)
    ensures var t := Handle(cache, now, fetched, stamp);
      (cache.Fresh(now) ==> t == Turn(cache, FromCache(cache.data.value, None), false)) &&
      (!cache.Fresh(now) && fetched.Response? && fetched.ok ==>
         t == Turn(CacheSlot(now, Some(Payload(fetched.page, stamp))), Served(Payload(fetched.page, stamp)), true)) &&
      (!cache.Fresh(now) && !(fetched.Response? && fetched.ok) ==>
         var f := if fetched.Threw? then Thrown(fetched.message) else HttpStatus(fetched.status);
         t.cache == cache && t.fetched &&
         t.reply == (if cache.data.Some? then FromCache(cache.data.value, Some(f))
                     else Fallback(FallbackPayload(stamp), f)))
  {
  }
}

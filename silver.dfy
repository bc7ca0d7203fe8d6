/** The `/silver-price` and `/silver-price-legacy` routes. Both read a silver price per
    tola out of a fetched page, fall back to a default, derive the per-gram and
    per-kilogram rates and serve the result through ONE shared ten-minute cache slot.
    The main route reads the hamropatro page with first-hit-wins scans; the legacy
    route walks a list of source URLs and reads the first page that answers OK. */
module SilverRoute {
  import opened Wrappers
  import opened Text
  import opened Scrape

  /** The main route's price per tola when none can be read (also its fallback). */
  const DEFAULT_PER_TOLA: real := 2850.0

  /** The legacy route's price per tola when none can be read. */
  const LEGACY_DEFAULT_PER_TOLA: real := 2700.0

  const SILVER_URL: string := "https://www.hamropatro.com/gold"

  const FALLBACK_SOURCE: string := "hamropatro.com"

  /** The legacy route's sources, in the order they are tried. */
  const SILVER_URLS: seq<string> := [
    "https://www.livepriceofgold.com/nepal-silver-price-per-tola.html",
    "https://nepalsilverrate.com",
    "https://www.bullionbypost.co.uk/silver-price/"
  ]

  /** The JSON payload (its `currency` is always "NPR" and is not carried). */
  datatype SilverPayload = SilverPayload(source: string, lastUpdated: string, perTola: real, perGram: real, perKg: real)

  function PayloadFor(source: string, stamp: string, perTola: real): SilverPayload {
    SilverPayload(source, stamp, perTola, perTola / TOLA_TO_GRAM, (perTola / TOLA_TO_GRAM) * 1000.0)
  }

  // ---------------------------------------------------------------- main route

  predicate RowNamesSilver(head: string) {
    (Contains(head, "silver") && Contains(head, "tola")) || Contains(head, "चाँदी")
  }

  /** The numeral a `table tr` row offers: the first numeral of the second cell of a
      row whose lowercased first cell names silver per tola. */
  function RowPrice(cells: seq<string>): Option<string> {
    if |cells| >= 2 && RowNamesSilver(ToLower(cells[0])) then FirstMatch(Numeral, cells[1]) else None
  }

  predicate ItemNamesSilver(t: string) {
    (Contains(t, "Silver") && Contains(t, "tola") && !Contains(t, "10g")) || Contains(t, "चाँदी")
  }

  /** The numeral an `<li>` offers: the `Nrs.` numeral of the next item, for an item
      that names silver per tola (case-sensitively, and not a 10-gram price). */
  function ItemPrice(li: ListItem): Option<string> {
    if ItemNamesSilver(li.text) then FirstMatch(NrsPrefixed, li.nextText) else None
  }

  /** One guarded iteration: once `perTola` is truthy the iteration returns at once;
      otherwise an offered numeral overwrites it, even with `NaN`. */
  function Step(v: Option<real>, offered: Option<string>): Option<real> {
    if Truthy(v) then v
    else match offered
      case None => v
      case Some(m) => ParseNumber(m)
  }

  /** A `.each` loop whose body starts with `if (perTola) return`. */
  function ScanFirst<T>(v: Option<real>, xs: seq<T>, offer: T -> Option<string>): Option<real>
    decreases |xs|
  {
    if |xs| == 0 then v else Step(ScanFirst(v, xs[..|xs| - 1], offer), offer(xs[|xs| - 1]))
  }

  /** `perTola` after both scans of the main route, before the default. */
  function MainExtract(page: Page): Option<real> {
    var t := ScanFirst(None, page.rows, RowPrice);
    if Truthy(t) then t else ScanFirst(t, page.items, ItemPrice)
  }

  function MainPerTola(page: Page): real {
    var v := MainExtract(page);
    if Truthy(v) then v.value else DEFAULT_PER_TOLA
  }

  function MainAttempt(fetched: Fetched, stamp: string): Outcome<SilverPayload> {
    match fetched
    case Threw(m) => Failed(Thrown(m))
    case Response(ok, status, page) =>
      if ok then Scraped(PayloadFor(SILVER_URL, stamp, MainPerTola(page))) else Failed(HttpStatus(status))
  }

  function MainFallback(stamp: string): SilverPayload {
    PayloadFor(FALLBACK_SOURCE, stamp, DEFAULT_PER_TOLA)
  }

  /** One `/silver-price` request. */
  function HandleMain(cache: CacheSlot<SilverPayload>, now: int, fetched: Fetched, stamp: string): Turn<SilverPayload> {
    Ladder(cache, now, MainAttempt(fetched, stamp), Some(MainFallback(stamp)))
  }

  // -------------------------------------------------------------- legacy route

  predicate LegacyNamesSilver(head: string) {
    (Contains(head, "silver") && Contains(head, "tola")) || (Contains(head, "चाँदी") && Contains(head, "टोल"))
  }

  /** A row of at least two cells whose lowercased first cell names silver per tola. */
  predicate IsLegacyRow(cells: seq<string>) {
    |cells| >= 2 && LegacyNamesSilver(ToLower(cells[0]))
  }

  /** One legacy table iteration: a silver-per-tola row overwrites `perTola` with
      the parse of its whole second cell. */
  function LegacyStep(v: Option<real>, cells: seq<string>): Option<real> {
    if IsLegacyRow(cells) then ParseNumber(cells[1]) else v
  }

  function LegacyScan(v: Option<real>, rows: seq<seq<string>>): Option<real>
    decreases |rows|
  {
    if |rows| == 0 then v else LegacyStep(LegacyScan(v, rows[..|rows| - 1]), rows[|rows| - 1])
  }

  /** The meta-description fallback: a non-empty description with a numeral
      followed by "NPR" replaces `perTola` with that numeral's parse. */
  function MetaStep(v: Option<real>, meta: Option<string>): Option<real> {
    match meta
    case None => v
    case Some(d) =>
      if |d| == 0 then v
      else match FirstMatch(NprSuffixed, d)
        case None => v
        case Some(m) => ParseNumber(m)
  }

  /** `perTola` after the legacy table scan and meta fallback, before the default. */
  function LegacyExtract(page: Page): Option<real> {
    var t := LegacyScan(None, page.rows);
    if Truthy(t) then t else MetaStep(t, page.metaDescription)
  }

  function LegacyPerTola(page: Page): real {
    var v := LegacyExtract(page);
    if Truthy(v) then v.value else LEGACY_DEFAULT_PER_TOLA
  }

  predicate IsOk(f: Fetched) {
    f.Response? && f.ok
  }

  /** The index of the first source, from `i` on, whose fetch answers OK; `|urls|`
      when none does. A fetch that throws is skipped like a non-OK answer. */
  function FirstOkFrom(urls: seq<string>, fetch: string -> Fetched, i: nat): (k: nat)
    requires i <= |urls|
    ensures i <= k <= |urls|
    decreases |urls| - i
  {
    if i == |urls| then i else if IsOk(fetch(urls[i])) then i else FirstOkFrom(urls, fetch, i + 1)
  }

  /** The URLs the loop fetches: all up to and including the first that answers OK. */
  function Tried(urls: seq<string>, fetch: string -> Fetched): seq<string> {
    var k := FirstOkFrom(urls, fetch, 0);
    if k < |urls| then urls[..k + 1] else urls
  }

  /** The `try` block past the cache test. The loop stops at the first OK answer;
      when there is none, or its body is the empty string, the route fails. */
  function LegacyAttempt(fetch: string -> Fetched, stamp: string): Outcome<SilverPayload> {
    var k := FirstOkFrom(SILVER_URLS, fetch, 0);
    if k == |SILVER_URLS| || fetch(SILVER_URLS[k]).page.blank then Failed(NoSourceReachable)
    else Scraped(PayloadFor(SILVER_URLS[k], stamp, LegacyPerTola(fetch(SILVER_URLS[k]).page)))
  }

  /** One `/silver-price-legacy` request; it has no fallback payload, so a failure
      with nothing cached is a 502. */
  function HandleLegacy(cache: CacheSlot<SilverPayload>, now: int, fetch: string -> Fetched, stamp: string): Turn<SilverPayload> {
    Ladder(cache, now, LegacyAttempt(fetch, stamp), None)
  }

  function LegacyRequests(cache: CacheSlot<SilverPayload>, now: int, fetch: string -> Fetched): seq<string> {
    if cache.Fresh(now) then [] else Tried(SILVER_URLS, fetch)
  }

  // ------------------------------------------------------------------- methods

  /** The main route's two guarded `.each` loops. */
  method ExtractMain(page: Page) returns (perTola: Option<real>)
    ensures perTola == MainExtract(page)
  {
    perTola := None;
    var i := 0;
    while i < |page.rows|
      invariant 0 <= i <= |page.rows|
      invariant perTola == ScanFirst(None, page.rows[..i], RowPrice)
    {
      assert page.rows[..i + 1][..i] == page.rows[..i];
      if !Truthy(perTola) {
        var m := RowPrice(page.rows[i]);
        if m.Some? {
          perTola := ParseNumber(m.value);
        }
      }
      i := i + 1;
    }
    assert page.rows[..i] == page.rows;
    if !Truthy(perTola) {
      ghost var t := perTola;
      var j := 0;
      while j < |page.items|
        invariant 0 <= j <= |page.items|
        invariant perTola == ScanFirst(t, page.items[..j], ItemPrice)
      {
        assert page.items[..j + 1][..j] == page.items[..j];
        if !Truthy(perTola) {
          var m := ItemPrice(page.items[j]);
          if m.Some? {
            perTola := ParseNumber(m.value);
          }
        }
        j := j + 1;
      }
      assert page.items[..j] == page.items;
    }
  }

  /** The legacy table loop and the meta fallback. */
  method ExtractLegacy(page: Page) returns (perTola: Option<real>)
    ensures perTola == LegacyExtract(page)
  {
    perTola := None;
    var i := 0;
    while i < |page.rows|
      invariant 0 <= i <= |page.rows|
      invariant perTola == LegacyScan(None, page.rows[..i])
    {
      assert page.rows[..i + 1][..i] == page.rows[..i];
      if IsLegacyRow(page.rows[i]) {
        perTola := ParseNumber(page.rows[i][1]);
      }
      i := i + 1;
    }
    assert page.rows[..i] == page.rows;
    if !Truthy(perTola) && page.metaDescription.Some? && |page.metaDescription.value| > 0 {
      var m := FirstMatch(NprSuffixed, page.metaDescription.value);
      if m.Some? {
        perTola := ParseNumber(m.value);
      }
    }
  }

  /** The `for (const url of SILVER_URLS)` loop: `html` and `sourceUrl` come from the
      first source that answers OK; `requested` lists the URLs fetched, in order. */
  method FetchFirstOk(fetch: string -> Fetched) returns (found: Option<(string, Page)>, requested: seq<string>)
    ensures var k := FirstOkFrom(SILVER_URLS, fetch, 0);
      found == (if k < |SILVER_URLS| then Some((SILVER_URLS[k], fetch(SILVER_URLS[k]).page)) else None)
    ensures requested == Tried(SILVER_URLS, fetch)
  {
    found, requested := None, [];
    var i := 0;
    while i < |SILVER_URLS|
      invariant 0 <= i <= |SILVER_URLS|
      invariant requested == SILVER_URLS[..i]
      invariant FirstOkFrom(SILVER_URLS, fetch, 0) == FirstOkFrom(SILVER_URLS, fetch, i)
    {
      var url := SILVER_URLS[i];
      var response := fetch(url);
      requested := requested + [url];
      if response.Response? && response.ok {
        found := Some((url, response.page));
        assert requested == SILVER_URLS[..i + 1];
        return;
      }
      i := i + 1;
    }
    assert requested == SILVER_URLS;
  }

  /** The router module: both routes read and write the one `priceCache`. */
  class SilverRouter {
    var priceCache: CacheSlot<SilverPayload>

    constructor()
      ensures priceCache == CacheSlot(0, None)
    {
      priceCache := CacheSlot(0, None);
    }

    /** `GET /silver-price`; `requested` tells whether the page was fetched. */
    method GetSilverPrice(now: int, fetched: Fetched, stamp: string) returns (reply: Reply<SilverPayload>, requested: bool)
      modifies this
      ensures Turn(priceCache, reply, requested) == HandleMain(old(priceCache), now, fetched, stamp)
    {
      if priceCache.Fresh(now) {
        return FromCache(priceCache.data.value, None), false;
      }
      requested := true;
      var failure: Failure;
      match fetched {
        case Threw(m) =>
          failure := Thrown(m);
        case Response(ok, status, page) =>
          if ok {
            var perTola := ExtractMain(page);
            if !Truthy(perTola) {
              perTola := Some(DEFAULT_PER_TOLA);
            }
            var payload := PayloadFor(SILVER_URL, stamp, perTola.value);
            priceCache := CacheSlot(now, Some(payload));
            return Served(payload), true;
          }
          failure := HttpStatus(status);
      }
      if priceCache.data.Some? {
        reply := FromCache(priceCache.data.value, Some(failure));
      } else {
        reply := Fallback(MainFallback(stamp), failure);
      }
    }

    /** `GET /silver-price-legacy`; `requested` lists the source URLs fetched. */
    method GetSilverPriceLegacy(now: int, fetch: string -> Fetched, stamp: string)
      returns (reply: Reply<SilverPayload>, requested: seq<string>)
      modifies this
      ensures var t := HandleLegacy(old(priceCache), now, fetch, stamp);
        priceCache == t.cache && reply == t.reply
      ensures requested == LegacyRequests(old(priceCache), now, fetch)
    {
      if priceCache.Fresh(now) {
        return FromCache(priceCache.data.value, None), [];
      }
      var found;
      found, requested := FetchFirstOk(fetch);
      if found.Some? && !found.value.1.blank {
        var perTola := ExtractLegacy(found.value.1);
        if !Truthy(perTola) {
          perTola := Some(LEGACY_DEFAULT_PER_TOLA);
        }
        var payload := PayloadFor(found.value.0, stamp, perTola.value);
        priceCache := CacheSlot(now, Some(payload));
        return Served(payload), requested;
      }
      if priceCache.data.Some? {
        reply := FromCache(priceCache.data.value, Some(NoSourceReachable));
      } else {
        reply := BadGateway(NoSourceReachable);
      }
    }
  }

  // -------------------------------------------------------------------- lemmas

  /** Once the variable is truthy no later element changes it. */
  lemma {:induction false} ScanFirstKeepsTruthy<T>(v: Option<real>, xs: seq<T>, offer: T -> Option<string>)
    requires Truthy(v)
    ensures ScanFirst(v, xs, offer) == v
    decreases |xs|
  {
    if |xs| > 0 {
      ScanFirstKeepsTruthy(v, xs[..|xs| - 1], offer);
    }
  }

  /** Without any element offering a truthy price, the scan ends falsy. */
  lemma {:induction false} ScanFirstStaysFalsy<T>(v: Option<real>, xs: seq<T>, offer: T -> Option<string>)
    requires !Truthy(v)
    requires forall j :: 0 <= j < |xs| ==> offer(xs[j]).None? || !Truthy(ParseNumber(offer(xs[j]).value))
    ensures !Truthy(ScanFirst(v, xs, offer))
    decreases |xs|
  {
    if |xs| > 0 {
      var n := |xs| - 1;
      assert forall j :: 0 <= j < n ==> xs[..n][j] == xs[j];
      ScanFirstStaysFalsy(v, xs[..n], offer);
    }
  }

  /** First hit wins: the scan ends with the price offered by the FIRST element whose
      offered numeral parses to a truthy number. */
  lemma {:induction false} ScanFirstTruthyWins<T>(v: Option<real>, xs: seq<T>, offer: T -> Option<string>, k: nat)
    requires !Truthy(v)
    requires k < |xs| && offer(xs[k]).Some? && Truthy(ParseNumber(offer(xs[k]).value))
    requires forall j :: 0 <= j < k ==> offer(xs[j]).None? || !Truthy(ParseNumber(offer(xs[j]).value))
    ensures ScanFirst(v, xs, offer) == ParseNumber(offer(xs[k]).value)
    decreases |xs|
  {
    var n := |xs| - 1;
    assert forall j :: 0 <= j < n ==> xs[..n][j] == xs[j];
    if k < n {
      ScanFirstTruthyWins(v, xs[..n], offer, k);
      ScanFirstKeepsTruthy(ScanFirst(v, xs[..n], offer), [xs[n]], offer);
    } else {
      ScanFirstStaysFalsy(v, xs[..n], offer);
    }
  }

  /** The main route's price per tola is the first truthy table price, else the first
      truthy list price, else 2850; so it is never zero. */
  lemma MainPerTolaCases(page: Page)
    ensures var t := ScanFirst(None, page.rows, RowPrice);
      MainPerTola(page) != 0.0 &&
      (Truthy(t) ==> MainPerTola(page) == t.value) &&
      (!Truthy(t) && Truthy(ScanFirst(t, page.items, ItemPrice)) ==>
         MainPerTola(page) == ScanFirst(t, page.items, ItemPrice).value) &&
      (!Truthy(t) && !Truthy(ScanFirst(t, page.items, ItemPrice)) ==> MainPerTola(page) == DEFAULT_PER_TOLA)
  {
  }

  /** No early exit in the legacy table loop: the LAST silver-per-tola row decides. */
  lemma {:induction false} LegacyScanLastRowWins(v: Option<real>, rows: seq<seq<string>>, k: nat)
    requires k < |rows| && IsLegacyRow(rows[k])
    requires forall j :: k < j < |rows| ==> !IsLegacyRow(rows[j])
    ensures LegacyScan(v, rows) == ParseNumber(rows[k][1])
    decreases |rows|
  {
    var n := |rows| - 1;
    if k < n {
      assert forall j :: k < j < n ==> rows[..n][j] == rows[j];
      assert rows[..n][k] == rows[k];
      LegacyScanLastRowWins(v, rows[..n], k);
    }
  }

  /** The legacy price per tola is the table's price when truthy, else the meta
      description's when truthy, else 2700. */
  lemma LegacyPerTolaCases(page: Page)
    ensures var t := LegacyScan(None, page.rows);
      LegacyPerTola(page) != 0.0 &&
      (Truthy(t) ==> LegacyPerTola(page) == t.value) &&
      (!Truthy(t) && Truthy(MetaStep(t, page.metaDescription)) ==>
         LegacyPerTola(page) == MetaStep(t, page.metaDescription).value) &&
      (!Truthy(t) && !Truthy(MetaStep(t, page.metaDescription)) ==> LegacyPerTola(page) == LEGACY_DEFAULT_PER_TOLA)
  {
  }

  /** `FirstOkFrom` finds exactly the first OK answer: `k` is its result if and only
      if every source before `k` fails and `k` answers OK (or is past the end). */
  lemma {:induction false} FirstOkFromIff(urls: seq<string>, fetch: string -> Fetched, i: nat, k: nat)
    requires i <= k <= |urls|
    ensures FirstOkFrom(urls, fetch, i) == k <==>
      (forall j :: i <= j < k ==> !IsOk(fetch(urls[j]))) && (k < |urls| ==> IsOk(fetch(urls[k])))
    decreases |urls| - i
  {
    if i < |urls| && !IsOk(fetch(urls[i])) && i < k {
      FirstOkFromIff(urls, fetch, i + 1, k);
    }
  }

  /** The legacy route serves the first source that answers OK with a non-empty body,
      naming that source; an OK answer with an empty body fails the request even if
      a later source would have answered. */
  lemma LegacyServesFirstOk(fetch: string -> Fetched, stamp: string, k: nat)
    requires k < |SILVER_URLS| && IsOk(fetch(SILVER_URLS[k]))
    requires forall j :: 0 <= j < k ==> !IsOk(fetch(SILVER_URLS[j]))
    ensures var page := fetch(SILVER_URLS[k]).page;
      LegacyAttempt(fetch, stamp) ==
        if page.blank then Failed(NoSourceReachable)
        else Scraped(PayloadFor(SILVER_URLS[k], stamp, LegacyPerTola(page)))
    ensures Tried(SILVER_URLS, fetch) == SILVER_URLS[..k + 1]
  {
    FirstOkFromIff(SILVER_URLS, fetch, 0, k);
  }

  /** With no source answering OK every URL is tried, and with nothing cached the
      answer is a 502. */
  lemma LegacyAllFail(cache: CacheSlot<SilverPayload>, now: int, fetch: string -> Fetched, stamp: string)
    requires !cache.Fresh(now) && cache.data.None?
    requires forall j :: 0 <= j < |SILVER_URLS| ==> !IsOk(fetch(SILVER_URLS[j]))
    ensures HandleLegacy(cache, now, fetch, stamp) == Turn(cache, BadGateway(NoSourceReachable), true)
    ensures LegacyRequests(cache, now, fetch) == SILVER_URLS
  {
    FirstOkFromIff(SILVER_URLS, fetch, 0, |SILVER_URLS|);
  }

  /** The two routes share the slot: a legacy scrape at `now` answers every
      `/silver-price` request of the next ten minutes, without a fetch. */
  lemma LegacyScrapeServesMain(cache: CacheSlot<SilverPayload>, now: int, fetch: string -> Fetched, stamp: string,
                               later: int, fetched: Fetched, stamp2: string)
    requires !cache.Fresh(now) && LegacyAttempt(fetch, stamp).Scraped?
    requires now <= later < now + CACHE_TTL
    ensures var t := HandleLegacy(cache, now, fetch, stamp);
      HandleMain(t.cache, later, fetched, stamp2) == Turn(t.cache, FromCache(LegacyAttempt(fetch, stamp).payload, None), false)
  {
  }

  /** The per-gram rate times 11.664 is the per-tola rate, and the per-kilogram rate
      is a thousand per-gram rates. */
  lemma PayloadConsistent(source: string, stamp: string, perTola: real)
    ensures var p := PayloadFor(source, stamp, perTola);
      p.perTola == perTola && p.perGram * TOLA_TO_GRAM == perTola && p.perKg == 1000.0 * p.perGram
  {
  }
}

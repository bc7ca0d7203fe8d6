/** What the gold and silver routes share: the cache slot and its ten-minute
    window, the tola-to-gram factor, `parseNumber`, the fetched page as data,
    and the three regular expressions the routes use to pull a price out of text. */
module Scrape {
  import opened Wrappers
  import opened Text

  /** The cache window, in milliseconds (ten minutes). */
  const CACHE_TTL: int := 10 * 60 * 1000

  /** Grams in one tola. */
  const TOLA_TO_GRAM: real := 11.664

  /** One `<li>` element: its trimmed text and the trimmed text of the `<li>`
      right after it ("" when it has no next `<li>` sibling). */
  datatype ListItem = ListItem(text: string, nextText: string)

  /** A fetched page as the routes see it: whether the body was the empty string,
      the trimmed cell texts of every `table tr` row in document order, every
      `<li>` in document order, and the content of `meta[name="Description"]`. */
  datatype Page = Page(blank: bool, rows: seq<seq<string>>, items: seq<ListItem>, metaDescription: Option<string>)

  /** The outcome of one `fetch`: it threw, or it produced a response. */
  datatype Fetched = Threw(message: string) | Response(ok: bool, status: int, page: Page)

  /** Why a scrape failed; carried into the `error` field of a degraded response. */
  datatype Failure = Thrown(message: string) | HttpStatus(status: int) | NoSourceReachable

  /** A route's module-level `priceCache`: `{ ts, data }`, replaced wholesale. */
  datatype CacheSlot<P> = CacheSlot(ts: int, data: Option<P>) {

    /** The cache-hit test: data present and younger than the window (strictly). */
    predicate Fresh(now: int) {
      data.Some? && now - ts < CACHE_TTL
    }
  }

  /** How a route answers: a fresh scrape, the cached payload (with the error that
      sent the route to its cache, if any), a fallback payload built from the route's
      default price, or an HTTP 502 carrying the failure. */
  datatype Reply<P> = Served(payload: P) | FromCache(payload: P, error: Option<Failure>)
                    | Fallback(payload: P, reason: Failure) | BadGateway(details: Failure)

  /** What the `try` block would produce once past the cache test: a payload, or the
      failure it throws. */
  datatype Outcome<P> = Scraped(payload: P) | Failed(failure: Failure)

  /** One request's effect: the new cache slot, the reply, and whether a fetch was made. */
  datatype Turn<P> = Turn(cache: CacheSlot<P>, reply: Reply<P>, fetched: bool)

  /** The cache ladder every scraping route follows: a fresh cache answers without
      fetching; a scrape that succeeds replaces the slot wholesale; a failure leaves
      the slot alone and answers with any cached data, whatever its age, else with the
      route's fallback payload, else (no fallback) with 502. */
  function Ladder<P>(cache: CacheSlot<P>, now: int, outcome: Outcome<P>, fallback: Option<P>): Turn<P> {
    if cache.Fresh(now) then Turn(cache, FromCache(cache.data.value, None), false)
    else match outcome
      case Scraped(p) => Turn(CacheSlot(now, Some(p)), Served(p), true)
      case Failed(f) =>
        var reply :=
          if cache.data.Some? then FromCache(cache.data.value, Some(f))
          else if fallback.Some? then Fallback(fallback.value, f)
          else BadGateway(f);
        Turn(cache, reply, true)
  }

  /** A fetch happens exactly when the cache is not fresh; a fresh cache answers with
      its own payload and is left as it was. */
  lemma LadderFetchesIffStale<P>(cache: CacheSlot<P>, now: int, outcome: Outcome<P>, fallback: Option<P>)
    ensures Ladder(cache, now, outcome, fallback).fetched <==> !cache.Fresh(now)
    ensures cache.Fresh(now) ==> Ladder(cache, now, outcome, fallback) == Turn(cache, FromCache(cache.data.value, None), false)
  {
  }

  /** The initial slot `{ ts: 0, data: null }` is never fresh. */
  lemma InitialSlotMisses<P>(slot: CacheSlot<P>, now: int)
    requires slot == CacheSlot(0, None)
    ensures !slot.Fresh(now)
  {
  }

  /** Only a successful scrape writes the slot, and it writes `{ ts: now, data: payload }`. */
  lemma LadderWritesOnlyOnSuccess<P>(cache: CacheSlot<P>, now: int, outcome: Outcome<P>, fallback: Option<P>)
    ensures var t := Ladder(cache, now, outcome, fallback);
      t.cache == (if !cache.Fresh(now) && outcome.Scraped? then CacheSlot(now, Some(outcome.payload)) else cache)
  {
  }

  /** On failure the route answers from any cached data regardless of its age, and
      only without cached data from its fallback (or with 502 when it has none). */
  lemma LadderFailure<P>(cache: CacheSlot<P>, now: int, f: Failure, fallback: Option<P>)
    requires !cache.Fresh(now)
    ensures var r := Ladder(cache, now, Failed(f), fallback).reply;
      (cache.data.Some? ==> r == FromCache(cache.data.value, Some(f))) &&
      (cache.data.None? && fallback.Some? ==> r == Fallback(fallback.value, f)) &&
      (cache.data.None? && fallback.None? ==> r == BadGateway(f))
  {
  }

  /** After a successful scrape at `now`, every request in the next ten minutes gets
      that payload back from the cache without fetching, whatever the source would say. */
  lemma LadderRepeatHits<P>(cache: CacheSlot<P>, now: int, p: P, fallback: Option<P>,
                            later: int, outcome: Outcome<P>, fallback2: Option<P>)
    requires !cache.Fresh(now)
    requires now <= later < now + CACHE_TTL
    ensures var t := Ladder(cache, now, Scraped(p), fallback);
      Ladder(t.cache, later, outcome, fallback2) == Turn(t.cache, FromCache(p, None), false)
  {
  }

  /** JavaScript truthiness of a number variable that may be `null` or `NaN`. */
  predicate Truthy(x: Option<real>) {
    x.Some? && x.value != 0.0
  }

  predicate IsSeparator(c: char) {
    c == ',' || IsSpace(c)
  }

  /** `String(str).replace(/[,\s]/g, '')` */
  function StripSeparators(s: string): (r: string)
    ensures forall i :: 0 <= i < |r| ==> !IsSeparator(r[i])
    ensures |r| <= |s|
  {
    if |s| == 0 then []
    else (if IsSeparator(s[0]) then [] else [s[0]]) + StripSeparators(s[1..])
  }

  lemma {:induction false} StripSeparatorsConcat(a: string, b: string)
    ensures StripSeparators(a + b) == StripSeparators(a) + StripSeparators(b)
    decreases |a|
  {
    if |a| > 0 {
      assert (a + b)[1..] == a[1..] + b;
      StripSeparatorsConcat(a[1..], b);
    } else {
      assert a + b == b;
    }
  }

  /** `parseNumber`, shared verbatim by the gold and silver routes: drop every
      comma and white-space character, then `parseFloat`. */
  function ParseNumber(s: string): Option<real> {
    ParseFloat(StripSeparators(s))
  }

  /** A comma or a white-space character inserted anywhere leaves `parseNumber` unchanged. */
  lemma ParseNumberIgnoresSeparator(s: string, i: nat, sep: char)
    requires i <= |s| && IsSeparator(sep)
    ensures ParseNumber(s[..i] + [sep] + s[i..]) == ParseNumber(s)
  {
    var a, b := s[..i], s[i..];
    assert [sep][1..] == [];
    assert StripSeparators([sep]) == [] + StripSeparators([]);
    calc {
      StripSeparators(a + [sep] + b);
      { StripSeparatorsConcat(a + [sep], b); }
      StripSeparators(a + [sep]) + StripSeparators(b);
      { StripSeparatorsConcat(a, [sep]); }
      StripSeparators(a) + StripSeparators([sep]) + StripSeparators(b);
      StripSeparators(a) + StripSeparators(b);
      { StripSeparatorsConcat(a, b); }
      StripSeparators(a + b);
      { assert a + b == s; }
      StripSeparators(s);
    }
  }

  /** Text without separators passes through unchanged. */
  lemma {:induction false} StripSeparatorsNone(s: string)
    requires forall i :: 0 <= i < |s| ==> !IsSeparator(s[i])
    ensures StripSeparators(s) == s
  {
    if |s| > 0 {
      StripSeparatorsNone(s[1..]);
      assert [s[0]] + s[1..] == s;
    }
  }

  predicate IsNumeralChar(c: char) {
    IsDigit(c) || c == ','
  }

  /** The three price patterns of the routes:
      Numeral      /([0-9,]+\.?[0-9]*)/
      NrsPrefixed  /Nrs\.\s*([0-9,]+\.?[0-9]*)/
      NprSuffixed  /([0-9,]+(?:\.[0-9]+)?)\s*NPR/
      each answering its capture group. */
  datatype Pattern = Numeral | NrsPrefixed | NprSuffixed

  /** End of the greedy `[0-9,]+\.?[0-9]*` that starts at `i`. */
  function NumeralEnd(s: string, i: nat): (j: nat)
    requires i < |s| && IsNumeralChar(s[i])
    ensures i < j <= |s|
  {
    var k := RunEnd(s, i, IsNumeralChar);
    if k < |s| && s[k] == '.' then RunEnd(s, k + 1, IsDigit) else k
  }

  /** The capture of `p` for a match that starts exactly at `i`. Every greedy
      part is followed by a character it cannot give back usefully, so the match
      at a given start is unique and backtracking never changes it. */
  function MatchAt(p: Pattern, s: string, i: nat): Option<string>
    requires i < |s|
  {
    match p
    case Numeral =>
      if IsNumeralChar(s[i]) then Some(s[i..NumeralEnd(s, i)]) else None
    case NrsPrefixed =>
      if StartsWith(s[i..], "Nrs.") then
        var j := RunEnd(s, i + 4, IsSpace);
        if j < |s| && IsNumeralChar(s[j]) then Some(s[j..NumeralEnd(s, j)]) else None
      else None
    case NprSuffixed =>
      if IsNumeralChar(s[i]) then
        var k := RunEnd(s, i, IsNumeralChar);
        var f := if k + 1 < |s| && s[k] == '.' && IsDigit(s[k + 1]) then RunEnd(s, k + 1, IsDigit) else k;
        var n := RunEnd(s, f, IsSpace);
        if StartsWith(s[n..], "NPR") then Some(s[i..f]) else None
      else None
  }

  function SearchFrom(p: Pattern, s: string, i: nat): Option<string>
    requires i <= |s|
    decreases |s| - i
  {
    if i == |s| then None
    else if MatchAt(p, s, i).Some? then MatchAt(p, s, i)
    else SearchFrom(p, s, i + 1)
  }

  /** `s.match(p)`: the capture of the leftmost match, `None` for no match. */
  function FirstMatch(p: Pattern, s: string): Option<string> {
    SearchFrom(p, s, 0)
  }

  lemma {:induction false} SearchSkips(p: Pattern, s: string, j: nat, i: nat)
    requires j <= i <= |s|
    requires forall k :: j <= k < i ==> MatchAt(p, s, k).None?
    ensures SearchFrom(p, s, j) == SearchFrom(p, s, i)
    decreases i - j
  {
    if j < i {
      SearchSkips(p, s, j + 1, i);
    }
  }

  /** The answer is the match at the leftmost position where one starts. */
  lemma FirstMatchLeftmost(p: Pattern, s: string, i: nat)
    requires i < |s| && MatchAt(p, s, i).Some?
    requires forall k :: 0 <= k < i ==> MatchAt(p, s, k).None?
    ensures FirstMatch(p, s) == MatchAt(p, s, i)
  {
    SearchSkips(p, s, 0, i);
  }

  /** No position starts a match: the pattern does not match. */
  lemma FirstMatchNone(p: Pattern, s: string)
    requires forall k :: 0 <= k < |s| ==> MatchAt(p, s, k).None?
    ensures FirstMatch(p, s) == None
  {
    SearchSkips(p, s, 0, |s|);
  }

  /** A found capture is one that some position produces. */
  lemma {:induction false} SearchFound(p: Pattern, s: string, j: nat) returns (i: nat)
    requires j <= |s| && SearchFrom(p, s, j).Some?
    ensures j <= i < |s| && SearchFrom(p, s, j) == MatchAt(p, s, i)
    decreases |s| - j
  {
    if MatchAt(p, s, j).Some? {
      i := j;
    } else {
      i := SearchFound(p, s, j + 1);
    }
  }

  /** `/([0-9,]+\.?[0-9]*)/` matches exactly the texts holding a digit or a comma,
      and its capture starts at the first of them. */
  lemma FirstNumeralAt(s: string, i: nat)
    requires i < |s| && IsNumeralChar(s[i])
    requires forall k :: 0 <= k < i ==> !IsNumeralChar(s[k])
    ensures FirstMatch(Numeral, s) == Some(s[i..NumeralEnd(s, i)])
  {
    FirstMatchLeftmost(Numeral, s, i);
  }
}

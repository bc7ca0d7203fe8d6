# Gold and silver price tracker — a Dafny model

The system is a small Express application for Nepalese gold and silver prices. It has four parts:
- Two server routes (`/gold-price`, `/silver-price`, plus `/silver-price-legacy`) scrape a price per tola from web pages, fill in defaults and derived rates, and serve the result through a ten-minute in-memory cache.
- An account module issues and checks login tokens and gates admin requests.
- A jewelry inventory stores items with an optional image file.
- A browser client (`MetalPriceTracker`, in a current and an older version) converts weights and purities into prices, keeps the last known live price, accepts a manual override and charts the last 20 prices.

The model follows the code file by file:

| module | file | models |
|---|---|---|
| `Text` | `text.dfy` | `String.includes`, ASCII `toLowerCase`, JavaScript `parseFloat` and `parseInt` on decimal text |
| `Scrape` | `scrape.dfy` | what the two price routes share: `parseNumber`, the three price regular expressions as leftmost-match searches, the fetched page as data, the cache slot and the cache ladder |
| `GoldRoute` | `gold.dfy` | `src/routes/gold.js`: the two `.each` scans as a method with loop invariants, the defaults, the derived rates, and the router's `priceCache` as a class field |
| `SilverRoute` | `silver.dfy` | `src/routes/silver.js`: the first-hit-wins scans, the legacy URL loop, the meta-description fallback, and the ONE cache slot both routes share |
| `Auth` | `auth.dfy` | `src/routes/auth.js`: token issue and check, `requireAuth` / `requireAdmin` on a request object, signup and the two logins over a `users` table |
| `Jewelry` | `jewelry.dfy` | `src/routes/jewelry.js`: POST, GET by id, PUT and DELETE over a table of rows, the image-URL rule and which image file gets deleted |
| `Calculator` | `calculator.dfy` | the tables and arithmetic both clients share, and the 20-point chart buffer |
| `Tracker` | `tracker.dfy` | `public/app.js`: the client class, its live refresh, manual price, working costs, calculator and jewelry total |
| `LegacyTracker` | `legacy_tracker.dfy` | `app.js`: the older client class with its clamped random walk |

The model treats the outside world as inputs:
- JavaScript numbers are exact `real`s. `NaN`, `null` and `undefined` are `None`.
- `Date.now()`, `new Date().toISOString()`, `Math.random()` and chart time labels are parameters.
- A fetch outcome is a value: it threw, or it returned a status and a page.
- A page is its table rows (trimmed cell texts), its `<li>` items (each with the text of the next `<li>`) and its meta description.
- Each handler takes one request at a time.
- The databases are a map (jewelry) or a sequence (users) plus an autoincrement counter.
- A deleted image file is reported in the handler's result rather than deleted.

## Model

| member | source | states |
|---|---|---|
| `Text.ContainsAt` | src/routes/gold.js:56-59 | `includes` holds whenever the substring occurs at some position |
| `Text.ContainsWitness` | src/routes/gold.js:56-59 | conversely, when `includes` holds, the substring occurs at a position it returns |
| `Text.ParseFloatDigits` | src/routes/gold.js:12-14 | `parseFloat` of a run of digits is that number |
| `Text.ParseFloatPoint` | src/routes/silver.js:12-14 | `parseFloat` of digits with one decimal point is the integer part plus the fraction |
| `Text.ParseFloatNaN` | public/app.js:362-368 | text with no digit and no point parses to `NaN` |
| `Scrape.LadderFetchesIffStale` | src/routes/gold.js:19-22 | a fetch happens exactly when the cache is not fresh (data present and younger than 600000 ms, strictly); a fresh cache answers with its payload, marked cached, unchanged |
| `Scrape.InitialSlotMisses` | src/routes/gold.js:8-9 | the initial slot `{ ts: 0, data: null }` is never fresh |
| `Scrape.LadderWritesOnlyOnSuccess` | src/routes/gold.js:108-116 | the slot becomes `{ ts: now, data: payload }` exactly after a successful scrape; every other path leaves it |
| `Scrape.LadderFailure` | src/routes/gold.js:110-137 | a failure answers with any cached data whatever its age; without it, with the fallback payload; without a fallback, with 502 |
| `Scrape.LadderRepeatHits` | src/routes/silver.js:19-22 | after a scrape at `now`, every request before `now + 600000` gets that payload from the cache without fetching |
| `Scrape.StripSeparators` | src/routes/silver.js:13 | the result holds no comma and no white space and is no longer than the input |
| `Scrape.StripSeparatorsNone` | src/routes/gold.js:13 | text without commas or white space is left unchanged |
| `Scrape.ParseNumberIgnoresSeparator` | src/routes/silver.js:12-14 | inserting a comma or a white-space character anywhere leaves `parseNumber` unchanged |
| `Scrape.NumeralEnd` | src/routes/gold.js:57 | the greedy numeral `[0-9,]+\.?[0-9]*` starting at a digit or comma is non-empty and within the text |
| `Scrape.FirstMatchLeftmost` | src/routes/gold.js:75 | `match` answers the capture at the leftmost position where a match starts |
| `Scrape.FirstMatchNone` | src/routes/gold.js:78-79 | with no position starting a match, `match` is `null` |
| `Scrape.FirstNumeralAt` | src/routes/gold.js:57-58 | `/([0-9,]+\.?[0-9]*)/` captures the numeral starting at the first digit or comma |
| `GoldRoute.Round2` | src/routes/gold.js:91 | `Math.round(x * 100) / 100` lies within half a hundredth of `x` |
| `GoldRoute.ExtractPrices` | src/routes/gold.js:45-82 | the two `.each` loops compute exactly the specified scan: the table, then the list items only when 24K is still falsy |
| `GoldRoute.GoldRouter.constructor` | src/routes/gold.js:9 | the cache starts as `{ ts: 0, data: null }` |
| `GoldRoute.GoldRouter.GetGoldPrice` | src/routes/gold.js:17-137 | the handler's reply, cache write and fetch are those of the cache ladder over the scrape |
| `GoldRoute.ScanLastHitWins` | src/routes/gold.js:49-64 | with no early exit, a grade's price comes from the LAST row or item naming that grade |
| `GoldRoute.ScanNoHitKeeps` | src/routes/gold.js:68-81 | a scan with no hit on a grade leaves that grade's variable as it found it |
| `GoldRoute.ItemsIgnoredAfterTableHit` | src/routes/gold.js:67-82 | the list items are not read when the table gave a truthy 24K price |
| `GoldRoute.PayloadPrices` | src/routes/gold.js:84-92 | 24K is the scraped price when truthy, else 109500, and never 0; 22K is the scraped price when truthy, else 24K × 0.9167 rounded to hundredths |
| `GoldRoute.RatesConsistent` | src/routes/gold.js:94-105 | per gram × 11.664 = per tola for every grade; 21K = 0.875 × 24K and 18K = 0.75 × 24K, per tola and per gram |
| `GoldRoute.Default22K` | src/routes/gold.js:119-121 | the fallback 22K price is 100378.65 |
| `GoldRoute.FallbackIsEmptyScrape` | src/routes/gold.js:118-136 | the `catch` fallback has exactly the rates of a scrape of an empty page |
| `GoldRoute.HandleCases` | src/routes/gold.js:17-137 | fresh cache: cached payload, no fetch; OK page: scraped and cached; thrown fetch or non-OK status: slot untouched, cached data, else fallback, each carrying the thrown message or the status |
| `SilverRoute.FirstOkFrom` | src/routes/silver.js:144-160 | the index of the first OK source lies between the start and the end of the list |
| `SilverRoute.FirstOkFromIff` | src/routes/silver.js:144-160 | `k` is the first OK source exactly when every earlier source failed (threw or not OK) and `k` answered OK |
| `SilverRoute.ExtractMain` | src/routes/silver.js:41-75 | the two guarded `.each` loops compute the specified first-hit-wins scans |
| `SilverRoute.ExtractLegacy` | src/routes/silver.js:169-196 | the legacy table loop and meta fallback compute the specified extraction |
| `SilverRoute.FetchFirstOk` | src/routes/silver.js:141-160 | the URL loop stops at the first OK answer, returns its URL and page, and has fetched exactly the URLs up to it |
| `SilverRoute.SilverRouter.constructor` | src/routes/silver.js:9 | the shared cache starts as `{ ts: 0, data: null }` |
| `SilverRoute.SilverRouter.GetSilverPrice` | src/routes/silver.js:17-124 | `/silver-price` replies and writes the shared slot as the cache ladder with the 2850 fallback |
| `SilverRoute.SilverRouter.GetSilverPriceLegacy` | src/routes/silver.js:127-232 | `/silver-price-legacy` replies and writes the same slot as the ladder with no fallback, and fetches only on a cache miss |
| `SilverRoute.ScanFirstKeepsTruthy` | src/routes/silver.js:44-45 | once the price is truthy, no later row or item changes it |
| `SilverRoute.ScanFirstStaysFalsy` | src/routes/silver.js:61-75 | with no element offering a truthy price, the scan ends falsy |
| `SilverRoute.ScanFirstTruthyWins` | src/routes/silver.js:44-58 | the scan ends with the price of the FIRST element offering a truthy one |
| `SilverRoute.MainPerTolaCases` | src/routes/silver.js:41-81 | the price is the first truthy table price, else the first truthy list price, else 2850, and never 0 |
| `SilverRoute.LegacyScanLastRowWins` | src/routes/silver.js:172-185 | the legacy table loop has no early exit: the LAST silver-per-tola row decides |
| `SilverRoute.LegacyPerTolaCases` | src/routes/silver.js:187-201 | the legacy price is the table's when truthy, else the meta description's when truthy, else 2700, and never 0 |
| `SilverRoute.LegacyServesFirstOk` | src/routes/silver.js:141-166 | the first OK source is served and named, or the request fails if its body is empty; the URLs up to it are fetched |
| `SilverRoute.LegacyAllFail` | src/routes/silver.js:162-230 | when no source answers OK, every URL is tried, and with nothing cached the reply is 502 |
| `SilverRoute.LegacyScrapeServesMain` | src/routes/silver.js:216 | a legacy scrape fills the slot `/silver-price` reads, which then answers from it for ten minutes without fetching |
| `SilverRoute.PayloadConsistent` | src/routes/silver.js:83-93 | per gram × 11.664 = per tola, and per kilogram = 1000 × per gram |
| `Auth.TokenRoundTrip` | src/routes/auth.js:13-26 | decoding an issued token gives back exactly its payload |
| `Auth.VerifyIssuedToken` | src/routes/auth.js:24-35 | an issued token verifies to its own user id, e-mail, admin flag and time while it is at most 604800000 ms old, and is refused after |
| `Auth.DecodeIff` | src/routes/auth.js:25-34 | decoding accepts exactly the texts made of a role letter, digits, a colon, digits, a colon and an e-mail, and yields the payload they spell |
| `Auth.VerifyTokenIff` | src/routes/auth.js:25-34 | `verifyToken` returns a payload exactly for texts of token shape at most seven days old, and then the payload they spell; anything else, the empty text included, is refused without an error |
| `Auth.Request.constructor` | src/routes/auth.js:57 | a request starts without `req.user` |
| `Auth.Request.RequireAuth` | src/routes/auth.js:38-53 | the gate's decision is the specified one; on success `req.user` is the payload; on a 401 it is untouched |
| `Auth.Request.RequireAdmin` | src/routes/auth.js:56-61 | 403 unless `req.user` is set and is an admin |
| `Auth.AuthenticateIff` | src/routes/auth.js:38-53 | the request passes exactly with "Bearer " and a token that verifies, and `req.user` is then its payload; a missing or differently prefixed header is "Authentication required" |
| `Auth.AdminAccessIff` | src/routes/auth.js:38-61 | an issued token gets past both gates exactly when it was issued as admin and is at most seven days old |
| `Auth.FindUser` | src/routes/auth.js:133-137 | a found user is in the table with the given e-mail and password hash (and is an admin for the admin query) |
| `Auth.UserTable.constructor` | src/routes/auth.js:100-106 | the table starts empty with the first id 1 |
| `Auth.UserTable.Signup` | src/routes/auth.js:64-121 | a missing field, a password under 6 characters or a taken e-mail is a 400 that changes nothing; otherwise the user is appended with the lowercased e-mail, the hash and no admin rights |
| `Auth.UserTable.Login` | src/routes/auth.js:124-160 | a token is issued exactly when both fields are given and some row has the lowercased e-mail and the password's hash; the reply's user and the decoded token then carry that row's id, e-mail and admin flag; a missing field is a 400 "Email and password are required", no matching row a 401 "Invalid email or password" |
| `Auth.UserTable.AdminLogin` | src/routes/auth.js:163-199 | a token is issued exactly when both fields are given and an admin row has the lowercased e-mail and the password's hash; the reply and the decoded token carry that row's id and e-mail and say admin; a missing field is a 400, anything else (a non-admin's correct password included) a 401 "Invalid admin credentials" |
| `Auth.SignupKeepsEmailsUnique` | src/routes/auth.js:80-88 | a signup that passes validation keeps the table's e-mail addresses unique |
| `Auth.SignupThenLogin` | src/routes/auth.js:100-137 | after a signup, a login with the same password and any letter case of the e-mail finds the new non-admin account |
| `Jewelry.Basename` | src/routes/jewelry.js:85 | the base name holds no `/` |
| `Jewelry.BasenameOfStoredFile` | src/routes/jewelry.js:119 | the base name of a file stored in any directory is the file's name |
| `Jewelry.ImageUrlIff` | src/routes/jewelry.js:82-87 | a row has an image URL exactly when it has an image path; cloud: the path itself; local: directly under `/uploads/` |
| `Jewelry.PostCases` | src/routes/jewelry.js:128-154 | without a name or a weight: 400 and no change; an insert adds exactly one row under a fresh id and leaves every other row; a refused upload or a NaN weight inserts nothing |
| `Jewelry.PostDefaults` | src/routes/jewelry.js:129 | absent fields default to unit "tola", working cost 0, metal "silver" and purity 24 |
| `Jewelry.PutCases` | src/routes/jewelry.js:157-209 | a missing id is a 404 that changes nothing; only row `id` changes; without an upload the image path is kept; the old file is deleted exactly on a successful update meeting the unlink condition |
| `Jewelry.PutAsWrittenDeletesLiveImage` | src/routes/jewelry.js:173-200 | as written, a failing update still deletes the old image, which the row keeps referencing |
| `Jewelry.PutNeverDeletesLiveImage` | src/routes/jewelry.js:173-186 | corrected, a deleted image is never the one the row now references |
| `Jewelry.DeleteCases` | src/routes/jewelry.js:212-259 | a missing id is a 404; otherwise exactly that id goes, other rows stay, and the file is deleted exactly when the row has a path and storage is local |
| `Jewelry.DeleteThenGet` | src/routes/jewelry.js:105-113 | a deleted item then reads back as 404 |
| `Jewelry.JewelryTable.constructor` | src/database.js:12-16 | the table starts empty, the first autoincrement id is 1, and the counter is ahead of every id |
| `Jewelry.JewelryTable.Add` | src/routes/jewelry.js:128-154 | the table and reply after `POST /jewelry` are those of the POST rules; the counter stays ahead of every id |
| `Jewelry.JewelryTable.Update` | src/routes/jewelry.js:157-209 | the table, reply and deleted file after `PUT /jewelry/:id` are those of the corrected PUT; the counter stays ahead of every id |
| `Jewelry.JewelryTable.Remove` | src/routes/jewelry.js:212-259 | the table, reply and deleted file after `DELETE /jewelry/:id` are those of the DELETE rules; the counter stays ahead of every id |
| `Calculator.PerMetal.With` | public/app.js:370 | `prices[metal] = v` sets that metal's entry and no other |
| `Calculator.UnitTables` | public/app.js:335-347 | exactly the eight units with a conversion factor have a display name of their own; all factors are positive and at most 1000 |
| `Calculator.PurityTable` | public/app.js:33-38 | only 24, 22, 21 and 18 have factors, all within (0, 1], and only 24 carat is 1 |
| `Calculator.MetalCostFormula` | public/app.js:295-305 | for a known unit and purity, cost = weight × grams per unit × price per gram × (gold only) the purity factor |
| `Calculator.MetalCostDefined` | public/app.js:295-305 | the cost is a number exactly when the unit is known and, for gold, the purity is |
| `Calculator.MetalCostAtMostPure` | public/app.js:299-302 | a non-negative weight at a non-negative price never costs more than the same weight at 24 carat |
| `Calculator.Window` | public/app.js:547-550 | the window holds at most 20 points |
| `Calculator.ChartPushWindow` | public/app.js:543-550 | one push onto a buffer within the limit gives the last 20 of the old points plus the new one, and the new one is last |
| `Calculator.PushAllWindow` | public/app.js:536-553 | after any series of pushes, the buffer is exactly the last 20 points in order |
| `Calculator.ChartPushPaired` | public/app.js:543-550 | prices and labels pushed together stay equal in length |
| `Tracker.RefreshCases` | public/app.js:186-219 | a refresh changes only the fetched metal; it takes a truthy offered price and otherwise keeps the last known one; a repeated refresh changes nothing more |
| `Tracker.ServedGoldAdopted` | public/app.js:199-207 | a freshly scraped gold payload is adopted, and one tola of 24K then costs the scraped per-tola price |
| `Tracker.ServedSilverAdopted` | public/app.js:208-212 | a silver payload with a non-zero price is adopted, and one kilogram then costs its per-kilogram price |
| `Tracker.RoundKeepsPricesIff` | public/app.js:186-219 | a gold-then-silver refresh leaves the prices unchanged exactly when neither fetch offers a truthy price other than the one held, so every unreachable, non-OK, non-JSON or zero reply keeps the last known price |
| `Tracker.InputsCases` | public/app.js:362-368 | a manual price is accepted exactly when it parses to a positive number; the working-cost field gives that number or 0, never `NaN` |
| `Tracker.ManualThenRefresh` | public/app.js:362-371 | after a manual price the refresh keeps it only when the selected metal's fetch fails; the other metal follows its own fetch |
| `Tracker.CalculatorCases` | public/app.js:282-308 | hidden exactly for a weight that is not a positive number; otherwise a number exactly for a known unit (and purity, for gold), equal to grams × effective price + the metal's working cost |
| `Tracker.JewelryTotalAsWrittenCases` | public/app.js:726-754 | as written, the jewelry total throws exactly for an unknown metal or a NULL working cost, and otherwise equals the intended total |
| `Tracker.JewelryTotalIsCalculatorTotal` | public/app.js:726-737 | an item's intended total is what the calculator shows for its weight, unit, metal, purity and working cost (0 when NULL) |
| `Tracker.PutWithoutWorkingCostBreaksTotal` | public/app.js:737-749 | a PUT without `working_cost` succeeds and stores NULL; the as-written total then throws on that row, while the intended one is the metal cost |
| `Tracker.MetalPriceTracker.constructor` | public/app.js:3-45 | gold at 24K, 12500 and 150 per gram, working costs 0, an empty chart |
| `Tracker.MetalPriceTracker.FetchLivePrice` | public/app.js:186-219 | the prices become the refresh of the old ones; the returned price is the one now held; nothing else changes |
| `Tracker.MetalPriceTracker.UpdateChart` | public/app.js:536-553 | price and label are pushed, with a shift past 20, and the buffer invariant is kept |
| `Tracker.MetalPriceTracker.UpdatePrices` | public/app.js:222-279 | both metals are refreshed, gold first, and the current metal's effective price per gram is charted |
| `Tracker.MetalPriceTracker.CalculatePrice` | public/app.js:282-308 | the result is the calculator display of the current state |
| `Tracker.MetalPriceTracker.ManualPriceUpdate` | public/app.js:362-374 | a refused text changes nothing; an accepted one sets the selected metal's price and then refreshes and charts |
| `Tracker.MetalPriceTracker.SetWorkingCost` | public/app.js:122-125 | only the current metal's working cost changes, to the parsed value or 0 |
| `Tracker.MetalPriceTracker.SwitchMetal` | public/app.js:144-171 | the metal is selected, the chart restarts, and after the refresh it holds the one new point |
| `Tracker.MetalPriceTracker.SetPurity` | public/app.js:173-183 | the purity is selected, both metals are refreshed, and the new effective price is charted |
| `LegacyTracker.WalkBounds` | app.js:127-131 | a step ends at or above the floor (10000 gold, 100 silver), moves by at most 25 (gold) or 2.5 (silver) from a price at the floor or above, and is unclamped above the floor |
| `LegacyTracker.WalkLiftsLowPrice` | app.js:129-131 | a price more than half a range below the floor is raised to the floor in one step |
| `LegacyTracker.LegacyDisplayIsZeroWorkingCost` | app.js:183-205 | the older calculator shows exactly what the current one shows with zero working costs |
| `LegacyTracker.ManualThenWalk` | app.js:256-265 | a manual price for the metal on display is walked at once and ends at or above the floor; one for the other metal is kept as entered |
| `LegacyTracker.MetalPriceTracker.constructor` | app.js:3-39 | gold at 24K, 12500 and 150 per gram, an empty chart |
| `LegacyTracker.MetalPriceTracker.FetchLivePrice` | app.js:120-132 | only `prices[metal]` moves, by one clamped step, and that price is returned |
| `LegacyTracker.MetalPriceTracker.UpdateChart` | app.js:329-346 | price and label are pushed, with a shift past 20, and the buffer invariant is kept |
| `LegacyTracker.MetalPriceTracker.UpdatePrices` | app.js:134-180 | only the current metal is walked, and its effective price per gram is charted |
| `LegacyTracker.MetalPriceTracker.CalculatePrice` | app.js:183-205 | the result is the older calculator display of the current state |
| `LegacyTracker.MetalPriceTracker.ManualPriceUpdate` | app.js:256-268 | a refused text changes nothing; an accepted one sets the selected metal's price, then walks and charts the current metal |
| `LegacyTracker.MetalPriceTracker.SwitchMetal` | app.js:84-105 | the metal is selected and walked; the chart keeps its earlier points |
| `LegacyTracker.MetalPriceTracker.SetPurity` | app.js:107-117 | the purity is selected, the current metal walked and charted |

## Left out

- Floating point: numbers are exact reals. IEEE rounding, `toFixed`, `toLocaleString` and `toLocaleTimeString` are not modelled.
- `parseFloat` of "Infinity" and hexadecimal `parseInt` text are not modelled. `parseFloat` is exact on decimal literals.
- `toLowerCase` lowers ASCII letters only. Strings count Unicode scalar values, not UTF-16 units.
- Concurrency is not modelled. Overlapping requests racing on a route's `priceCache` and the `Promise.all` in `updatePrices` run one at a time, gold first.
- Database errors (the 500 replies on a failed `db.get`/`db.run` other than a NOT NULL violation) are not modelled. The `this.changes === 0` 404 after UPDATE and DELETE is also left out, because it cannot happen when requests run one at a time after the existence check.
- `GET /jewelry` (the list, ordered by `created_at`) is left out. It applies the same image-URL rule as `GET /jewelry/:id`, which is modelled. `created_at` and `updated_at` are not stored.
- Cloudinary, `multer` disk storage and its 5 MB limit, file names and `fs.unlinkSync` are left out. The upload is its stored path and mimetype, and an unlink is reported in the result.
- Tokens use a text encoding of the same payload in place of base64 over JSON. The property the routes rely on, decoding an issued token, is proved. The set of accepted texts differs from the source's. `verifyToken` accepts any base64 JSON value other than `null` whose `timestamp` is not more than seven days before now. A missing or non-numeric `timestamp` makes the age `NaN`, so such a token, or a bare JSON number, is never treated as expired. The model accepts exactly the texts `Auth.DecodeIff` describes, numerals with leading zeros included ("U01:5:x" reads as user 1). Every model token carries a numeric timestamp, so the never-expiring tokens are not captured. Neither form is signed, so in both any well-formed text of a recent timestamp passes.
- SHA-256 is a function parameter of the signup and login handlers.
- Error message texts built at run time (`HTTP n`, an exception's message) are reduced to the failure kind.
- The gold route's "Fetch module not available" check is left out, because `fetch` is always a function once the module has loaded.
- The `/metal-price` route (random prices) is left out.
- Object-key lookups by inherited property names (a unit or metal called "constructor") are not modelled.
- The client's DOM and Chart.js work is left out: vibration, breakdown HTML, price cards, alerts, `updateJewelryPrices` and the jewelry cards, the `usdToNpr` constant, which nothing uses, the loading of `jewelryItems`, and the 30-second update interval.
- The initial refresh the constructors start is left out. `Tracker.MetalPriceTracker.constructor` and `LegacyTracker.MetalPriceTracker.constructor` give the state before it answers.
- Tracker.MetalPriceTracker.SetPurity: requires a purity from the factor table, as only the purity buttons call it.
- LegacyTracker.MetalPriceTracker.SetPurity: requires a purity from the factor table, as only the purity buttons call it.
- The server entry points, `create-admin.js`, `public/auth.js` and the debug and test scripts are not part of this model. `src/database.js` is used only for the jewelry columns and which of them are NOT NULL. It defines no `users` table, so the users table is modelled as the auth routes query it.

## Findings

| source | as written | input that shows it | evidently intended | confidence | as-written member | corrected member |
|---|---|---|---|---|---|---|
| src/routes/jewelry.js:173-200 | PUT deletes the old local image before running the UPDATE, so an UPDATE that fails (for example without a `name`, which is NOT NULL) answers 500 but has already deleted the file the unchanged row still points to | row 1 with image `/u/a.jpg`; `PUT /jewelry/1` with weight "2", no name, and a new upload `/u/b.jpg` | delete the old image only after the update succeeds | not executed | `Jewelry.PutAsWritten`; lemma `Jewelry.PutAsWrittenDeletesLiveImage` | `Jewelry.Put`; lemma `Jewelry.PutNeverDeletesLiveImage` |
| public/app.js:737-749 | `calculateJewelryTotalPrice` adds `item.working_cost`, treating `null` as 0, but its debug log then calls `item.working_cost.toFixed(2)` and `this.prices[item.metal_type].toFixed(2)`, so a NULL working cost or an unknown metal throws a `TypeError` | a row stored by `PUT /jewelry/:id` with a body that has no `working_cost` (stored as NULL) | the total of the metal cost and the working cost, with NULL counting as 0 | not executed | `Tracker.JewelryTotalAsWritten`; lemma `Tracker.PutWithoutWorkingCostBreaksTotal` | `Tracker.JewelryTotal`; lemma `Tracker.JewelryTotalIsCalculatorTotal` |

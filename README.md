# uf-api: the 24-hour indicator cache, in Dafny

uf-api is a small Express server. It scrapes the Chilean UF (Unidad de
Fomento) and the observed dollar rate from the Banco Central de Chile home
page, asks an external converter for currency pairs, and caches everything
in process memory. This project models the part of `index.js` that decides
what each request gets:

- the module-level state: the shared clock `startDate`, the singleton
  `dailyIndicator` record `{today, uf, dolar}`, and the currency-conversion
  map keyed by `"origin/target"`;
- the three routes `GET /uf`, `GET /dolar` and
  `GET /currency/:origCurrency/:targetCurrency`. Each route refreshes when its
  value is absent or when 24 or more hours have passed on the shared clock.
  A refresh moves the clock to the request time before it fetches. On success
  it replaces the record wholesale or sets one map key. On failure it answers
  400;
- the two text clean-ups on scraped numbers. The scraper deletes every `$`,
  carriage return, line feed and `\s` character. The route then deletes every
  `.` and turns the first `,` into `.`.

Files:

- `wrappers.dfy`: the `Option` type. `None` stands for a JavaScript
  `undefined`.
- `numeric_text.dfy` (module `NumericText`): the clean-ups as pure functions
  over `seq<char>`, with lemmas.
- `indicator_api.dfy` (module `IndicatorApi`): the specification and the
  state. `CacheState` is the state as a value. `IndicatorRequest` and
  `CurrencyRequest` give the next state and the response of one request, and
  `Replay` runs a sequence of requests. Class `Cache` holds the same state in
  mutable fields. Its route methods `GetUf`, `GetDolar` and `GetCurrency`
  update those fields in place, and each is proved equal to the specification
  function.

Conventions:

- Time is an abstract integer hour count. The elapsed time is
  `reqHour - startHour`.
- Each request is atomic. So `today` in a refreshed record equals the request
  hour.
- `/uf` and `/dolar` are one function with a `Slot` parameter, because the
  two handlers differ only in which field they test and write.
- The fetch result is an input. For `/uf` and `/dolar` it is the raw text of
  the selected page node, or `None` when the scraper failed. On failure the
  scraper's `.catch(console.error)` resolves to `undefined`, and the route's
  `data.replace` then throws into its 400 branch. For `/currency` the input is
  the converter's 5-element result, or `None` when the converter rejected.

Two consequences of the code that the model keeps:

- A failed refresh still moves the clock, because `startDate = reqDate` runs
  before the fetch (index.js:95, 124, 158). So after a failed refresh of a
  stale but present value, requests in the next 24 hours get the old value
  without fetching (`FailedRefreshRestartsWindow`).
- One `startDate` gates all three caches (index.js:92, 120, 151), so any
  refresh, even a failed one, makes every other value that is still present
  fresh again (`CurrencyRefreshResetsIndicatorClock`), while a successful
  `/uf` or `/dolar` refresh drops the other field (`RefreshDropsSibling`).

## Model

| member | source | states |
|---|---|---|
| `NumericText.Delete` | index.js:55 | no character of the deleted class remains, a character is in the result exactly when it was in the input and is not deleted, and the result is never longer |
| `NumericText.DeleteAppend` | index.js:73 | deleting distributes over concatenation, so the result is the input with exactly the matched characters removed, order preserved |
| `NumericText.DeleteLength` | index.js:101 | the length drops by exactly the number of matched characters |
| `NumericText.DeleteIdempotent` | index.js:55 | deleting twice is the same as deleting once |
| `NumericText.DeleteKeepsCount` | index.js:101 | deleting dots leaves the count of every character it does not match (such as `,`) unchanged |
| `NumericText.ScrapeCleanup` | index.js:55 | no `$`, CR, LF or `\s` character is left, and the length drops by the number of those characters |
| `NumericText.ScrapeCleanupIdempotent` | index.js:73 | applying the scrape clean-up twice equals applying it once |
| `NumericText.IndexOf` | index.js:101 | gives the position of the first occurrence (all earlier characters differ), or the length exactly when the character is absent |
| `NumericText.ReplaceFirst` | index.js:130 | a string-pattern `replace` changes only the first occurrence: same length, that position becomes the replacement, every other position is unchanged, and the text is unchanged when the pattern is absent |
| `NumericText.NormaliseDecimal` | index.js:101 | the length drops by the number of dots; at most one `.` is left, and only where the first `,` was; without a `,` the result is the input minus its dots; with one, exactly one `.` and one `,` fewer; every other position keeps the character of the input with its dots removed |
| `NumericText.NormalisedShape` | index.js:130 | on a dot-free text, the first-comma replace leaves one `.` and one `,` fewer when there is a comma, and no `.` otherwise |
| `NumericText.IndicatorText` | index.js:96-101 | the stored UF or dollar text (scrape clean-up, then decimal normalisation) has no scrape-noise character and at most one `.` |
| `IndicatorApi.Key` | index.js:154 | plain definition of the key `${origCurr}/${targetCurr}`, also built at index.js:180 and 194: the origin, then one `/`, then the target |
| `IndicatorApi.Record` | index.js:165-178 | plain definition of the stored object: `from` is `data[1]` with `data[0]`, `to` is `data[3]` with `data[2]`, the timestamp is `data[4]`, `today` is the request time; each `value` stays the converter's text, without `parseFloat` |
| `IndicatorApi.Refreshed` | index.js:99-102 | a refresh writes only its own field, with the given text, and leaves the other field absent |
| `IndicatorApi.IndicatorRequest` | index.js:90-116 | refresh exactly when the field is absent or 24 or more hours have passed; the clock moves to the request time exactly then; a fresh read changes nothing and returns the record; 400 exactly when a needed refresh fails, with the record kept; a 200 always carries the route's field and is what the cache now holds; a successful refresh stores the cleaned text with `today` set to the request time and drops the other field; the currency map is never touched |
| `IndicatorApi.CurrencyRequest` | index.js:147-201 | refresh exactly when the key `orig/target` is absent or 24 or more hours have passed; the clock moves then; a cached read returns the stored entry and changes nothing; 400 exactly when a needed refresh fails, with the map kept; a 200 is the entry now stored under the key, built from the quote with `today` set to the request time; no key disappears and every other key keeps its entry; the daily record is never touched |
| `IndicatorApi.CachedReadIgnoresFetch` | index.js:141-144 | on a cached read the fetch result does not affect the state or the response, so no fetch is needed |
| `IndicatorApi.FailedRefreshRestartsWindow` | index.js:93-111 | after a failed refresh of a stale but present value, a request less than 24 hours later gets the old record without fetching |
| `IndicatorApi.CurrencyRefreshResetsIndicatorClock` | index.js:151-158 | a currency refresh makes a present UF or dollar value fresh again for 24 hours, however old that value is |
| `IndicatorApi.RefreshDropsSibling` | index.js:128-131 | right after a successful refresh of one field, the other field must be fetched, and if that fetch succeeds the first field is gone |
| `IndicatorApi.SeparatorPosition` | index.js:180 | when the origin has no `/`, the first `/` of the key is at the origin's length |
| `IndicatorApi.KeyInjective` | index.js:154 | when the origins have no `/`, two pairs have the same key exactly when they are the same pair |
| `IndicatorApi.ReversedPairsAreDistinct` | index.js:194 | `USD/CLP` and `CLP/USD` are different keys |
| `IndicatorApi.ReplayKeepsConversions` | index.js:179-182 | over any sequence of requests no key leaves the map, and an entry whose key no request names keeps its value |
| `IndicatorApi.ReplayPreservesAtMostOne` | index.js:128-131 | if the record holds at most one of `uf` and `dolar`, it still does after any sequence of requests |
| `IndicatorApi.ReplayAtMostOneIndicator` | index.js:15-19 | from process start, the record never holds both `uf` and `dolar` |
| `IndicatorApi.ReplayFreshReads` | index.js:112-115 | while a field is present, requests for it less than 24 hours after the clock leave the state unchanged and each gets the cached record |
| `IndicatorApi.Cache.constructor` | index.js:14-19 | the clock and `today` start at the boot time; no value and no conversion is cached |
| `IndicatorApi.Cache.GetUf` | index.js:90-116 | updates the fields in place to `IndicatorRequest(old state, Uf, …)` and returns its response |
| `IndicatorApi.Cache.GetDolar` | index.js:118-145 | updates the fields in place to `IndicatorRequest(old state, Dolar, …)` and returns its response |
| `IndicatorApi.Cache.GetCurrency` | index.js:147-201 | updates the fields in place to `CurrencyRequest(old state, …)`, setting at most the one map key, and returns its response |
| `IndicatorApi.SecondUfCallUsesCache` | index.js:93-114 | on a fresh cache, the first `/uf` fetches and succeeds, and a second request within 24 hours gets the same record whatever its fetch would have returned |

## Left out

- `getHttp` (index.js:21-42) is left out: the axios GET, its headers, the `https.Agent`, and the process-wide `NODE_TLS_REJECT_UNAUTHORIZED` setting (also index.js:61-64) are network I/O and environment side effects.
- The DOM traversal in `retrieveDolarValue` and `retrieveUfValue` (index.js:47-54, 67-72) is left out: it calls `node-html-parser` with CSS selectors. Only its result is modelled, as the raw node text or `None`.
- `retrieveCurrencyConversion` and the container behind `currencyConversionCache` live in `./money-converter`, which is not part of this model. The quote is an opaque input, and the cache is a `map<string, Conversion>` that starts empty.
- `parseFloat` of the conversion values (index.js:170, 174) is floating point. `Side.value` keeps the converter's text, so the model does not say what number a 200 carries.
- `differenceInHours` lives in `./utils`, which is not part of this model, and `new Date()` reads the clock. Both are replaced by integer hour parameters, and the elapsed time is their difference.
- Async interleaving is left out: each request is atomic. In the code, two requests can interleave between the clock reset and the `.then` update, and `today` is read from `startDate` again at index.js:100, 129 and 166.
- The Express setup, CORS options, `listen`, and the `console.log`/`console.error` calls (index.js:78-88, 203-205) are left out. The body of a 400 (`{status: 400, msg: err}`) is modelled only as `Err400`, because the error object is not visible.
- KeyInjective: assumes that no origin contains `/`. Express percent-decodes route parameters, so `/currency/A%2FB/C` and `/currency/A/B%2FC` share the key `A/B/C` and one answers with the other's cached conversion (`EncodedSlashCollision`). The model keeps the key exactly as the code builds it and does not rule this out.
- `/dolar` tests `== undefined` where `/uf` tests `=== undefined`. The two agree here, since the record never holds `null`.
- The regular expression `[$\r\n\s]+` deletes runs of matched characters. Deleting each matched character on its own gives the same string, and `\s` is modelled as the ECMAScript white-space and line-terminator set.

/**
 * The request-driven cache behind the three routes of index.js.
 *
 * Module-level state: the shared clock `startDate`, the singleton daily
 * indicator record `{today, uf, dolar}` and the currency-conversion map keyed
 * by `"origin/target"`. Every route refreshes when its value is absent or
 * when 24 or more hours have passed since the shared clock; a refresh resets
 * the clock to the request time BEFORE fetching, then either replaces the
 * record wholesale (or sets one map key) or answers 400.
 *
 * Time is an abstract hour count; the elapsed time is `reqHour - startHour`.
 * The raw text of the page node the scraper selects (before the scraper's
 * own clean-up) and the conversion quote are inputs: `None` stands for a
 * fetch that failed (the scraper's promise resolves to `undefined`, and the
 * route's `data.replace` then throws into the 400 branch).
 * `CacheState` is the value view of the state and the functions over it are
 * the specification; class `Cache` holds the same state in mutable fields
 * and its route methods are proved against those functions.
 */
module IndicatorApi {
  import opened Wrappers
  import NumericText

  /** The freshness window, `dateDiff >= 24` at index.js:93, 122 and 155. */
  const FreshnessHours: int := 24

  /** What a route answers: status 200 with a JSON body, or status 400. */
  datatype Response<T> = Ok(body: T) | Err400

  /** The `dailyIndicator` record; a field left out of the JSON object is `None`. */
  datatype Indicator = Indicator(today: int, uf: Option<string>, dolar: Option<string>)

  /** The two fields of the daily indicator, each with its own route. */
  datatype Slot = Uf | Dolar

  function Field(ind: Indicator, slot: Slot): Option<string>
  {
    match slot
    case Uf => ind.uf
    case Dolar => ind.dolar
  }

  function Other(slot: Slot): Slot
  {
    match slot
    case Uf => Dolar
    case Dolar => Uf
  }

  /** The record a successful refresh of `slot` writes: only that field. */
  function Refreshed(slot: Slot, today: int, text: string): (ind: Indicator)
    ensures Field(ind, slot) == Some(text) && Field(ind, Other(slot)) == None
    ensures ind.today == today
  {
    match slot
    case Uf => Indicator(today, Some(text), None)
    case Dolar => Indicator(today, None, Some(text))
  }

  /** The 5-element result of the external converter:
      `[fromValue, fromCurrency, toValue, toCurrency, timestamp]`. */
  datatype Quote = Quote(fromValue: string, fromCurrency: string,
                         toValue: string, toCurrency: string, timestamp: string)

  /** One side of a conversion; `value` is the converter's text (see README). */
  datatype Side = Side(currency: string, value: string)

  /** The cached `{today, currencyConversion: {from, to, timestamp}}` object. */
  datatype Conversion = Conversion(today: int, from: Side, to: Side, timestamp: string)

  /** The object built from a quote at index.js:165-178: `data[1]` and
      `data[0]` become the `from` side, `data[3]` and `data[2]` the `to` side,
      `data[4]` the timestamp. */
  function Record(q: Quote, today: int): (c: Conversion)
    ensures c.from == Side(q.fromCurrency, q.fromValue)
    ensures c.to == Side(q.toCurrency, q.toValue)
    ensures c.timestamp == q.timestamp && c.today == today
  {
    Conversion(today, Side(q.fromCurrency, q.fromValue), Side(q.toCurrency, q.toValue), q.timestamp)
  }

  /** The cache key `${origCurr}/${targetCurr}`: the origin, one `/`, then
      the target. */
  function Key(orig: string, target: string): (k: string)
    ensures |k| == |orig| + 1 + |target|
    ensures k[..|orig|] == orig && k[|orig|] == '/' && k[|orig| + 1..] == target
  {
    orig + "/" + target
  }

  /** The whole module-level state, as a value. */
  datatype CacheState = CacheState(startHour: int, indicator: Indicator, conv: map<string, Conversion>)

  /** The state at process start: the clock and `today` are the boot time, no
      value is cached (the converter's map starts empty). */
  function Initial(bootHour: int): CacheState
  {
    CacheState(bootHour, Indicator(bootHour, None, None), map[])
  }

  predicate Stale(startHour: int, reqHour: int)
  {
    reqHour - startHour >= FreshnessHours
  }

  /** The refresh rule of `/uf` and `/dolar` (index.js:93, 122). */
  predicate NeedsRefresh(s: CacheState, slot: Slot, reqHour: int)
  {
    Field(s.indicator, slot).None? || Stale(s.startHour, reqHour)
  }

  /** The refresh rule of `/currency/:o/:t` (index.js:153-156). */
  predicate NeedsConversion(s: CacheState, orig: string, target: string, reqHour: int)
  {
    Key(orig, target) !in s.conv || Stale(s.startHour, reqHour)
  }

  /** The state after a request, and the response sent. */
  datatype Handled<T> = Handled(next: CacheState, response: Response<T>)

  /** `GET /uf` (slot `Uf`, index.js:90-116) and `GET /dolar` (slot `Dolar`,
      index.js:118-145). */
  function IndicatorRequest(s: CacheState, slot: Slot, reqHour: int, rawText: Option<string>): (h: Handled<Indicator>)
    // the currency map is never touched
    ensures h.next.conv == s.conv
    // the clock moves to the request time exactly on the refresh path
    ensures h.next.startHour == if NeedsRefresh(s, slot, reqHour) then reqHour else s.startHour
    // a fresh, present value is served from the cache and nothing changes
    ensures !NeedsRefresh(s, slot, reqHour) ==> h.next == s && h.response == Ok(s.indicator)
    // 400 exactly when a needed refresh fails; the record then stays as it was
    ensures h.response.Err400? <==> NeedsRefresh(s, slot, reqHour) && rawText.None?
    ensures h.response.Err400? ==> h.next.indicator == s.indicator
    // a 200 always carries this route's field, and is what the cache now holds
    ensures h.response.Ok? ==> h.response.body == h.next.indicator && Field(h.next.indicator, slot).Some?
    // a successful refresh stores the normalised text and drops the other field
    ensures NeedsRefresh(s, slot, reqHour) && rawText.Some? ==>
              h.next.indicator.today == reqHour
              && Field(h.next.indicator, slot) == Some(NumericText.IndicatorText(rawText.value))
              && Field(h.next.indicator, Other(slot)) == None
  {
    if NeedsRefresh(s, slot, reqHour) then
      var restarted := s.(startHour := reqHour);
      match rawText
      case None => Handled(restarted, Err400)
      case Some(data) =>
        var ind := Refreshed(slot, restarted.startHour, NumericText.IndicatorText(data));
        Handled(restarted.(indicator := ind), Ok(ind))
    else
      Handled(s, Ok(s.indicator))
  }

  /** `GET /currency/:origCurrency/:targetCurrency` (index.js:147-201). */
  function CurrencyRequest(s: CacheState, orig: string, target: string, reqHour: int, quote: Option<Quote>): (h: Handled<Conversion>)
    // the daily indicator record is never touched
    ensures h.next.indicator == s.indicator
    ensures h.next.startHour == if NeedsConversion(s, orig, target, reqHour) then reqHour else s.startHour
    // served from the cache: the stored entry, nothing changes
    ensures !NeedsConversion(s, orig, target, reqHour) ==>
              h.next == s && Key(orig, target) in s.conv && h.response == Ok(s.conv[Key(orig, target)])
    ensures h.response.Err400? <==> NeedsConversion(s, orig, target, reqHour) && quote.None?
    ensures h.response.Err400? ==> h.next.conv == s.conv
    // a 200 is the entry the map now holds under the pair's key
    ensures h.response.Ok? ==> Key(orig, target) in h.next.conv && h.response.body == h.next.conv[Key(orig, target)]
    // every other key keeps its entry, and no key disappears
    ensures h.next.conv.Keys == s.conv.Keys || h.next.conv.Keys == s.conv.Keys + {Key(orig, target)}
    ensures forall k :: k in s.conv && k != Key(orig, target) ==> h.next.conv[k] == s.conv[k]
    ensures NeedsConversion(s, orig, target, reqHour) && quote.Some? ==>
              h.response == Ok(Record(quote.value, reqHour))
  {
    var key := Key(orig, target);
    if NeedsConversion(s, orig, target, reqHour) then
      var restarted := s.(startHour := reqHour);
      match quote
      case None => Handled(restarted, Err400)
      case Some(q) =>
        var c := Record(q, restarted.startHour);
        Handled(restarted.(conv := restarted.conv[key := c]), Ok(c))
    else
      Handled(s, Ok(s.conv[key]))
  }

  /** A cached read does not fetch: the fetch result cannot change the outcome. */
  lemma CachedReadIgnoresFetch(s: CacheState, slot: Slot, reqHour: int, a: Option<string>, b: Option<string>)
    requires !NeedsRefresh(s, slot, reqHour)
    ensures IndicatorRequest(s, slot, reqHour, a) == IndicatorRequest(s, slot, reqHour, b)
  {
  }

  /** A failed refresh still restarts the window: after a failed refresh of a
      stale but present value, a request less than 24 hours later is served
      the old value without fetching. */
  lemma FailedRefreshRestartsWindow(s: CacheState, slot: Slot, h1: int, h2: int, later: Option<string>)
    requires Field(s.indicator, slot).Some? && Stale(s.startHour, h1)
    requires h2 - h1 < FreshnessHours
    ensures var failed := IndicatorRequest(s, slot, h1, None);
            failed.response == Err400
            && IndicatorRequest(failed.next, slot, h2, later) == Handled(failed.next, Ok(s.indicator))
  {
  }

  /** One clock governs three caches: a currency refresh at hour `h1` makes a
      present UF or Dolar value fresh again for 24 hours, however old it is. */
  lemma CurrencyRefreshResetsIndicatorClock(s: CacheState, orig: string, target: string, h1: int, quote: Option<Quote>,
                                            slot: Slot, h2: int, rawText: Option<string>)
    requires NeedsConversion(s, orig, target, h1)
    requires Field(s.indicator, slot).Some? && h2 - h1 < FreshnessHours
    ensures var after := CurrencyRequest(s, orig, target, h1, quote).next;
            IndicatorRequest(after, slot, h2, rawText) == Handled(after, Ok(s.indicator))
  {
  }

  /** Refreshing one field of the daily indicator forgets the other: right
      after a successful `/uf` refresh, `/dolar` must refetch, and if that
      succeeds the UF value is gone. */
  lemma RefreshDropsSibling(s: CacheState, slot: Slot, h1: int, text1: string, h2: int, text2: string)
    requires NeedsRefresh(s, slot, h1)
    ensures var first := IndicatorRequest(s, slot, h1, Some(text1)).next;
            NeedsRefresh(first, Other(slot), h2)
            && Field(IndicatorRequest(first, Other(slot), h2, Some(text2)).next.indicator, slot) == None
  {
  }

  /** In a key whose origin has no `/`, the first `/` is the separator. */
  lemma SeparatorPosition(orig: string, target: string)
    requires '/' !in orig
    ensures NumericText.IndexOf(Key(orig, target), '/') == |orig|
  {
    var key := Key(orig, target);
    var k := NumericText.IndexOf(key, '/');
    assert key[|orig|] == '/';
    assert forall j :: 0 <= j < |orig| ==> key[j] == orig[j];
  }

  /** Keys are exact as long as no origin contains `/`: then two pairs share
      a key only when they are the same pair. */
  lemma KeyInjective(o1: string, t1: string, o2: string, t2: string)
    requires '/' !in o1 && '/' !in o2
    ensures Key(o1, t1) == Key(o2, t2) <==> o1 == o2 && t1 == t2
  {
    var k1, k2 := Key(o1, t1), Key(o2, t2);
    if k1 == k2 {
      SeparatorPosition(o1, t1);
      SeparatorPosition(o2, t2);
      assert o1 == k1[..|o1|] == k2[..|o2|] == o2;
      assert t1 == k1[|o1| + 1..] == k2[|o2| + 1..] == t2;
    }
  }

  /** Without that assumption keys collide: route parameters are
      percent-decoded, so `/currency/A%2FB/C` and `/currency/A/B%2FC` both
      use the key `A/B/C`. */
  lemma EncodedSlashCollision()
    ensures Key("A/B", "C") == Key("A", "B/C")
  {
  }

  /** `USD/CLP` and `CLP/USD` are distinct entries. */
  lemma ReversedPairsAreDistinct()
    ensures Key("USD", "CLP") != Key("CLP", "USD")
  {
    KeyInjective("USD", "CLP", "CLP", "USD");
  }

  /** An inbound request with the fetch result it would get. */
  datatype Request =
    | IndicatorGet(slot: Slot, hour: int, rawText: Option<string>)
    | CurrencyGet(orig: string, target: string, hour: int, quote: Option<Quote>)

  function Serve(s: CacheState, req: Request): CacheState
  {
    match req
    case IndicatorGet(slot, hour, rawText) => IndicatorRequest(s, slot, hour, rawText).next
    case CurrencyGet(orig, target, hour, quote) => CurrencyRequest(s, orig, target, hour, quote).next
  }

  /** The state after serving `reqs` one after the other. */
  function Replay(s: CacheState, reqs: seq<Request>): CacheState
    decreases |reqs|
  {
    if reqs == [] then s else Replay(Serve(s, reqs[0]), reqs[1..])
  }

  /** The pair key a request writes, if any. */
  predicate Writes(req: Request, key: string)
  {
    req.CurrencyGet? && Key(req.orig, req.target) == key
  }

  /** Conversions are only ever added or overwritten under the requested key:
      no key disappears, and an entry no request asked for is unchanged. */
  lemma {:induction false} ReplayKeepsConversions(s: CacheState, reqs: seq<Request>)
    ensures s.conv.Keys <= Replay(s, reqs).conv.Keys
    ensures forall k :: k in s.conv && (forall i :: 0 <= i < |reqs| ==> !Writes(reqs[i], k)) ==>
              Replay(s, reqs).conv[k] == s.conv[k]
    decreases |reqs|
  {
    if reqs != [] {
      ReplayKeepsConversions(Serve(s, reqs[0]), reqs[1..]);
      assert forall i :: 1 <= i < |reqs| ==> reqs[1..][i - 1] == reqs[i];
    }
  }

  /** The wholesale replacement never holds both indicators at once. */
  predicate AtMostOneIndicator(ind: Indicator)
  {
    ind.uf.None? || ind.dolar.None?
  }

  lemma {:induction false} ReplayAtMostOneIndicator(bootHour: int, reqs: seq<Request>)
    ensures AtMostOneIndicator(Replay(Initial(bootHour), reqs).indicator)
  {
    ReplayPreservesAtMostOne(Initial(bootHour), reqs);
  }

  lemma {:induction false} ReplayPreservesAtMostOne(s: CacheState, reqs: seq<Request>)
    requires AtMostOneIndicator(s.indicator)
    ensures AtMostOneIndicator(Replay(s, reqs).indicator)
    decreases |reqs|
  {
    if reqs != [] {
      ReplayPreservesAtMostOne(Serve(s, reqs[0]), reqs[1..]);
    }
  }

  /** Reads within the window are idempotent: while a field is present and
      every request for it comes less than 24 hours after the clock, the state
      never changes and every response is the cached record. */
  predicate FreshReads(s: CacheState, slot: Slot, reqs: seq<Request>)
  {
    forall i :: 0 <= i < |reqs| ==>
      reqs[i].IndicatorGet? && reqs[i].slot == slot && !Stale(s.startHour, reqs[i].hour)
  }

  lemma {:induction false} ReplayFreshReads(s: CacheState, slot: Slot, reqs: seq<Request>)
    requires Field(s.indicator, slot).Some? && FreshReads(s, slot, reqs)
    ensures Replay(s, reqs) == s
    ensures forall i :: 0 <= i < |reqs| ==>
              IndicatorRequest(s, slot, reqs[i].hour, reqs[i].rawText).response == Ok(s.indicator)
  {
    if reqs != [] {
      assert FreshReads(s, slot, reqs[1..]) by {
        assert forall i :: 1 <= i < |reqs| ==> reqs[1..][i - 1] == reqs[i];
      }
      ReplayFreshReads(s, slot, reqs[1..]);
    }
  }

  /** The module-level state of index.js, updated in place by the routes. */
  class Cache {
    var startHour: int
    var today: int
    var uf: Option<string>
    var dolar: Option<string>
    var conv: map<string, Conversion>

    function State(): CacheState
      reads this
    {
      CacheState(startHour, Daily(), conv)
    }

    constructor (bootHour: int)
      ensures State() == Initial(bootHour)
    {
      startHour := bootHour;
      today := bootHour;
      uf, dolar := None, None;
      conv := map[];
    }

    /** The body the route sends on a 200 for the daily indicator. */
    function Daily(): Indicator
      reads this
    {
      Indicator(today, uf, dolar)
    }

    method GetUf(reqHour: int, rawText: Option<string>) returns (r: Response<Indicator>)
      modifies this
      ensures Handled(State(), r) == IndicatorRequest(old(State()), Uf, reqHour, rawText)
    {
      var dateDiff := reqHour - startHour;
      if uf.None? || dateDiff >= FreshnessHours {
        startHour := reqHour;
        match rawText {
          case None =>
            r := Err400;
          case Some(data) =>
            today, uf, dolar := startHour, Some(NumericText.IndicatorText(data)), None;
            r := Ok(Daily());
        }
      } else {
        r := Ok(Daily());
      }
    }

    method GetDolar(reqHour: int, rawText: Option<string>) returns (r: Response<Indicator>)
      modifies this
      ensures Handled(State(), r) == IndicatorRequest(old(State()), Dolar, reqHour, rawText)
    {
      var dateDiff := reqHour - startHour;
      if dolar.None? || dateDiff >= FreshnessHours {
        startHour := reqHour;
        match rawText {
          case None =>
            r := Err400;
          case Some(data) =>
            today, uf, dolar := startHour, None, Some(NumericText.IndicatorText(data));
            r := Ok(Daily());
        }
      } else {
        r := Ok(Daily());
      }
    }

    method GetCurrency(orig: string, target: string, reqHour: int, quote: Option<Quote>) returns (r: Response<Conversion>)
      modifies this
      ensures Handled(State(), r) == CurrencyRequest(old(State()), orig, target, reqHour, quote)
    {
      var key := Key(orig, target);
      var dateDiff := reqHour - startHour;
      if key !in conv || dateDiff >= FreshnessHours {
        startHour := reqHour;
        match quote {
          case None =>
            r := Err400;
          case Some(q) =>
            var c := Record(q, startHour);
            conv := conv[key := c];
            r := Ok(c);
        }
      } else {
        r := Ok(conv[key]);
      }
    }
  }

  /** The first `/uf` request on an empty cache fetches; a second one within
      the window is answered with the same record and ignores its fetch. */
  method SecondUfCallUsesCache(bootHour: int, h1: int, h2: int, text: string, unused: Option<string>)
    returns (first: Response<Indicator>, second: Response<Indicator>)
    requires h2 - h1 < FreshnessHours
    ensures first.Ok? && first == second
    ensures first.body.uf == Some(NumericText.IndicatorText(text))
  {
    var cache := new Cache(bootHour);
    first := cache.GetUf(h1, Some(text));
    second := cache.GetUf(h2, unused);
  }
}

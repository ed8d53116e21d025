/**
 * The trading-rules cache (src/binance/ExchangeInfoManager.ts): a map from
 * symbol to trading rules, refreshed from the exchange-information endpoint
 * behind a freshness gate (5 minutes) and a retry backoff (30 seconds).
 *
 * The clock (`Date.now()`) and the endpoint's answer are parameters. Every
 * operation is first given as a function on a value `CacheState`; the class
 * `ExchangeInfoManager` keeps the same state in fields and its methods are
 * proved to follow those functions.
 */
module ExchangeInfo {
  import opened Wrappers
  import opened TradingTypes

  /** How long a successful refresh is served without refetching (ms). */
  const CacheTtl: int := 1000 * 60 * 5

  /** How long to wait after an attempt before attempting again (ms). */
  const UpdateRetryInterval: int := 1000 * 30

  /** The status marking a symbol as actively tradable. */
  const TradingStatus: string := "TRADING"

  // ---------------------------------------------------------------------
  // Order-type whitelist
  // ---------------------------------------------------------------------

  /** Narrows a wire tag to the known order type it names, if any. */
  function ParseOrderType(tag: string): (r: Option<OrderType>)
    ensures r.Some? ==> OrderTypeTag(r.value) == tag
    ensures forall t :: OrderTypeTag(t) == tag ==> r == Some(t)
  {
    if tag == "LIMIT" then Some(Limit)
    else if tag == "MARKET" then Some(Market)
    else if tag == "STOP_LIMIT" then Some(StopLimit)
    else if tag == "STOP_MARKET" then Some(StopMarket)
    else if tag == "OCO" then Some(Oco)
    else if tag == "TRAILING_STOP_MARKET" then Some(TrailingStopMarket)
    else None
  }

  /** `isValidOrderType`: the tag is one of the six known order types. */
  predicate IsValidOrderType(tag: string)
  {
    ParseOrderType(tag).Some?
  }

  /** The whitelist is exactly the set of tags of the enumeration. */
  lemma IsValidOrderTypeIff(tag: string)
    ensures IsValidOrderType(tag) <==> exists t :: OrderTypeTag(t) == tag
  {
    if IsValidOrderType(tag) {
      assert OrderTypeTag(ParseOrderType(tag).value) == tag;
    }
  }

  /**
   * `symbol.orderTypes.filter(isValidOrderType)`: the known order types among
   * the upstream tags, in upstream order; unknown tags are dropped.
   */
  function AllowedOrderTypes(tags: seq<string>): (r: seq<OrderType>)
    ensures |r| <= |tags|
    ensures forall t :: t in r <==> OrderTypeTag(t) in tags
  {
    if tags == [] then []
    else
      var rest := AllowedOrderTypes(tags[1..]);
      assert forall x :: x in tags <==> x == tags[0] || x in tags[1..];
      match ParseOrderType(tags[0])
      case Some(t) => [t] + rest
      case None => rest
  }

  /** Filtering distributes over concatenation, so upstream order is kept. */
  lemma {:induction false} AllowedOrderTypesAppend(a: seq<string>, b: seq<string>)
    ensures AllowedOrderTypes(a + b) == AllowedOrderTypes(a) + AllowedOrderTypes(b)
  {
    if a == [] {
      assert a + b == b;
    } else {
      assert (a + b)[1..] == a[1..] + b;
      AllowedOrderTypesAppend(a[1..], b);
    }
  }

  /** An unknown tag never changes the result, wherever it stands. */
  lemma UnknownOrderTypeDropped(a: seq<string>, tag: string, b: seq<string>)
    requires !IsValidOrderType(tag)
    ensures AllowedOrderTypes(a + [tag] + b) == AllowedOrderTypes(a + b)
  {
    assert AllowedOrderTypes([tag]) == [] by {
      assert [tag][1..] == [];
    }
    AllowedOrderTypesAppend(a, [tag]);
    assert AllowedOrderTypes(a + [tag]) == AllowedOrderTypes(a);
    AllowedOrderTypesAppend(a + [tag], b);
    AllowedOrderTypesAppend(a, b);
  }

  /** `a` can be obtained from `b` by deleting elements. */
  predicate IsSubsequence<T(==)>(a: seq<T>, b: seq<T>)
  {
    if b == [] then a == []
    else (a != [] && a[0] == b[0] && IsSubsequence(a[1..], b[1..])) || IsSubsequence(a, b[1..])
  }

  /** The tags of a sequence of order types. */
  function Tags(ts: seq<OrderType>): (r: seq<string>)
    ensures |r| == |ts|
    ensures forall i :: 0 <= i < |ts| ==> r[i] == OrderTypeTag(ts[i])
  {
    if ts == [] then [] else [OrderTypeTag(ts[0])] + Tags(ts[1..])
  }

  /** The allowed order types, written back as tags, are a subsequence of the upstream tags. */
  lemma {:induction false} AllowedOrderTypesSubsequence(tags: seq<string>)
    ensures IsSubsequence(Tags(AllowedOrderTypes(tags)), tags)
  {
    if tags != [] {
      AllowedOrderTypesSubsequence(tags[1..]);
      var rest := AllowedOrderTypes(tags[1..]);
      match ParseOrderType(tags[0])
      case Some(t) =>
        assert AllowedOrderTypes(tags) == [t] + rest;
        assert Tags([t] + rest)[1..] == Tags(rest);
      case None =>
    }
  }

  /** Tags of known order types all pass the whitelist: filtering them gives the order types back. */
  lemma {:induction false} AllowedOrderTypesOfTags(ts: seq<OrderType>)
    ensures AllowedOrderTypes(Tags(ts)) == ts
  {
    if ts != [] {
      AllowedOrderTypesOfTags(ts[1..]);
      assert Tags(ts)[1..] == Tags(ts[1..]);
    }
  }

  // ---------------------------------------------------------------------
  // Parsing one symbol descriptor
  // ---------------------------------------------------------------------

  /** Some filter of the descriptor carries the tag. */
  predicate HasFilter(fs: seq<Filter>, tag: string)
  {
    exists i :: 0 <= i < |fs| && FilterType(fs[i]) == tag
  }

  /** `filters.find(f => f.filterType === tag)`: the first filter with that tag. */
  function FindFilter(fs: seq<Filter>, tag: string): (r: Option<Filter>)
    ensures r.Some? <==> HasFilter(fs, tag)
    ensures r.Some? ==> r.value in fs && FilterType(r.value) == tag
  {
    if fs == [] then None
    else if FilterType(fs[0]) == tag then Some(fs[0])
    else
      var r := FindFilter(fs[1..], tag);
      assert HasFilter(fs, tag) ==> HasFilter(fs[1..], tag) by {
        if HasFilter(fs, tag) {
          var i :| 0 <= i < |fs| && FilterType(fs[i]) == tag;
          assert fs[1..][i - 1] == fs[i];
        }
      }
      assert HasFilter(fs[1..], tag) ==> HasFilter(fs, tag) by {
        if HasFilter(fs[1..], tag) {
          var i :| 0 <= i < |fs[1..]| && FilterType(fs[1..][i]) == tag;
          assert fs[i + 1] == fs[1..][i];
        }
      }
      r
  }

  /** The filter found is the first one with the tag: every filter before it has another tag. */
  lemma {:induction false} FindFilterFirst(fs: seq<Filter>, tag: string)
    requires HasFilter(fs, tag)
    ensures exists i :: 0 <= i < |fs| && fs[i] == FindFilter(fs, tag).value
                        && forall j :: 0 <= j < i ==> FilterType(fs[j]) != tag
  {
    if FilterType(fs[0]) == tag {
      assert fs[0] == FindFilter(fs, tag).value;
    } else {
      assert HasFilter(fs[1..], tag);
      FindFilterFirst(fs[1..], tag);
      var i :| 0 <= i < |fs[1..]| && fs[1..][i] == FindFilter(fs[1..], tag).value
               && forall j :: 0 <= j < i ==> FilterType(fs[1..][j]) != tag;
      assert fs[i + 1] == FindFilter(fs, tag).value;
      forall j | 0 <= j < i + 1 ensures FilterType(fs[j]) != tag {
        if j > 0 {
          assert fs[j] == fs[1..][j - 1];
        }
      }
    }
  }

  /**
   * The acceptance rule of the refresh loop: the symbol is actively
   * tradable and carries a price, a lot-size and a minimum-notional filter.
   */
  predicate Accepted(d: SymbolDescriptor)
  {
    d.status == TradingStatus
    && HasFilter(d.filters, "PRICE_FILTER")
    && HasFilter(d.filters, "LOT_SIZE")
    && HasFilter(d.filters, "MIN_NOTIONAL")
  }

  /** The three tags the cache looks for name exactly one filter shape each. */
  lemma FilterTypeShape(f: Filter)
    ensures FilterType(f) == "PRICE_FILTER" <==> f.PriceFilter?
    ensures FilterType(f) == "LOT_SIZE" <==> f.LotSizeFilter?
    ensures FilterType(f) == "MIN_NOTIONAL" <==> f.MinNotionalFilter?
  {
    assert "PRICE_FILTER"[0] != "MIN_NOTIONAL"[0];
    assert "PRICE_FILTER"[0] != "LOT_SIZE"[0] && "LOT_SIZE"[0] != "MIN_NOTIONAL"[0];
    assert "MARKET_LOT_SIZE"[1] != "MIN_NOTIONAL"[1];
    assert "MAX_NUM_ORDERS"[1] != "MIN_NOTIONAL"[1];
    assert "MAX_NUM_ALGO_ORDERS"[1] != "MIN_NOTIONAL"[1];
    assert "PERCENT_PRICE"[1] != "PRICE_FILTER"[1];
  }

  /**
   * The body of the refresh loop for one descriptor: the rules it stores,
   * or None when the loop skips it with `continue`.
   */
  function ParseSymbol(d: SymbolDescriptor): (r: Option<SymbolTradingRules>)
    ensures r.Some? <==> Accepted(d)
    ensures r.Some? ==> r.value.symbol == d.symbol
  {
    if d.status != TradingStatus then None
    else
      var price := FindFilter(d.filters, "PRICE_FILTER");
      var lotSize := FindFilter(d.filters, "LOT_SIZE");
      var minNotional := FindFilter(d.filters, "MIN_NOTIONAL");
      if price.None? || lotSize.None? || minNotional.None? then None
      else
        FilterTypeShape(price.value);
        FilterTypeShape(lotSize.value);
        FilterTypeShape(minNotional.value);
        Some(SymbolTradingRules(
          d.symbol,
          PriceRules(price.value.tickSize, price.value.minPrice, price.value.maxPrice),
          QuantityRules(lotSize.value.stepSize, lotSize.value.minQty, lotSize.value.maxQty),
          minNotional.value.minNotional,
          AllowedOrderTypes(d.orderTypes)))
  }

  /**
   * An accepted descriptor's rules copy the string fields of its first
   * price, lot-size and minimum-notional filters verbatim, and its allowed
   * order types are the whitelisted upstream tags.
   */
  lemma ParseSymbolCopiesFields(d: SymbolDescriptor)
    requires Accepted(d)
    ensures var r := ParseSymbol(d).value;
      && FindFilter(d.filters, "PRICE_FILTER")
           == Some(PriceFilter(r.priceRules.minPrice, r.priceRules.maxPrice, r.priceRules.tickSize))
      && FindFilter(d.filters, "LOT_SIZE")
           == Some(LotSizeFilter(r.quantityRules.minQty, r.quantityRules.maxQty, r.quantityRules.stepSize))
      && FindFilter(d.filters, "MIN_NOTIONAL").Some?
      && FindFilter(d.filters, "MIN_NOTIONAL").value.MinNotionalFilter?
      && FindFilter(d.filters, "MIN_NOTIONAL").value.minNotional == r.minNotional
      && r.allowedOrderTypes == AllowedOrderTypes(d.orderTypes)
  {
    FilterTypeShape(FindFilter(d.filters, "PRICE_FILTER").value);
    FilterTypeShape(FindFilter(d.filters, "LOT_SIZE").value);
    FilterTypeShape(FindFilter(d.filters, "MIN_NOTIONAL").value);
  }

  /**
   * Whether a descriptor is accepted never depends on its order types: an
   * unknown tag, or none at all, never causes a symbol to be skipped.
   */
  lemma OrderTypesNeverReject(d: SymbolDescriptor, tags: seq<string>)
    ensures ParseSymbol(d.(orderTypes := tags)).Some? <==> ParseSymbol(d).Some?
  {
  }

  /**
   * The map the refresh loop builds from the endpoint's symbol list: each
   * accepted descriptor is `set` under its symbol, later ones overwriting
   * earlier ones.
   */
  function BuildRules(ds: seq<SymbolDescriptor>): (m: map<string, SymbolTradingRules>)
    ensures forall s :: s in m ==> m[s].symbol == s
  {
    if ds == [] then map[]
    else
      var d := ds[|ds| - 1];
      var m0 := BuildRules(ds[..|ds| - 1]);
      match ParseSymbol(d)
      case Some(r) => m0[d.symbol := r]
      case None => m0
  }

  /** Some descriptor of the list is accepted and carries the symbol. */
  predicate ListsAccepted(ds: seq<SymbolDescriptor>, s: string)
  {
    exists i :: 0 <= i < |ds| && ds[i].symbol == s && Accepted(ds[i])
  }

  /** The keys of the rebuilt map are exactly the accepted symbols. */
  lemma {:induction false} BuildRulesKeys(ds: seq<SymbolDescriptor>, s: string)
    ensures s in BuildRules(ds) <==> ListsAccepted(ds, s)
  {
    if ds != [] {
      var init := ds[..|ds| - 1];
      var d := ds[|ds| - 1];
      BuildRulesKeys(init, s);
      assert s in BuildRules(ds) <==> s in BuildRules(init) || (d.symbol == s && ParseSymbol(d).Some?);
      if ListsAccepted(ds, s) && !(d.symbol == s && Accepted(d)) {
        var i :| 0 <= i < |ds| && ds[i].symbol == s && Accepted(ds[i]);
        if i == |ds| - 1 {
          assert false;
        }
        assert init[i] == ds[i];
        assert ListsAccepted(init, s);
      }
      if ListsAccepted(init, s) {
        var i :| 0 <= i < |init| && init[i].symbol == s && Accepted(init[i]);
        assert ds[i] == init[i];
        assert ListsAccepted(ds, s);
      }
      if d.symbol == s && Accepted(d) {
        assert ds[|ds| - 1] == d;
        assert ListsAccepted(ds, s);
      }
    }
  }

  /** `ds[i]` is the last accepted descriptor carrying the symbol. */
  predicate IsLastAccepted(ds: seq<SymbolDescriptor>, i: int, s: string)
  {
    && 0 <= i < |ds| && ds[i].symbol == s && Accepted(ds[i])
    && forall j :: i < j < |ds| && ds[j].symbol == s ==> !Accepted(ds[j])
  }

  /** A last accepted occurrence stays last when a descriptor that does not compete is appended. */
  lemma LastAcceptedExtend(ds: seq<SymbolDescriptor>, i: int, s: string)
    requires |ds| > 0 && IsLastAccepted(ds[..|ds| - 1], i, s)
    requires !(ds[|ds| - 1].symbol == s && Accepted(ds[|ds| - 1]))
    ensures IsLastAccepted(ds, i, s)
  {
    var init := ds[..|ds| - 1];
    assert ds[i] == init[i];
    forall j | i < j < |ds| && ds[j].symbol == s ensures !Accepted(ds[j]) {
      if j < |init| {
        assert ds[j] == init[j];
      }
    }
  }

  /**
   * Each stored entry is what the last accepted descriptor with that symbol
   * parses to: later duplicates overwrite earlier ones.
   */
  lemma {:induction false} BuildRulesEntry(ds: seq<SymbolDescriptor>, s: string)
    requires s in BuildRules(ds)
    ensures exists i :: IsLastAccepted(ds, i, s) && ParseSymbol(ds[i]) == Some(BuildRules(ds)[s])
  {
    var init := ds[..|ds| - 1];
    var d := ds[|ds| - 1];
    var m0 := BuildRules(init);
    if d.symbol == s && Accepted(d) {
      assert BuildRules(ds) == m0[s := ParseSymbol(d).value];
      assert IsLastAccepted(ds, |ds| - 1, s);
    } else {
      assert s in m0 && BuildRules(ds)[s] == m0[s];
      BuildRulesEntry(init, s);
      var i :| IsLastAccepted(init, i, s) && ParseSymbol(init[i]) == Some(m0[s]);
      LastAcceptedExtend(ds, i, s);
      assert ds[i] == init[i];
      assert IsLastAccepted(ds, i, s);
    }
  }

  // ---------------------------------------------------------------------
  // The refresh gate as a function on values
  // ---------------------------------------------------------------------

  /** What the endpoint answered, when it is called. */
  datatype Fetch = FetchFailed | Fetched(symbols: seq<SymbolDescriptor>)

  /** The cache's fields: the rules map and the two timestamps. */
  datatype CacheState = CacheState(
    rules: map<string, SymbolTradingRules>,
    lastUpdate: int,
    lastUpdateAttempt: int)

  /** The state of a freshly constructed manager. */
  const InitialState: CacheState := CacheState(map[], 0, 0)

  /**
   * What every reachable state satisfies: each entry sits under its own
   * symbol, and no success is more recent than the last attempt.
   */
  predicate CacheInv(st: CacheState)
  {
    && (forall s :: s in st.rules ==> st.rules[s].symbol == s)
    && st.lastUpdate <= st.lastUpdateAttempt
  }

  /** Which branch of `updateCacheIfNeeded` runs at time `now`. */
  datatype Gate = Fresh | BackingOff | Attempt

  function GateAt(st: CacheState, now: int): (g: Gate)
    ensures g == Fresh ==> |st.rules| > 0
    ensures g != Attempt <==> (|st.rules| > 0 && now - st.lastUpdate <= CacheTtl)
                              || now - st.lastUpdateAttempt < UpdateRetryInterval
  {
    if |st.rules| > 0 && now - st.lastUpdate <= CacheTtl then Fresh
    else if now - st.lastUpdateAttempt < UpdateRetryInterval then BackingOff
    else Attempt
  }

  /** The outcome of one `updateCacheIfNeeded` call. */
  datatype Refresh = Refresh(state: CacheState, ok: bool, called: bool)

  /** `updateCacheIfNeeded` at time `now`, the endpoint answering `fetch` if called. */
  function UpdateCache(st: CacheState, now: int, fetch: Fetch): (r: Refresh)
    ensures r.called <==> GateAt(st, now) == Attempt
    ensures !r.called ==> r.state == st
    ensures r.called ==> r.state.lastUpdateAttempt == now
    ensures r.state.rules != st.rules || r.state.lastUpdate != st.lastUpdate ==> r.called && fetch.Fetched?
    ensures r.ok <==> |r.state.rules| > 0 || (r.called && fetch.Fetched?)
  {
    match GateAt(st, now)
    case Fresh => Refresh(st, true, false)
    case BackingOff => Refresh(st, |st.rules| > 0, false)
    case Attempt =>
      var attempted := st.(lastUpdateAttempt := now);
      match fetch
      case FetchFailed => Refresh(attempted, |st.rules| > 0, true)
      case Fetched(symbols) => Refresh(attempted.(rules := BuildRules(symbols), lastUpdate := now), true, true)
  }

  /** The outcome of one `getTradingRules` call. */
  datatype Answer = Answer(state: CacheState, rules: Option<SymbolTradingRules>, called: bool)

  /** `getTradingRules(symbol)`: refresh if needed, then look the symbol up. */
  function GetTradingRules(st: CacheState, symbol: string, now: int, fetch: Fetch): (a: Answer)
    requires CacheInv(st)
    ensures CacheInv(a.state)
    ensures a.rules.Some? <==> symbol in a.state.rules
    ensures a.rules.Some? ==> a.rules.value == a.state.rules[symbol] && a.rules.value.symbol == symbol
    ensures a.state == UpdateCache(st, now, fetch).state && a.called == UpdateCache(st, now, fetch).called
  {
    UpdateCacheInv(st, now, fetch);
    var r := UpdateCache(st, now, fetch);
    Answer(r.state, if symbol in r.state.rules then Some(r.state.rules[symbol]) else None, r.called)
  }

  /** `updateCacheIfNeeded` preserves the cache invariant. */
  lemma UpdateCacheInv(st: CacheState, now: int, fetch: Fetch)
    requires CacheInv(st)
    ensures CacheInv(UpdateCache(st, now, fetch).state)
  {
  }

  /** Fresh gate: a non-empty cache within the TTL is served without a call and without change. */
  lemma FreshGate(st: CacheState, now: int, fetch: Fetch)
    requires |st.rules| > 0 && now - st.lastUpdate <= CacheTtl
    ensures UpdateCache(st, now, fetch) == Refresh(st, true, false)
  {
  }

  /** Backoff gate: a stale cache within the retry interval of the last attempt is served as is. */
  lemma BackoffGate(st: CacheState, now: int, fetch: Fetch)
    requires !(|st.rules| > 0 && now - st.lastUpdate <= CacheTtl)
    requires now - st.lastUpdateAttempt < UpdateRetryInterval
    ensures UpdateCache(st, now, fetch) == Refresh(st, |st.rules| > 0, false)
  {
  }

  /** An attempt is recorded before the call, so it is kept whether the call fails or succeeds. */
  lemma AttemptRecorded(st: CacheState, now: int, fetch: Fetch)
    requires GateAt(st, now) == Attempt
    ensures UpdateCache(st, now, fetch).called
    ensures UpdateCache(st, now, fetch).state.lastUpdateAttempt == now
  {
  }

  /** A failed call leaves the map and the success time alone and reports whether data remains. */
  lemma FailureKeepsCache(st: CacheState, now: int)
    requires GateAt(st, now) == Attempt
    ensures var r := UpdateCache(st, now, FetchFailed);
      r.state == st.(lastUpdateAttempt := now) && r.ok == (|st.rules| > 0)
  {
  }

  /** With nothing cached, a lookup whose refresh fails calls once and finds nothing. */
  lemma EmptyCacheFailureGivesNone(st: CacheState, symbol: string, now: int)
    requires CacheInv(st) && st.rules == map[]
    requires now - st.lastUpdateAttempt >= UpdateRetryInterval
    ensures var a := GetTradingRules(st, symbol, now, FetchFailed);
      a.called && a.rules.None? && a.state.rules == map[]
  {
  }

  /**
   * A successful call replaces the whole map: its keys are exactly the
   * accepted symbols of the answer, and no earlier entry survives.
   */
  lemma SuccessReplacesCache(st: CacheState, now: int, symbols: seq<SymbolDescriptor>)
    requires GateAt(st, now) == Attempt
    ensures var r := UpdateCache(st, now, Fetched(symbols));
      && r.ok && r.called
      && r.state.lastUpdate == now && r.state.lastUpdateAttempt == now
      && r.state.rules == BuildRules(symbols)
      && (forall s :: s in r.state.rules <==> ListsAccepted(symbols, s))
  {
    forall s ensures s in BuildRules(symbols) <==> ListsAccepted(symbols, s) {
      BuildRulesKeys(symbols, s);
    }
  }

  /** A second lookup within the TTL of a successful, non-empty refresh makes no call. */
  lemma SecondLookupWithinTtl(st: CacheState, t1: int, symbols: seq<SymbolDescriptor>, t2: int, fetch: Fetch)
    requires GateAt(st, t1) == Attempt
    requires |BuildRules(symbols)| > 0
    requires t1 <= t2 <= t1 + CacheTtl
    ensures var r1 := UpdateCache(st, t1, Fetched(symbols));
      UpdateCache(r1.state, t2, fetch) == Refresh(r1.state, true, false)
  {
    var r1 := UpdateCache(st, t1, Fetched(symbols));
    assert r1.state.rules == BuildRules(symbols) && r1.state.lastUpdate == t1;
    assert GateAt(r1.state, t2) == Fresh;
  }

  /** Once the TTL of a successful refresh has passed, the next lookup calls the endpoint again. */
  lemma RefreshAfterTtl(st: CacheState, t1: int, symbols: seq<SymbolDescriptor>, t2: int, fetch: Fetch)
    requires GateAt(st, t1) == Attempt
    requires t2 > t1 + CacheTtl
    ensures var r1 := UpdateCache(st, t1, Fetched(symbols));
      var r2 := UpdateCache(r1.state, t2, fetch);
      r2.called && r2.state.lastUpdateAttempt == t2
  {
  }

  /** After a failed attempt at `t1`, no call is made before `t1 + 30 s` and stale data is served. */
  lemma NoRetryWithinInterval(st: CacheState, t1: int, t2: int, fetch: Fetch)
    requires GateAt(st, t1) == Attempt
    requires t1 <= t2 < t1 + UpdateRetryInterval
    ensures var r1 := UpdateCache(st, t1, FetchFailed);
      var r2 := UpdateCache(r1.state, t2, fetch);
      !r2.called && r2.state == r1.state && r2.ok == (|st.rules| > 0)
  {
  }

  /** After a failed attempt at `t1`, the first lookup at or after `t1 + 30 s` calls again. */
  lemma RetryAfterInterval(st: CacheState, t1: int, t2: int, fetch: Fetch)
    requires GateAt(st, t1) == Attempt
    requires t2 >= t1 + UpdateRetryInterval
    ensures UpdateCache(UpdateCache(st, t1, FetchFailed).state, t2, fetch).called
  {
  }

  /** The exchange answer used by the repository's tests: one tradable symbol, one on break. */
  const MockSymbols: seq<SymbolDescriptor> := [
    SymbolDescriptor("BTCUSDT", "TRADING", ["LIMIT", "MARKET", "STOP_LIMIT", "OCO"],
      [PriceFilter("0.01000000", "1000000.00000000", "0.01000000"),
       LotSizeFilter("0.00001000", "9000.00000000", "0.00001000"),
       MinNotionalFilter("10.00000000", true, 5)]),
    SymbolDescriptor("ETHUSDT", "BREAK", ["LIMIT", "MARKET"], [])]

  /** The rules the tests expect for the tradable symbol. */
  const ExpectedBtcRules: SymbolTradingRules := SymbolTradingRules(
    "BTCUSDT",
    PriceRules("0.01000000", "0.01000000", "1000000.00000000"),
    QuantityRules("0.00001000", "0.00001000", "9000.00000000"),
    "10.00000000",
    [Limit, Market, StopLimit, Oco])

  /**
   * A first lookup (at least 30 s after time zero, the initial attempt time)
   * fetches once and finds the tradable symbol's rules; the symbol on break
   * and an unknown symbol give nothing.
   */
  lemma MockLookups(now: int)
    requires now >= UpdateRetryInterval
    ensures var a := GetTradingRules(InitialState, "BTCUSDT", now, Fetched(MockSymbols));
      a.called && a.rules == Some(ExpectedBtcRules)
    ensures GetTradingRules(InitialState, "ETHUSDT", now, Fetched(MockSymbols)).rules == None
    ensures GetTradingRules(InitialState, "INVALIDPAIR", now, Fetched(MockSymbols)).rules == None
  {
    MockRefresh();
    assert GateAt(InitialState, now) == Attempt;
    var st := UpdateCache(InitialState, now, Fetched(MockSymbols)).state;
    assert st.rules == map["BTCUSDT" := ExpectedBtcRules];
    assert "ETHUSDT"[0] != "BTCUSDT"[0] && "INVALIDPAIR"[0] != "BTCUSDT"[0];
  }

  /** The refresh loop keeps only the tradable symbol of the test answer, with the expected rules. */
  lemma MockRefresh()
    ensures BuildRules(MockSymbols) == map["BTCUSDT" := ExpectedBtcRules]
  {
    MockBtcParses();
    assert ParseSymbol(MockSymbols[1]) == None;
    assert MockSymbols[..1] == [MockSymbols[0]];
    assert MockSymbols[..1][..0] == [];
  }

  /** The tradable symbol of the test answer parses to the expected rules. */
  lemma MockBtcParses()
    ensures ParseSymbol(MockSymbols[0]) == Some(ExpectedBtcRules)
  {
    MockBtcFilters();
    MockBtcOrderTypes();
  }

  /** All four order types of the tradable test symbol are on the whitelist. */
  lemma MockBtcOrderTypes()
    ensures AllowedOrderTypes(MockSymbols[0].orderTypes) == [Limit, Market, StopLimit, Oco]
  {
    AllowedOrderTypesOfNamed([Limit, Market, StopLimit, Oco], MockSymbols[0].orderTypes);
  }

  /** Text that names each order type in turn passes the whitelist whole: filtering it gives those order types. */
  lemma AllowedOrderTypesOfNamed(ts: seq<OrderType>, tags: seq<string>)
    requires |tags| == |ts|
    requires forall i :: 0 <= i < |ts| ==> tags[i] == OrderTypeTag(ts[i])
    ensures AllowedOrderTypes(tags) == ts
  {
    assert Tags(ts) == tags;
    AllowedOrderTypesOfTags(ts);
  }

  /** Each filter the cache looks for is found in the tradable symbol of the test answer. */
  lemma MockBtcFilters()
    ensures var fs := MockSymbols[0].filters;
      && FindFilter(fs, "PRICE_FILTER") == Some(fs[0])
      && FindFilter(fs, "LOT_SIZE") == Some(fs[1])
      && FindFilter(fs, "MIN_NOTIONAL") == Some(fs[2])
  {
    var fs := MockSymbols[0].filters;
    assert FilterType(fs[0]) != "LOT_SIZE" && FilterType(fs[0]) != "MIN_NOTIONAL";
    assert FilterType(fs[1]) != "MIN_NOTIONAL";
    assert fs[1..][0] == fs[1];
    assert fs[1..][1..][0] == fs[2];
  }

  // ---------------------------------------------------------------------
  // The manager object
  // ---------------------------------------------------------------------

  class ExchangeInfoManager {
    var tradingRules: map<string, SymbolTradingRules>
    var lastUpdate: int
    var lastUpdateAttempt: int
    /** How many times the exchange-information endpoint has been called. */
    ghost var calls: nat

    ghost function State(): CacheState
      reads this
    {
      CacheState(tradingRules, lastUpdate, lastUpdateAttempt)
    }

    ghost predicate Valid()
      reads this
    {
      CacheInv(State())
    }

    constructor()
      ensures Valid() && State() == InitialState && calls == 0
    {
      tradingRules := map[];
      lastUpdate := 0;
      lastUpdateAttempt := 0;
      calls := 0;
    }

    /** `getTradingRules(symbol)` at time `now`. */
    method GetTradingRulesAt(symbol: string, now: int, fetch: Fetch) returns (r: Option<SymbolTradingRules>)
      requires Valid()
      modifies this
      ensures Valid()
      ensures var a := GetTradingRules(old(State()), symbol, now, fetch);
        State() == a.state && r == a.rules && calls == old(calls) + (if a.called then 1 else 0)
    {
      var _ := UpdateCacheIfNeeded(now, fetch);
      UpdateCacheInv(old(State()), now, fetch);
      if symbol in tradingRules {
        r := Some(tradingRules[symbol]);
      } else {
        r := None;
      }
    }

    /** `updateCacheIfNeeded` at time `now`; the endpoint answers `fetch` if it is called. */
    method UpdateCacheIfNeeded(now: int, fetch: Fetch) returns (ok: bool)
      modifies this
      ensures var r := UpdateCache(old(State()), now, fetch);
        State() == r.state && ok == r.ok && calls == old(calls) + (if r.called then 1 else 0)
    {
      if |tradingRules| > 0 && now - lastUpdate <= CacheTtl {
        return true;
      }
      if now - lastUpdateAttempt < UpdateRetryInterval {
        return |tradingRules| > 0;
      }
      lastUpdateAttempt := now;
      calls := calls + 1;
      match fetch
      case FetchFailed =>
        ok := |tradingRules| > 0;
      case Fetched(symbols) =>
        tradingRules := map[];
        var i := 0;
        while i < |symbols|
          invariant 0 <= i <= |symbols|
          invariant tradingRules == BuildRules(symbols[..i])
          invariant lastUpdate == old(lastUpdate) && lastUpdateAttempt == now && calls == old(calls) + 1
          decreases |symbols| - i
        {
          var d := symbols[i];
          assert symbols[..i + 1][..i] == symbols[..i];
          match ParseSymbol(d)
          case Some(rules) =>
            tradingRules := tradingRules[d.symbol := rules];
            i := i + 1;
          case None =>
            i := i + 1;
        }
        assert symbols[..|symbols|] == symbols;
        lastUpdate := now;
        ok := true;
    }
  }
}

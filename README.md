# Binance trading-rules cache, balance manager and error normalisation

This project is a Dafny model of three parts of a TypeScript Binance client.

- **Trading-rules cache** (`ExchangeInfoManager`). It keeps, per symbol, the price and quantity rules, the
  minimum notional and the allowed order types. A lookup refreshes the whole map from the
  exchange-information endpoint when needed. Two timestamps and two constants decide when that happens:
  - a TTL of 5 minutes, measured from the last success;
  - a back-off of 30 seconds, measured from the last attempt.
- **Balance manager** (`BalanceManager`). It takes an account snapshot and drops the entries whose free
  and locked amounts are both zero. Subscribers share one streaming connection:
  - the first subscription opens it, and the last unsubscription closes it;
  - every balance event is fanned out to every subscriber.
- **Error normalisation** (`BinanceError` and `BinanceError.from`). Any thrown value becomes a
  `BinanceError`.

Modules:

- `Wrappers` (wrappers.dfy): `Option` and `Result`.
- `TradingTypes` (trading_types.dfy):
  - the six order types and their wire tags;
  - the stored rules record;
  - the symbol descriptor and the seven filter shapes of the exchange answer.
- `ExchangeInfo` (exchange_info.dfy):
  - the order-type whitelist;
  - parsing one descriptor, and rebuilding the map;
  - the refresh gate as a function on a value `CacheState`, with its lemmas;
  - the test scenario;
  - the class `ExchangeInfoManager`. Its methods are proved equal to those functions, and its rebuild
    loop is proved against `BuildRules`.
- `Balances` (balances.dfy): the balance records, `parseFloat(x) > 0` on decimal text, the non-zero filter
  and `getBalances`.
- `BalanceSubscriptions` (balance_manager.dfy):
  - the subscription state machine as functions on a value `SubscriptionState`, with its lemmas;
  - the class `BalanceManager`, whose methods follow those functions, and whose notification loop is
    proved to deliver to every subscriber exactly once.
- `BinanceErrors` (binance_error.dfy): the error record, its constructor and `from`.

Parameters stand in for the outside world:

- the clock (`now`);
- the endpoint's answers (`Fetch`, a `Result` snapshot);
- the environment's credentials (`Credentials`);
- what constructing the socket client yields (`OpenOutcome`);
- inbound socket text, already decoded (`Message`).

Ghost counters record how often the endpoint was called and how often connections were opened and
closed.

All three sources use `minNotionalFilter.minNotional`, and the model follows them.
- The rebuild loop reads that field (src/binance/ExchangeInfoManager.ts:92).
- The filter type the loop casts to declares it (src/types/trading.ts:28), and the rules record stores it under the same name (src/types/trading.ts:45).
- The test mock sends it.

The answer type at src/types/binance.ts:34 names the field `notional`. The model does not follow it.

## Model

| member | source | states |
|---|---|---|
| TradingTypes.OrderTypeTagInjective | src/types/trading.ts:3-9 | The six order types have six distinct wire tags. |
| ExchangeInfo.ParseOrderType | src/binance/ExchangeInfoManager.ts:41-47 | A tag is recognised exactly when it is the tag of some order type, and it is recognised as that order type. |
| ExchangeInfo.IsValidOrderTypeIff | src/binance/ExchangeInfoManager.ts:41-47 | `isValidOrderType(tag)` holds if and only if the tag is one of the six order-type tags. |
| ExchangeInfo.AllowedOrderTypes | src/binance/ExchangeInfoManager.ts:93-95 | An order type is allowed if and only if its tag occurs upstream. There are never more allowed types than upstream tags. |
| ExchangeInfo.AllowedOrderTypesAppend | src/binance/ExchangeInfoManager.ts:93-95 | Whitelisting distributes over concatenation, so upstream order is kept. |
| ExchangeInfo.UnknownOrderTypeDropped | src/binance/ExchangeInfoManager.ts:93-95 | Inserting an unknown tag anywhere in the list leaves the allowed order types unchanged. |
| ExchangeInfo.AllowedOrderTypesSubsequence | src/binance/ExchangeInfoManager.ts:93-95 | The allowed types, written back as tags, are an order-preserving subsequence of the upstream tags. |
| ExchangeInfo.AllowedOrderTypesOfTags | src/binance/ExchangeInfoManager.ts:93-95 | A list made only of known tags passes the whitelist whole. |
| ExchangeInfo.AllowedOrderTypesOfNamed | src/binance/ExchangeInfoManager.ts:93-95 | Text naming each order type in turn filters back to exactly those order types. |
| ExchangeInfo.FindFilter | src/binance/ExchangeInfoManager.ts:74-76 | `filters.find` by tag finds something if and only if a filter with that tag exists. What it finds is in the list and carries the tag. |
| ExchangeInfo.FindFilterFirst | src/binance/ExchangeInfoManager.ts:74-76 | The filter found is the first one with the tag. |
| ExchangeInfo.FilterTypeShape | src/types/binance.ts:63-70 | Each of the three tags the cache searches for names exactly one filter shape. |
| ExchangeInfo.ParseSymbol | src/binance/ExchangeInfoManager.ts:71-96 | A descriptor yields rules if and only if it is `TRADING` and has a price, a lot-size and a minimum-notional filter. The rules are stored under the descriptor's symbol. |
| ExchangeInfo.ParseSymbolCopiesFields | src/binance/ExchangeInfoManager.ts:74-96 | The stored tick size, prices, step size, quantities and minimum notional are the fields of the first filter of each kind, copied verbatim. The allowed order types are the whitelisted upstream tags. |
| ExchangeInfo.OrderTypesNeverReject | src/binance/ExchangeInfoManager.ts:72-78 | Whether a descriptor is accepted does not depend on its order types, so an unknown tag never causes a symbol to be skipped. |
| ExchangeInfo.BuildRules | src/binance/ExchangeInfoManager.ts:67-99 | Every entry of the rebuilt map sits under its own symbol. |
| ExchangeInfo.BuildRulesKeys | src/binance/ExchangeInfoManager.ts:67-99 | A symbol is a key of the rebuilt map if and only if some accepted descriptor lists it. |
| ExchangeInfo.LastAcceptedExtend | src/binance/ExchangeInfoManager.ts:98 | Appending a descriptor for another symbol keeps the last accepted one for a symbol. |
| ExchangeInfo.BuildRulesEntry | src/binance/ExchangeInfoManager.ts:71-99 | The entry stored for a symbol is the parse of its last accepted descriptor, because later `set`s overwrite earlier ones. |
| ExchangeInfo.GetTradingRules | src/binance/ExchangeInfoManager.ts:36-39 | A lookup refreshes as `updateCacheIfNeeded` does. It then returns the entry stored under the symbol, or nothing if there is none. The cache invariant is kept. |
| ExchangeInfo.GateAt | src/binance/ExchangeInfoManager.ts:52-62 | Which branch of `updateCacheIfNeeded` runs. `Fresh` needs cached data, and the endpoint is skipped exactly when the cache is fresh or the last attempt is under 30 seconds old. |
| ExchangeInfo.UpdateCache | src/binance/ExchangeInfoManager.ts:49-107 | `updateCacheIfNeeded` with its three branches: fresh (see FreshGate), backing off (BackoffGate), and attempt (AttemptRecorded, then FailureKeepsCache or SuccessReplacesCache). Its own contract: the endpoint is called exactly when both gates pass; without a call nothing changes; a call stamps the attempt time; only a successful call touches the map or the success time; the result is true exactly when data is cached or a successful call was just made. |
| ExchangeInfo.UpdateCacheInv | src/binance/ExchangeInfoManager.ts:49-107 | Every refresh keeps two facts: each entry sits under its own symbol, and the last success is never later than the last attempt. |
| ExchangeInfo.FreshGate | src/binance/ExchangeInfoManager.ts:52-55 | A non-empty cache within 5 minutes of the last success is served as true. There is no call and no change. |
| ExchangeInfo.BackoffGate | src/binance/ExchangeInfoManager.ts:57-60 | Otherwise, within 30 seconds of the last attempt, there is no call and no change. The result says whether data is cached. |
| ExchangeInfo.AttemptRecorded | src/binance/ExchangeInfoManager.ts:62-65 | Past both gates the endpoint is called, and the attempt time is `now`, whatever the call returns. |
| ExchangeInfo.FailureKeepsCache | src/binance/ExchangeInfoManager.ts:103-106 | A failed call changes only the attempt time. The result says whether data is cached. |
| ExchangeInfo.EmptyCacheFailureGivesNone | tests/binance/ExchangeInfoManager.test.ts:141-151 | With an empty cache, a lookup whose refresh fails calls once and finds nothing. |
| ExchangeInfo.SuccessReplacesCache | src/binance/ExchangeInfoManager.ts:64-102 | A successful call replaces the whole map by the rebuilt one. Its keys are exactly the accepted symbols, both timestamps become `now`, and the result is true. |
| ExchangeInfo.SecondLookupWithinTtl | tests/binance/ExchangeInfoManager.test.ts:64-68 | After a successful refresh with data, a lookup within the TTL makes no second call. |
| ExchangeInfo.RefreshAfterTtl | tests/binance/ExchangeInfoManager.test.ts:70-78 | After a successful refresh, the first lookup past the TTL calls the endpoint again. |
| ExchangeInfo.NoRetryWithinInterval | tests/binance/ExchangeInfoManager.test.ts:101-118 | After a failed attempt, lookups within 30 seconds make no call. They serve the stale map unchanged. |
| ExchangeInfo.RetryAfterInterval | tests/binance/ExchangeInfoManager.test.ts:120-139 | After a failed attempt, the first lookup 30 seconds or more later calls again. |
| ExchangeInfo.MockLookups | tests/binance/ExchangeInfoManager.test.ts:48-62 | On the test answer, a first lookup fetches once and returns the expected BTCUSDT rules. ETHUSDT (on break) and an unknown pair return nothing. |
| ExchangeInfo.MockRefresh | tests/mocks/exchangeInfo.mock.ts:15-51 | The test answer rebuilds to a map holding only BTCUSDT, with the expected rules. |
| ExchangeInfo.MockBtcParses | tests/mocks/exchangeInfo.mock.ts:54-68 | The tradable test symbol parses to the expected rules. |
| ExchangeInfo.MockBtcOrderTypes | tests/mocks/exchangeInfo.mock.ts:21 | All four order types of the test symbol are allowed, in order. |
| ExchangeInfo.MockBtcFilters | tests/mocks/exchangeInfo.mock.ts:22-41 | Each filter the cache searches for is found in the test symbol. |
| ExchangeInfo.ExchangeInfoManager.constructor | src/binance/ExchangeInfoManager.ts:14-22 | A new manager has an empty map and both timestamps at 0, and satisfies the invariant. |
| ExchangeInfo.ExchangeInfoManager.GetTradingRulesAt | src/binance/ExchangeInfoManager.ts:36-39 | The object's new state and its answer are those of `GetTradingRules`. The endpoint counter grows by one exactly when a call is made. |
| ExchangeInfo.ExchangeInfoManager.UpdateCacheIfNeeded | src/binance/ExchangeInfoManager.ts:49-107 | Early returns, the attempt stamp, clearing the map and the `set` loop leave exactly the state and result of `UpdateCache`. The endpoint counter grows by one exactly when a call is made. |
| Balances.TrimStart | src/binance/BalanceManager.ts:124-125 | `parseFloat` skips leading white space: the result is a suffix of the input, every character removed is white space, and the result does not start with white space. |
| Balances.IsPositiveAmount | src/binance/BalanceManager.ts:124-126 | `parseFloat(x) > 0`: after white space and an optional `+`, the text starts with `Infinity` or with a non-zero decimal numeral; a leading `-` is never positive. Its behaviour on decimal text is stated by IsPositiveDecimalText. |
| Balances.IsNonZero | src/binance/BalanceManager.ts:123-127 | An entry is kept when its free or its locked amount is positive. |
| Balances.MantissaNonZeroIff | src/binance/BalanceManager.ts:124-126 | On digits with at most one point, the numeral is non-zero if and only if some digit is non-zero. |
| Balances.IsPositiveDecimalText | src/binance/BalanceManager.ts:124-126 | A plain decimal amount parses to a positive number if and only if one of its digits is non-zero. |
| Balances.FilterNonZeroBalances | src/binance/BalanceManager.ts:122-132 | An output entry exists if and only if some input entry has a positive free or locked amount and projects to it. The output is never longer than the input. |
| Balances.FilterNonZeroBalancesAppend | src/binance/BalanceManager.ts:122-132 | The filter distributes over concatenation, so input order is kept. |
| Balances.FilterNonZeroBalancesAllZero | src/binance/BalanceManager.ts:122-132 | A list with no positive entry filters to nothing. |
| Balances.FilterNonZeroBalancesAllNonZero | src/binance/BalanceManager.ts:122-132 | A list of positive entries keeps every entry, in place, projected to asset, free and locked. |
| Balances.FilterNonZeroBalancesSingle | src/binance/BalanceManager.ts:122-132 | One entry is kept, projected, exactly when it is positive. |
| Balances.FilterDropsMiddle | src/binance/BalanceManager.ts:122-132 | Of three entries, a zero entry between two positive ones is the only one dropped. |
| Balances.GetBalances | src/binance/BalanceManager.ts:23-31 | The snapshot call fails if and only if the endpoint fails, and then only with the generic message. On success the result is the filtered list itself, in input order, so an entry is in it exactly when a positive input entry projects to it. |
| Balances.MockSnapshot | tests/binance/BalanceManager.test.ts:73-95 | The test snapshot yields BTC and USDT with their text unchanged. ETH is dropped. |
| Balances.MockAmounts | tests/binance/BalanceManager.test.ts:75-77 | "1.0" and "100.0" are positive, and "0.0" is not. |
| Balances.OnePositive | tests/binance/BalanceManager.test.ts:75 | "1.0" is positive. |
| Balances.ZeroNotPositive | tests/binance/BalanceManager.test.ts:76 | "0.0" is not positive. |
| Balances.HundredPositive | tests/binance/BalanceManager.test.ts:77 | "100.0" is positive. |
| BalanceSubscriptions.HasCredentials | src/binance/BalanceManager.ts:61-64 | The key and the secret are both set and neither is empty, so the missing-credentials check does not fire. |
| BalanceSubscriptions.InitializeWebSocket | src/binance/BalanceManager.ts:60-105 | Without credentials it raises the credentials error. Otherwise it holds the new handle and counts one open, or it raises the initialisation error. No error exactly when credentials are present and construction succeeds, and a failure changes nothing. |
| BalanceSubscriptions.Subscribe | src/binance/BalanceManager.ts:37-43 | The callback is added before anything else, at most one connection is opened, and nothing is disconnected. An error leaves no connection and no new open. |
| BalanceSubscriptions.Cleanup | src/binance/BalanceManager.ts:110-115 | Afterwards no connection is held. The disconnect count grows by one exactly when a connection was held, and the subscribers are untouched. |
| BalanceSubscriptions.Unsubscribe | src/binance/BalanceManager.ts:49-55 | The callback is removed and nothing is opened. Once nobody is left no connection is held, and at most one disconnect happens. |
| BalanceSubscriptions.MissingCredentialsMessage | tests/binance/BalanceManager.test.ts:213-219 | Subscribing without credentials and with no connection fails with "Binance API credentials not found in environment variables". |
| BalanceSubscriptions.SubscribeInv | src/binance/BalanceManager.ts:37-43 | Subscribing keeps the invariant, whatever the credentials and the transport do. The invariant: no subscribers means no connection, and every open but the held connection has been disconnected. |
| BalanceSubscriptions.UnsubscribeInv | src/binance/BalanceManager.ts:49-55 | Unsubscribing keeps that invariant. |
| BalanceSubscriptions.SubscribeEffect | src/binance/BalanceManager.ts:37-43 | Subscribing adds the callback with set semantics and keeps a held connection. With no connection it behaves by case: no credentials raises the credentials error and opens nothing; a failed construction raises the initialisation error; otherwise it holds the new handle. The callback stays registered in every case. |
| BalanceSubscriptions.UnsubscribeEffect | src/binance/BalanceManager.ts:49-55 | Unsubscribing removes the callback. When nobody is left, the held connection is disconnected once and dropped. Otherwise the connection is kept. |
| BalanceSubscriptions.ManySubscribersOneOpen | tests/binance/BalanceManager.test.ts:221-226 | Starting with no connection, with credentials present and a transport that opens, a non-empty run of subscriptions registers all of them and opens exactly one connection. |
| BalanceSubscriptions.SubscribersKeepConnection | src/binance/BalanceManager.ts:40-42 | While a connection is held, further subscribers open nothing and close nothing. |
| BalanceSubscriptions.LastUnsubscribeDisconnectsOnce | src/binance/BalanceManager.ts:49-55 | Once every subscriber has left, in any order, the held connection has been disconnected exactly once, and none is held. |
| BalanceSubscriptions.ResubscribeReopens | src/binance/BalanceManager.ts:37-43 | After the last subscriber left, the next subscription, with credentials present and a transport that opens, opens a fresh connection. |
| BalanceSubscriptions.BalanceManager.constructor | src/binance/BalanceManager.ts:12-17 | A new manager has no subscribers and no connection. |
| BalanceSubscriptions.BalanceManager.SubscribeToBalanceUpdates | src/binance/BalanceManager.ts:37-43 | The new state and the error are those of `Subscribe`, and the invariant is kept. |
| BalanceSubscriptions.BalanceManager.InitializeWebSocketWith | src/binance/BalanceManager.ts:60-105 | The credentials are checked first. Then the new handle is held, or the initialisation error is raised. |
| BalanceSubscriptions.BalanceManager.UnsubscribeFromBalanceUpdates | src/binance/BalanceManager.ts:49-55 | The new state is that of `Unsubscribe`, and the invariant is kept. |
| BalanceSubscriptions.BalanceManager.CleanupConnection | src/binance/BalanceManager.ts:110-115 | A held connection is disconnected once and dropped. Without one, nothing changes. |
| BalanceSubscriptions.BalanceManager.OnOpen | src/binance/BalanceManager.ts:71-76 | Opening sends exactly one account request, with a receive window of 5000. |
| BalanceSubscriptions.BalanceManager.OnMessage | src/binance/BalanceManager.ts:77-89 | A balance event delivers its filtered list to every subscriber exactly once. Any other message, including undecodable text, delivers nothing. The manager is unchanged. |
| BalanceSubscriptions.BalanceManager.NotifyBalanceUpdates | src/binance/BalanceManager.ts:138-142 | Every registered callback is called exactly once with the list, and nobody else is called. |
| BinanceErrors.NewBinanceError | src/core/errors/BinanceError.ts:3-9 | The error keeps the given message and original error and is named `BinanceError`. |
| BinanceErrors.From | src/core/errors/BinanceError.ts:11-18 | A `BinanceError` is returned as is. An `Error` keeps its message. Anything else gets "Unknown error occurred". Both wrapped kinds keep the input as the original error and are named `BinanceError`. |
| BinanceErrors.FromIdempotent | src/core/errors/BinanceError.ts:11-18 | Given a well-formed `BinanceError` or any other value, `from` yields a well-formed error, and applying it to its own result changes nothing. A `BinanceError` whose name was changed is returned as is, so it is excluded. |

## Left out

- The endpoints and the socket are parameters, not modelled calls:
  - `exchangeInformation` becomes `Fetch`;
  - `userAsset` becomes a `Result` snapshot;
  - the `WebsocketAPI` constructor becomes `OpenOutcome`;
  - `account` and `disconnect` are ghost records.
- `Date.now` is the parameter `now`.
- Each public call is atomic. Interleavings of `async` calls, such as two refreshes racing, are not modelled.
- `getInstance`, the singleton and client wiring, and reading the credentials from the environment are
  not modelled. The credentials are the parameter `Credentials`.
- Console logging is not modelled.
- The socket's `close` and `error` handlers are not modelled. They only log.
- `JSON.parse` is not modelled. Inbound text is `Message`, and any text that does not decode to an event
  is `Malformed`. An event with a missing or non-list `B` field throws inside the handler's `catch` and
  delivers nothing. The model folds that case into `Malformed`.
- Balances.IsPositiveAmount: models `parseFloat(x) > 0` by reading the leading numeral exactly. Exponents
  (`"1e-400"`), and underflow to zero are not modelled, because they need binary
  floating point. The exact lemma covers plain decimal text, which is how the exchange sends amounts.
- ExchangeInfo.ExchangeInfoManager.UpdateCacheIfNeeded: assumes well-typed descriptors, so the
  rebuild loop cannot throw. In the code, an exception thrown after `clear()` would leave a partly rebuilt
  map, and the failure path would report it.
- Filter fields are not checked to be strings, since they are typed. Only the presence of each filter
  is checked, as the code does.
- BalanceSubscriptions.BalanceManager.NotifyBalanceUpdates: calls the subscribers in an unspecified
  order, where a JavaScript `Set` iterates in insertion order. A callback that throws would abort the
  `forEach` and is not modelled.
- The TTL and the retry interval are fixed constants, as in the code. There is no forced update and no
  listing of all rules, because the code has neither.

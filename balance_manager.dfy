/**
 * The balance subscription manager (src/binance/BalanceManager.ts): a set
 * of subscriber callbacks sharing at most one streaming connection, opened
 * by the first subscription and closed when the last subscriber leaves.
 *
 * Callbacks are known by identity, the connection by the handle the
 * transport hands back, and the credentials read from the environment are
 * a parameter. The transport's opens and disconnects are counted in ghost
 * fields. Each state change is given first as a function on a value
 * `SubscriptionState`; the class follows those functions.
 */
module BalanceSubscriptions {
  import opened Wrappers
  import opened Balances

  /** The identity of a registered callback. */
  type CallbackId = nat

  /** The handle of one streaming connection. */
  type ConnId = nat

  /** The API key and secret as the environment provides them, if at all. */
  datatype Credentials = Credentials(apiKey: Option<string>, apiSecret: Option<string>)

  /** `!apiKey || !apiSecret` is false: both are set and neither is empty. */
  predicate HasCredentials(c: Credentials)
  {
    c.apiKey.Some? && c.apiKey.value != "" && c.apiSecret.Some? && c.apiSecret.value != ""
  }

  /** What constructing the transport client yields: a handle, or a thrown error. */
  datatype OpenOutcome = Opened(conn: ConnId) | OpenFailed

  /** The errors a subscription can raise. */
  datatype SubscribeError = CredentialsNotFound | WebSocketInitFailed

  function ErrorMessage(e: SubscribeError): string
  {
    match e
    case CredentialsNotFound => "Binance API credentials not found in environment variables"
    case WebSocketInitFailed => "Failed to initialize WebSocket connection"
  }

  /** The receive window of the account request sent when the connection opens (ms). */
  const RecvWindow: nat := 5000

  /** The event tag of a balance-change message. */
  const BalanceEventTag: string := "outboundAccountPosition"

  /** An inbound message: text that is not JSON, or an event with its tag and balance list. */
  datatype Message = Malformed | Event(tag: string, balances: seq<BinanceBalance>)

  predicate IsBalanceEvent(m: Message)
  {
    m.Event? && m.tag == BalanceEventTag
  }

  /** One invocation of a subscriber callback with a balance list. */
  datatype Delivery = Delivery(callback: CallbackId, balances: seq<AssetBalance>)

  /** Every subscriber in `cbs` receives `payload` exactly once, and nobody else receives anything. */
  predicate DeliversToAll(calls: seq<Delivery>, cbs: set<CallbackId>, payload: seq<AssetBalance>)
  {
    && |calls| == |cbs|
    && (forall i :: 0 <= i < |calls| ==> calls[i].callback in cbs && calls[i].balances == payload)
    && (forall c :: c in cbs ==> exists i :: 0 <= i < |calls| && calls[i].callback == c)
    && (forall i, j :: 0 <= i < j < |calls| ==> calls[i].callback != calls[j].callback)
  }

  // ---------------------------------------------------------------------
  // The subscription state machine as functions on values
  // ---------------------------------------------------------------------

  /** The manager's fields, with the transport's open and disconnect counts. */
  datatype SubscriptionState = SubscriptionState(
    callbacks: set<CallbackId>,
    conn: Option<ConnId>,
    opens: nat,
    disconnects: nat)

  const InitialSubscriptionState: SubscriptionState := SubscriptionState({}, None, 0, 0)

  /**
   * What every reachable state satisfies: an idle manager holds no
   * connection, and every open connection but the held one was disconnected.
   */
  predicate SubscriptionInv(st: SubscriptionState)
  {
    && (st.callbacks == {} ==> st.conn.None?)
    && st.opens == st.disconnects + (if st.conn.Some? then 1 else 0)
  }

  /** `initializeWebSocket`: check the credentials, then construct the client. */
  function InitializeWebSocket(st: SubscriptionState, creds: Credentials, open: OpenOutcome)
    : (r: (SubscriptionState, Option<SubscribeError>))
    ensures r.1.None? <==> HasCredentials(creds) && open.Opened?
    ensures r.1.None? ==> r.0 == st.(conn := Some(open.conn), opens := st.opens + 1)
    ensures r.1.Some? ==> r.0 == st
    ensures r.1 == Some(CredentialsNotFound) <==> !HasCredentials(creds)
  {
    if !HasCredentials(creds) then (st, Some(CredentialsNotFound))
    else match open
      case Opened(c) => (st.(conn := Some(c), opens := st.opens + 1), None)
      case OpenFailed => (st, Some(WebSocketInitFailed))
  }

  /** `subscribeToBalanceUpdates`: register, then open a connection if none is held. */
  function Subscribe(st: SubscriptionState, cb: CallbackId, creds: Credentials, open: OpenOutcome)
    : (r: (SubscriptionState, Option<SubscribeError>))
    ensures r.0.callbacks == st.callbacks + {cb}
    ensures r.0.opens <= st.opens + 1 && r.0.disconnects == st.disconnects
    ensures r.1.Some? ==> st.conn.None? && r.0.conn.None? && r.0.opens == st.opens
  {
    var registered := st.(callbacks := st.callbacks + {cb});
    if registered.conn.None? then InitializeWebSocket(registered, creds, open) else (registered, None)
  }

  /** `cleanup`: disconnect and drop the held connection, if any. */
  function Cleanup(st: SubscriptionState): (r: SubscriptionState)
    ensures r.conn.None? && r.callbacks == st.callbacks && r.opens == st.opens
    ensures r.disconnects == st.disconnects + (if st.conn.Some? then 1 else 0)
  {
    if st.conn.Some? then st.(conn := None, disconnects := st.disconnects + 1) else st
  }

  /** `unsubscribeFromBalanceUpdates`: remove, then clean up once nobody is left. */
  function Unsubscribe(st: SubscriptionState, cb: CallbackId): (r: SubscriptionState)
    ensures r.callbacks == st.callbacks - {cb} && r.opens == st.opens
    ensures r.callbacks == {} ==> r.conn.None?
    ensures r.disconnects <= st.disconnects + 1
  {
    var removed := st.(callbacks := st.callbacks - {cb});
    if removed.callbacks == {} then Cleanup(removed) else removed
  }

  /** Subscribing keeps the invariant, whatever the credentials and the transport do. */
  lemma SubscribeInv(st: SubscriptionState, cb: CallbackId, creds: Credentials, open: OpenOutcome)
    requires SubscriptionInv(st)
    ensures SubscriptionInv(Subscribe(st, cb, creds, open).0)
  {
  }

  /** Unsubscribing keeps the invariant. */
  lemma UnsubscribeInv(st: SubscriptionState, cb: CallbackId)
    requires SubscriptionInv(st)
    ensures SubscriptionInv(Unsubscribe(st, cb))
  {
  }

  /**
   * Subscribing registers the callback (set semantics) and opens a
   * connection exactly when none was held and the credentials and the
   * transport allow it; a held connection is kept.
   */
  lemma SubscribeEffect(st: SubscriptionState, cb: CallbackId, creds: Credentials, open: OpenOutcome)
    ensures var (st', err) := Subscribe(st, cb, creds, open);
      && st'.callbacks == st.callbacks + {cb}
      && st'.disconnects == st.disconnects
      && (st.conn.Some? ==> st' == st.(callbacks := st.callbacks + {cb}) && err.None?)
      && (st.conn.None? && !HasCredentials(creds) ==>
            st'.conn.None? && st'.opens == st.opens && err == Some(CredentialsNotFound))
      && (st.conn.None? && HasCredentials(creds) && open.Opened? ==>
            st'.conn == Some(open.conn) && st'.opens == st.opens + 1 && err.None?)
      && (st.conn.None? && HasCredentials(creds) && open.OpenFailed? ==>
            st'.conn.None? && st'.opens == st.opens && err == Some(WebSocketInitFailed))
  {
  }

  /**
   * Unsubscribing removes the callback; the connection is disconnected once
   * and dropped when the set becomes empty, and kept otherwise.
   */
  lemma UnsubscribeEffect(st: SubscriptionState, cb: CallbackId)
    ensures var st' := Unsubscribe(st, cb);
      && st'.callbacks == st.callbacks - {cb}
      && st'.opens == st.opens
      && (st'.callbacks != {} ==> st'.conn == st.conn && st'.disconnects == st.disconnects)
      && (st'.callbacks == {} ==>
            st'.conn.None? && st'.disconnects == st.disconnects + (if st.conn.Some? then 1 else 0))
  {
  }

  /** Subscribing each callback of the list in turn. */
  function SubscribeAll(st: SubscriptionState, cbs: seq<CallbackId>, creds: Credentials, conn: ConnId)
    : SubscriptionState
    decreases |cbs|
  {
    if cbs == [] then st else SubscribeAll(Subscribe(st, cbs[0], creds, Opened(conn)).0, cbs[1..], creds, conn)
  }

  /** Unsubscribing each callback of the list in turn. */
  function UnsubscribeAll(st: SubscriptionState, cbs: seq<CallbackId>): SubscriptionState
    decreases |cbs|
  {
    if cbs == [] then st else UnsubscribeAll(Unsubscribe(st, cbs[0]), cbs[1..])
  }

  /**
   * Any number of subscribers, starting without a connection and with
   * credentials, cause exactly one open.
   */
  lemma {:induction false} ManySubscribersOneOpen(st: SubscriptionState, cbs: seq<CallbackId>,
                                                  creds: Credentials, conn: ConnId)
    requires st.conn.None? && HasCredentials(creds) && cbs != []
    ensures var st' := SubscribeAll(st, cbs, creds, conn);
      && st'.callbacks == st.callbacks + (set c | c in cbs)
      && st'.conn == Some(conn)
      && st'.opens == st.opens + 1
      && st'.disconnects == st.disconnects
  {
    var st1 := Subscribe(st, cbs[0], creds, Opened(conn)).0;
    assert st1.conn == Some(conn) && st1.opens == st.opens + 1;
    SubscribersKeepConnection(st1, cbs[1..], creds, conn);
    assert (set c | c in cbs) == {cbs[0]} + (set c | c in cbs[1..]);
  }

  /** While a connection is held, further subscribers open nothing. */
  lemma {:induction false} SubscribersKeepConnection(st: SubscriptionState, cbs: seq<CallbackId>,
                                                     creds: Credentials, conn: ConnId)
    requires st.conn.Some?
    ensures var st' := SubscribeAll(st, cbs, creds, conn);
      && st'.callbacks == st.callbacks + (set c | c in cbs)
      && st'.conn == st.conn && st'.opens == st.opens && st'.disconnects == st.disconnects
    decreases |cbs|
  {
    if cbs != [] {
      var st1 := Subscribe(st, cbs[0], creds, Opened(conn)).0;
      SubscribersKeepConnection(st1, cbs[1..], creds, conn);
      assert (set c | c in cbs) == {cbs[0]} + (set c | c in cbs[1..]);
    }
  }

  /**
   * Once every subscriber has left, in any order, the connection held at
   * the start has been disconnected exactly once and none is held.
   */
  lemma {:induction false} LastUnsubscribeDisconnectsOnce(st: SubscriptionState, cbs: seq<CallbackId>)
    requires SubscriptionInv(st) && st.callbacks <= (set c | c in cbs)
    ensures var st' := UnsubscribeAll(st, cbs);
      && st'.callbacks == {} && st'.conn.None?
      && st'.opens == st.opens
      && st'.disconnects == st.disconnects + (if st.conn.Some? then 1 else 0)
    decreases |cbs|
  {
    if cbs != [] {
      var st1 := Unsubscribe(st, cbs[0]);
      assert st1.callbacks <= (set c | c in cbs[1..]);
      LastUnsubscribeDisconnectsOnce(st1, cbs[1..]);
    }
  }

  /**
   * A subscription that has to open a connection without credentials fails
   * with the text the callers see.
   */
  lemma MissingCredentialsMessage(st: SubscriptionState, cb: CallbackId, creds: Credentials, open: OpenOutcome)
    requires st.conn.None? && !HasCredentials(creds)
    ensures var err := Subscribe(st, cb, creds, open).1;
      err.Some? && ErrorMessage(err.value) == "Binance API credentials not found in environment variables"
  {
  }

  /** After the connection was closed, the next subscription opens a fresh one. */
  lemma ResubscribeReopens(st: SubscriptionState, cb: CallbackId, creds: Credentials, c: ConnId)
    requires SubscriptionInv(st) && st.callbacks == {} && HasCredentials(creds)
    ensures var st' := Subscribe(st, cb, creds, Opened(c)).0;
      st'.conn == Some(c) && st'.opens == st.opens + 1 && st'.callbacks == {cb}
  {
  }

  // ---------------------------------------------------------------------
  // The manager object
  // ---------------------------------------------------------------------

  class BalanceManager {
    var balanceCallbacks: set<CallbackId>
    var wsClient: Option<ConnId>
    /** Connections the transport has opened and disconnected. */
    ghost var opens: nat
    ghost var disconnects: nat
    /** The receive window of each account request sent over a connection. */
    ghost var accountRequests: seq<nat>

    ghost function State(): SubscriptionState
      reads this
    {
      SubscriptionState(balanceCallbacks, wsClient, opens, disconnects)
    }

    ghost predicate Valid()
      reads this
    {
      SubscriptionInv(State())
    }

    constructor()
      ensures Valid() && State() == InitialSubscriptionState && accountRequests == []
    {
      balanceCallbacks := {};
      wsClient := None;
      opens := 0;
      disconnects := 0;
      accountRequests := [];
    }

    /**
     * `subscribeToBalanceUpdates(callback)` with the environment's
     * credentials; `open` is what the transport yields if it is constructed.
     */
    method SubscribeToBalanceUpdates(cb: CallbackId, creds: Credentials, open: OpenOutcome)
      returns (err: Option<SubscribeError>)
      requires Valid()
      modifies this`balanceCallbacks, this`wsClient, this`opens
      ensures Valid()
      ensures (State(), err) == Subscribe(old(State()), cb, creds, open)
    {
      balanceCallbacks := balanceCallbacks + {cb};
      err := None;
      if wsClient.None? {
        err := InitializeWebSocketWith(creds, open);
      }
    }

    /** `initializeWebSocket`: fails without credentials, else holds the new handle. */
    method InitializeWebSocketWith(creds: Credentials, open: OpenOutcome) returns (err: Option<SubscribeError>)
      modifies this`wsClient, this`opens
      ensures (State(), err) == InitializeWebSocket(old(State()), creds, open)
    {
      if !HasCredentials(creds) {
        return Some(CredentialsNotFound);
      }
      match open
      case Opened(c) =>
        wsClient := Some(c);
        opens := opens + 1;
        err := None;
      case OpenFailed =>
        err := Some(WebSocketInitFailed);
    }

    /** `unsubscribeFromBalanceUpdates(callback)`. */
    method UnsubscribeFromBalanceUpdates(cb: CallbackId)
      requires Valid()
      modifies this`balanceCallbacks, this`wsClient, this`disconnects
      ensures Valid()
      ensures State() == Unsubscribe(old(State()), cb)
    {
      balanceCallbacks := balanceCallbacks - {cb};
      if |balanceCallbacks| == 0 {
        CleanupConnection();
      }
    }

    /** `cleanup`: disconnect the held connection, if any, and drop it. */
    method CleanupConnection()
      modifies this`wsClient, this`disconnects
      ensures State() == Cleanup(old(State()))
    {
      if wsClient.Some? {
        disconnects := disconnects + 1;
        wsClient := None;
      }
    }

    /** The `open` handler: one account request with the fixed receive window. */
    method OnOpen()
      modifies this`accountRequests
      ensures accountRequests == old(accountRequests) + [RecvWindow]
    {
      accountRequests := accountRequests + [RecvWindow];
    }

    /**
     * The `message` handler: a balance event delivers its filtered balances
     * to every subscriber; any other message delivers nothing. Nothing of
     * the manager changes.
     */
    method OnMessage(msg: Message) returns (calls: seq<Delivery>)
      ensures IsBalanceEvent(msg) ==> DeliversToAll(calls, balanceCallbacks, FilterNonZeroBalances(msg.balances))
      ensures !IsBalanceEvent(msg) ==> calls == []
    {
      calls := [];
      match msg
      case Malformed =>
      case Event(tag, balances) =>
        if tag == BalanceEventTag {
          var updated := FilterNonZeroBalances(balances);
          calls := NotifyBalanceUpdates(updated);
        }
    }

    /** `notifyBalanceUpdates`: call every registered callback once with the list. */
    method NotifyBalanceUpdates(balances: seq<AssetBalance>) returns (calls: seq<Delivery>)
      ensures DeliversToAll(calls, balanceCallbacks, balances)
    {
      calls := [];
      var remaining := balanceCallbacks;
      ghost var done: set<CallbackId> := {};
      while remaining != {}
        invariant remaining <= balanceCallbacks && done == balanceCallbacks - remaining
        invariant |calls| == |done|
        invariant forall i :: 0 <= i < |calls| ==> calls[i].callback in done && calls[i].balances == balances
        invariant forall c :: c in done ==> exists i :: 0 <= i < |calls| && calls[i].callback == c
        invariant forall i, j :: 0 <= i < j < |calls| ==> calls[i].callback != calls[j].callback
        decreases |remaining|
      {
        var cb :| cb in remaining;
        ghost var before := calls;
        calls := calls + [Delivery(cb, balances)];
        assert forall i :: 0 <= i < |before| ==> calls[i] == before[i];
        assert calls[|before|].callback == cb;
        remaining := remaining - {cb};
        done := done + {cb};
      }
    }
  }
}

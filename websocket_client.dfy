/**
 * The web client's WebSocket context: it opens a socket only for an
 * authenticated user with a token, tracks whether the socket is connected,
 * and keeps the 50 most recent order updates, newest first.
 */
module WebSocketClient {
  import opened Wrappers
  import opened SharedTypes

  /** At most this many order updates are kept. */
  const HISTORY_LIMIT: nat := 50

  const OUTSIDE_PROVIDER: string := "useWebSocket must be used within a WebSocketProvider"

  function Min(a: int, b: int): int
  {
    if a <= b then a else b
  }

  /** `[data, ...prev].slice(0, 50)`: the new update first, then as many earlier ones as fit. */
  function PushUpdate<T>(prev: seq<T>, data: T): (r: seq<T>)
    ensures |r| == Min(|prev| + 1, HISTORY_LIMIT)
    ensures r[0] == data
    ensures r[1..] == prev[..Min(|prev|, HISTORY_LIMIT - 1)]
  {
    ([data] + prev)[..Min(|prev| + 1, HISTORY_LIMIT)]
  }

  /** The history after a run of updates, delivered in order, starting from `prev`. */
  function PushAll<T>(prev: seq<T>, updates: seq<T>): seq<T>
    decreases |updates|
  {
    if updates == [] then prev else PushAll(PushUpdate(prev, updates[0]), updates[1..])
  }

  function Reversed<T>(s: seq<T>): (r: seq<T>)
    ensures |r| == |s|
    ensures forall i :: 0 <= i < |s| ==> r[i] == s[|s| - 1 - i]
  {
    if s == [] then [] else Reversed(s[1..]) + [s[0]]
  }

  /**
   * The history holds the most recent updates, newest first: after any run of
   * updates it is the run reversed followed by the earlier history, cut at 50.
   */
  lemma {:induction false} HistoryIsNewestFirst<T>(prev: seq<T>, updates: seq<T>)
    requires |prev| <= HISTORY_LIMIT
    ensures var all := Reversed(updates) + prev;
      PushAll(prev, updates) == all[..Min(|all|, HISTORY_LIMIT)]
    decreases |updates|
  {
    if updates != [] {
      var x, rest := updates[0], updates[1..];
      var pushed := PushUpdate(prev, x);
      var all := Reversed(updates) + prev;
      var mid := Reversed(rest) + pushed;
      var full := Reversed(rest) + ([x] + prev);
      calc {
        PushAll(prev, updates);
        PushAll(pushed, rest);
        { HistoryIsNewestFirst(pushed, rest); }
        mid[..Min(|mid|, HISTORY_LIMIT)];
        { assert pushed == ([x] + prev)[..Min(|prev| + 1, HISTORY_LIMIT)];
          assert forall i :: 0 <= i < Min(|mid|, HISTORY_LIMIT) ==> mid[i] == full[i]; }
        full[..Min(|full|, HISTORY_LIMIT)];
        { assert all == full; }
        all[..Min(|all|, HISTORY_LIMIT)];
      }
    }
  }

  /** The history never holds more than 50 updates. */
  lemma {:induction false} HistoryBounded<T>(prev: seq<T>, updates: seq<T>)
    requires |prev| <= HISTORY_LIMIT
    ensures |PushAll(prev, updates)| <= HISTORY_LIMIT
    decreases |updates|
  {
    if updates != [] {
      HistoryBounded(PushUpdate(prev, updates[0]), updates[1..]);
    }
  }

  /** What the provider hands to its children. */
  datatype ContextValue = ContextValue(socketOpen: bool, connected: bool, orderUpdates: seq<Json>)

  /** `useWebSocket()`: the provider's value, or the error thrown outside any provider. */
  function UseWebSocket(context: Option<ContextValue>): (r: Result<ContextValue, string>)
    ensures r.Ok? <==> context.Some?
    ensures r.Ok? ==> r.value == context.value
    ensures r.Err? ==> r.error == OUTSIDE_PROVIDER
  {
    match context
    case Some(value) => Ok(value)
    case None => Err(OUTSIDE_PROVIDER)
  }

  /** Whether the effect opens a socket: only for an authenticated user with a non-empty token. */
  predicate OpensSocket(isAuthenticated: bool, token: Option<string>)
  {
    isAuthenticated && token.Some? && token.value != ""
  }

  /** The provider's state. */
  class ClientSession {
    /** Whether a socket has been opened (`socket !== null`). */
    var socketOpen: bool
    /** The token the open socket authenticated with. */
    var socketToken: string
    var connected: bool
    var orderUpdates: seq<Json>

    ghost predicate Valid()
      reads this
    {
      |orderUpdates| <= HISTORY_LIMIT && (connected ==> socketOpen)
    }

    constructor ()
      ensures Valid()
      ensures !socketOpen && !connected && orderUpdates == []
    {
      socketOpen := false;
      socketToken := "";
      connected := false;
      orderUpdates := [];
    }

    /** The value the provider renders. */
    function Value(): ContextValue
      reads this
    {
      ContextValue(socketOpen, connected, orderUpdates)
    }

    /** The effect run for the current authentication state: opens a socket with the token, or does nothing. */
    method Authenticate(isAuthenticated: bool, token: Option<string>)
      requires Valid()
      modifies this
      ensures Valid()
      ensures OpensSocket(isAuthenticated, token) ==> socketOpen && socketToken == token.value
      ensures !OpensSocket(isAuthenticated, token) ==> socketOpen == old(socketOpen) && socketToken == old(socketToken)
      ensures connected == old(connected) && orderUpdates == old(orderUpdates)
    {
      if !isAuthenticated || token.None? || token.value == "" {
        return;
      }
      socketOpen := true;
      socketToken := token.value;
    }

    /** The socket's `connect` event. */
    method OnConnect()
      requires Valid() && socketOpen
      modifies this
      ensures Valid()
      ensures connected
      ensures socketOpen == old(socketOpen) && socketToken == old(socketToken) && orderUpdates == old(orderUpdates)
    {
      connected := true;
    }

    /** The socket's `disconnect` event. */
    method OnDisconnect()
      requires Valid()
      modifies this
      ensures Valid()
      ensures !connected
      ensures socketOpen == old(socketOpen) && socketToken == old(socketToken) && orderUpdates == old(orderUpdates)
    {
      connected := false;
    }

    /** The socket's `ORDER_UPDATE` event. */
    method OnOrderUpdate(data: Json)
      requires Valid()
      modifies this
      ensures Valid()
      ensures orderUpdates == PushUpdate(old(orderUpdates), data)
      ensures socketOpen == old(socketOpen) && socketToken == old(socketToken) && connected == old(connected)
    {
      orderUpdates := ([data] + orderUpdates)[..Min(|orderUpdates| + 1, HISTORY_LIMIT)];
    }
  }
}

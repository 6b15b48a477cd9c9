/**
 * The execution service's exchange client: it builds the order's query
 * string in a fixed key order, signs it with HMAC-SHA256 under the user's
 * secret, sends it, and reduces whatever comes back (or goes wrong) to one
 * of three outcomes. HMAC, number formatting and the network are parameters.
 */
module Binance {
  import opened Wrappers
  import opened Text
  import opened SharedTypes

  /** One `key=value` pair of the request, in insertion order. */
  datatype Param = Param(key: string, value: string)

  /** HMAC-SHA256 (RFC 2104 over FIPS 180-4): secret and message to digest bytes. */
  type Hmac = (string, string) -> Bytes

  /** What the exchange call gives back: the response body's fields, or the error axios throws. */
  datatype ExchangeReply =
    | Response(status: Option<string>, fillPrices: seq<real>)
    | Failure(msg: Option<string>, message: string)

  /** The normalised outcome handed back to the worker. */
  datatype OrderResult = OrderResult(status: OrderStatus, price: Option<real>, error: Option<string>)

  /** The keys in the order the `params` object receives them; the last two only for LIMIT orders. */
  const PARAM_KEYS: seq<string> := ["symbol", "side", "type", "quantity", "timestamp", "price", "timeInForce"]

  /** JavaScript truthiness of an optional number: absent and zero are falsy. */
  predicate Truthy(p: Option<real>)
  {
    p.Some? && p.value != 0.0
  }

  /**
   * The `params` object: symbol, side, type, quantity and timestamp, then price
   * and `timeInForce=GTC` only for a LIMIT order whose price is truthy.
   */
  function OrderParams(order: OrderCommand, timestamp: nat, show: real -> string): (ps: seq<Param>)
    ensures |ps| == if order.orderType == LIMIT && Truthy(order.price) then 7 else 5
    ensures forall i :: 0 <= i < |ps| ==> ps[i].key == PARAM_KEYS[i]
    ensures ps[0].value == order.symbol && ps[1].value == SideName(order.side)
    ensures ps[2].value == OrderTypeName(order.orderType) && ps[3].value == show(order.quantity)
    ensures ps[4].value == Decimal(timestamp)
    ensures |ps| == 7 ==> ps[5].value == show(order.price.value) && ps[6].value == "GTC"
  {
    var base := [Param("symbol", order.symbol), Param("side", SideName(order.side)),
                 Param("type", OrderTypeName(order.orderType)), Param("quantity", show(order.quantity)),
                 Param("timestamp", Decimal(timestamp))];
    if order.orderType == LIMIT && Truthy(order.price)
    then base + [Param("price", show(order.price.value)), Param("timeInForce", "GTC")]
    else base
  }

  function Pair(p: Param): string
  {
    p.key + "=" + p.value
  }

  function Pairs(ps: seq<Param>): (r: seq<string>)
    ensures |r| == |ps|
    ensures forall i :: 0 <= i < |ps| ==> r[i] == Pair(ps[i])
  {
    if ps == [] then [] else [Pair(ps[0])] + Pairs(ps[1..])
  }

  /** `Object.entries(params).map(([k, v]) => `${k}=${v}`).join('&')`. */
  function QueryString(ps: seq<Param>): string
  {
    Join(Pairs(ps), "&")
  }

  /** `createSignature`: the hex digest of HMAC-SHA256 keyed by the secret over the query string. */
  function CreateSignature(hmac: Hmac, queryString: string, apiSecret: string): string
  {
    HexEncode(hmac(apiSecret, queryString))
  }

  /** The query string with `&signature=<hex>` appended: one more `key=value` pair after a '&'. */
  function SignedQueryString(hmac: Hmac, ps: seq<Param>, apiSecret: string): string
  {
    var qs := QueryString(ps);
    qs + "&" + Pair(Param("signature", CreateSignature(hmac, qs, apiSecret)))
  }

  /** Reads a query string back into its pairs, splitting each at its first '='. */
  function ParseQuery(qs: string): seq<Param>
  {
    ParsePairs(Split(qs, '&'))
  }

  function ParsePairs(fields: seq<string>): seq<Param>
  {
    if fields == [] then []
    else
      var kv := Split(fields[0], '=');
      [Param(kv[0], Join(kv[1..], "="))] + ParsePairs(fields[1..])
  }

  /** Keys hold neither '&' nor '='; values hold no '&'. */
  predicate Serialisable(ps: seq<Param>)
  {
    forall i :: 0 <= i < |ps| ==> '&' !in ps[i].key && '=' !in ps[i].key && '&' !in ps[i].value
  }

  /** A pair splits back at its first '=' into key and value. */
  lemma PairRoundTrip(p: Param)
    requires '=' !in p.key
    ensures var kv := Split(Pair(p), '='); kv[0] == p.key && Join(kv[1..], "=") == p.value
  {
    SplitAfterField(p.key, '=', p.value);
    assert p.key + "=" + p.value == p.key + ['='] + p.value;
  }

  lemma {:induction false} ParsePairsRoundTrip(ps: seq<Param>)
    requires forall i :: 0 <= i < |ps| ==> '=' !in ps[i].key
    ensures ParsePairs(Pairs(ps)) == ps
  {
    if ps != [] {
      PairRoundTrip(ps[0]);
      assert Pairs(ps)[1..] == Pairs(ps[1..]);
      ParsePairsRoundTrip(ps[1..]);
    }
  }

  lemma PairHasNoAmpersand(p: Param)
    requires '&' !in p.key && '&' !in p.value
    ensures '&' !in Pair(p)
  {
  }

  /** Serialisation round trip: the pairs, in order, are recovered from the query string. */
  lemma QueryStringRoundTrip(ps: seq<Param>)
    requires |ps| >= 1 && Serialisable(ps)
    ensures ParseQuery(QueryString(ps)) == ps
  {
    var fields := Pairs(ps);
    forall i | 0 <= i < |fields| ensures '&' !in fields[i] {
      PairHasNoAmpersand(ps[i]);
    }
    SplitJoin(fields, '&');
    ParsePairsRoundTrip(ps);
  }

  /** Hex text holds neither '&' nor '='. */
  lemma HexIsQuerySafe(s: string)
    requires forall i :: 0 <= i < |s| ==> IsLowerHexDigit(s[i])
    ensures '&' !in s && '=' !in s
  {
    forall i | 0 <= i < |s| ensures s[i] != '&' && s[i] != '=' {
      assert IsLowerHexDigit(s[i]);
    }
  }

  /** The signed string is the query string with exactly one more pair, `signature`, last. */
  lemma SignedQueryRoundTrip(hmac: Hmac, ps: seq<Param>, apiSecret: string)
    requires |ps| >= 1 && Serialisable(ps)
    ensures var sig := CreateSignature(hmac, QueryString(ps), apiSecret);
      ParseQuery(SignedQueryString(hmac, ps, apiSecret)) == ps + [Param("signature", sig)]
  {
    var sig := CreateSignature(hmac, QueryString(ps), apiSecret);
    var all := ps + [Param("signature", sig)];
    SignatureIsSerialisable(ps, sig);
    SignedIsQueryString(hmac, ps, apiSecret);
    QueryStringRoundTrip(all);
  }

  lemma SignatureIsSerialisable(ps: seq<Param>, sig: string)
    requires Serialisable(ps)
    requires forall i :: 0 <= i < |sig| ==> IsLowerHexDigit(sig[i])
    ensures Serialisable(ps + [Param("signature", sig)])
  {
    HexIsQuerySafe(sig);
    var all := ps + [Param("signature", sig)];
    assert forall i :: 0 <= i < |ps| ==> all[i] == ps[i];
  }

  /** Appending `&signature=<hex>` is serialising one more pair. */
  lemma SignedIsQueryString(hmac: Hmac, ps: seq<Param>, apiSecret: string)
    requires |ps| >= 1
    ensures SignedQueryString(hmac, ps, apiSecret) ==
      QueryString(ps + [Param("signature", CreateSignature(hmac, QueryString(ps), apiSecret))])
  {
    var qs := QueryString(ps);
    var sig := CreateSignature(hmac, qs, apiSecret);
    var last := Param("signature", sig);
    var all := ps + [last];
    assert Pairs(all) == Pairs(ps) + [Pair(last)] by {
      assert forall i :: 0 <= i < |ps| ==> all[i] == ps[i];
    }
    JoinAppend(Pairs(ps), Pair(last), "&");
  }

  /** `${queryString}&signature=${signature}` is the pair `signature=<hex>` after a '&'. */
  lemma SignaturePair(queryString: string, signature: string)
    ensures queryString + "&signature=" + signature == queryString + "&" + Pair(Param("signature", signature))
  {
    assert "&signature=" == "&" + "signature" + "=";
  }

  lemma {:induction false} JoinAppend(parts: seq<string>, last: string, sep: string)
    requires |parts| >= 1
    ensures Join(parts + [last], sep) == Join(parts, sep) + sep + last
  {
    if |parts| > 1 {
      assert (parts + [last])[1..] == parts[1..] + [last];
      JoinAppend(parts[1..], last, sep);
    }
  }

  /** With a 32-byte digest the signature is 64 hex digits. */
  lemma SignatureLength(hmac: Hmac, queryString: string, apiSecret: string)
    requires |hmac(apiSecret, queryString)| == 32
    ensures |CreateSignature(hmac, queryString, apiSecret)| == 64
  {
  }

  /** The exchange's order status reduced to the three outcomes the service knows. */
  function MapStatus(exchangeStatus: Option<string>): (s: OrderStatus)
    ensures s == FILLED <==> exchangeStatus == Some("FILLED")
    ensures s == PARTIALLY_FILLED <==> exchangeStatus == Some("PARTIALLY_FILLED")
    ensures s == REJECTED <==> exchangeStatus != Some("FILLED") && exchangeStatus != Some("PARTIALLY_FILLED")
  {
    if exchangeStatus == Some("FILLED") then FILLED
    else if exchangeStatus == Some("PARTIALLY_FILLED") then PARTIALLY_FILLED
    else REJECTED
  }

  /** `error.response?.data?.msg || error.message`: an empty exchange message falls through too. */
  function ErrorMessage(msg: Option<string>, message: string): string
  {
    if msg.Some? && msg.value != "" then msg.value else message
  }

  /**
   * How a reply settles the order: an exchange error rejects it with the
   * error's message and no price; a response is mapped by its status and
   * priced by its first fill, else by the order's own price.
   */
  function Interpret(order: OrderCommand, reply: ExchangeReply): (r: OrderResult)
    ensures r.status in {FILLED, PARTIALLY_FILLED, REJECTED}
    ensures r.error.Some? <==> reply.Failure?
    ensures reply.Failure? ==> r.status == REJECTED && r.price == None && r.error == Some(ErrorMessage(reply.msg, reply.message))
    ensures reply.Response? ==> r.status == MapStatus(reply.status)
    ensures reply.Response? && |reply.fillPrices| > 0 ==> r.price == Some(reply.fillPrices[0])
    ensures reply.Response? && |reply.fillPrices| == 0 ==> r.price == order.price
  {
    match reply
    case Failure(msg, message) => OrderResult(REJECTED, None, Some(ErrorMessage(msg, message)))
    case Response(status, fills) => OrderResult(MapStatus(status), if |fills| > 0 then Some(fills[0]) else order.price, None)
  }

  /**
   * `executeBinanceOrder`: builds and signs the request, sends it with the API
   * key, and interprets the reply; any failure becomes REJECTED with an error
   * and no price, and nothing is thrown.
   */
  method ExecuteBinanceOrder(apiKey: string, apiSecret: string, order: OrderCommand,
                             timestamp: nat, show: real -> string, hmac: Hmac,
                             send: (string, string) -> ExchangeReply)
    returns (result: OrderResult)
    ensures result == Interpret(order, send(apiKey, SignedQueryString(hmac, OrderParams(order, timestamp, show), apiSecret)))
  {
    var params := [Param("symbol", order.symbol), Param("side", SideName(order.side)),
                   Param("type", OrderTypeName(order.orderType)), Param("quantity", show(order.quantity)),
                   Param("timestamp", Decimal(timestamp))];
    if order.orderType == LIMIT && Truthy(order.price) {
      params := params + [Param("price", show(order.price.value)), Param("timeInForce", "GTC")];
    }
    var queryString := QueryString(params);
    var signature := CreateSignature(hmac, queryString, apiSecret);
    var signedQueryString := queryString + "&signature=" + signature;
    SignaturePair(queryString, signature);
    var reply := send(apiKey, signedQueryString);
    if reply.Failure? {
      return OrderResult(REJECTED, None, Some(ErrorMessage(reply.msg, reply.message)));
    }
    var status := FILLED;
    if reply.status == Some("FILLED") {
      status := FILLED;
    } else if reply.status == Some("PARTIALLY_FILLED") {
      status := PARTIALLY_FILLED;
    } else {
      status := REJECTED;
    }
    var price := if |reply.fillPrices| > 0 then Some(reply.fillPrices[0]) else order.price;
    result := OrderResult(status, price, None);
  }

  /** The five pairs, or seven for a priced LIMIT order, joined by '&' in the fixed key order. */
  lemma QueryStringLayout(order: OrderCommand, timestamp: nat, show: real -> string)
    ensures QueryString(OrderParams(order, timestamp, show)) ==
      Join(["symbol=" + order.symbol, "side=" + SideName(order.side), "type=" + OrderTypeName(order.orderType),
            "quantity=" + show(order.quantity), "timestamp=" + Decimal(timestamp)]
           + (if order.orderType == LIMIT && Truthy(order.price)
              then ["price=" + show(order.price.value), "timeInForce=GTC"] else []), "&")
  {
    var ps := OrderParams(order, timestamp, show);
    var expected := ["symbol=" + order.symbol, "side=" + SideName(order.side), "type=" + OrderTypeName(order.orderType),
                     "quantity=" + show(order.quantity), "timestamp=" + Decimal(timestamp)]
                    + (if order.orderType == LIMIT && Truthy(order.price)
                       then ["price=" + show(order.price.value), "timeInForce=GTC"] else []);
    forall i | 0 <= i < |ps| ensures Pairs(ps)[i] == expected[i] {
      assert PARAM_KEYS[i] + "=" == expected[i][..|PARAM_KEYS[i]| + 1];
    }
    assert Pairs(ps) == expected;
  }
}

/**
 * The wire schemas shared by every service: JSON bodies and broker payloads
 * are checked against these before they are used as typed values. Each zod
 * schema becomes a parse function from raw JSON to a typed value; its
 * contract says the typed value is exactly what the JSON carried and obeys
 * the schema's rules, and a lemma beside it says every well-formed value that
 * the JSON carries is accepted.
 */
module SharedTypes {
  import opened Wrappers

  /** A parsed JSON value; an absent object key is JavaScript's `undefined`. */
  datatype Json =
    | JNull
    | JBool(b: bool)
    | JNum(n: real)
    | JStr(s: string)
    | JArr(items: seq<Json>)
    | JObj(fields: map<string, Json>)

  datatype Side = BUY | SELL
  datatype OrderType = MARKET | LIMIT | STOP_MARKET
  /** Every status an order record or event can carry; PENDING only on commands. */
  datatype OrderStatus = PENDING | FILLED | PARTIALLY_FILLED | REJECTED | CANCELLED

  function SideName(s: Side): string
  {
    match s
    case BUY => "BUY"
    case SELL => "SELL"
  }

  function OrderTypeName(t: OrderType): string
  {
    match t
    case MARKET => "MARKET"
    case LIMIT => "LIMIT"
    case STOP_MARKET => "STOP_MARKET"
  }

  function StatusName(s: OrderStatus): string
  {
    match s
    case PENDING => "PENDING"
    case FILLED => "FILLED"
    case PARTIALLY_FILLED => "PARTIALLY_FILLED"
    case REJECTED => "REJECTED"
    case CANCELLED => "CANCELLED"
  }

  /** `z.enum(['BUY', 'SELL'])`. */
  function ParseSide(j: Json): (r: Option<Side>)
    ensures r.Some? <==> j == JStr("BUY") || j == JStr("SELL")
    ensures r.Some? ==> j == JStr(SideName(r.value))
  {
    if j == JStr("BUY") then Some(BUY)
    else if j == JStr("SELL") then Some(SELL)
    else None
  }

  /** `z.enum(['MARKET', 'LIMIT', 'STOP_MARKET'])`. */
  function ParseOrderType(j: Json): (r: Option<OrderType>)
    ensures r.Some? <==> j == JStr("MARKET") || j == JStr("LIMIT") || j == JStr("STOP_MARKET")
    ensures r.Some? ==> j == JStr(OrderTypeName(r.value))
  {
    if j == JStr("MARKET") then Some(MARKET)
    else if j == JStr("LIMIT") then Some(LIMIT)
    else if j == JStr("STOP_MARKET") then Some(STOP_MARKET)
    else None
  }

  /** `z.enum(['FILLED', 'REJECTED', 'PARTIALLY_FILLED', 'CANCELLED'])`: PENDING is not an event status. */
  function ParseEventStatus(j: Json): (r: Option<OrderStatus>)
    ensures r.Some? <==>
      j == JStr("FILLED") || j == JStr("REJECTED") || j == JStr("PARTIALLY_FILLED") || j == JStr("CANCELLED")
    ensures r.Some? ==> r.value != PENDING && j == JStr(StatusName(r.value))
  {
    if j == JStr("FILLED") then Some(FILLED)
    else if j == JStr("REJECTED") then Some(REJECTED)
    else if j == JStr("PARTIALLY_FILLED") then Some(PARTIALLY_FILLED)
    else if j == JStr("CANCELLED") then Some(CANCELLED)
    else None
  }

  // ---------------------------------------------------------------------------
  // string formats
  // ---------------------------------------------------------------------------

  predicate IsHexDigit(c: char)
  {
    ('0' <= c <= '9') || ('a' <= c <= 'f') || ('A' <= c <= 'F')
  }

  /** `z.string().uuid()`: five groups of 8, 4, 4, 4 and 12 hex digits joined by '-'. */
  predicate IsUuid(s: string)
  {
    && |s| == 36
    && (forall i :: 0 <= i < 36 && i in {8, 13, 18, 23} ==> s[i] == '-')
    && (forall i :: 0 <= i < 36 && i !in {8, 13, 18, 23} ==> IsHexDigit(s[i]))
  }

  predicate DigitsAt(s: string, lo: int, hi: int)
    requires 0 <= lo <= hi <= |s|
  {
    forall i :: lo <= i < hi ==> '0' <= s[i] <= '9'
  }

  /**
   * `z.string().datetime()` with its defaults: `YYYY-MM-DDTHH:MM:SS`, an
   * optional fraction of one or more digits, and a closing 'Z' (no offset).
   */
  predicate IsIsoDateTime(s: string)
  {
    && |s| >= 20
    && DigitsAt(s, 0, 4) && s[4] == '-' && DigitsAt(s, 5, 7) && s[7] == '-' && DigitsAt(s, 8, 10)
    && s[10] == 'T'
    && DigitsAt(s, 11, 13) && s[13] == ':' && DigitsAt(s, 14, 16) && s[16] == ':' && DigitsAt(s, 17, 19)
    && s[|s| - 1] == 'Z'
    && (|s| == 20 || (|s| >= 22 && s[19] == '.' && DigitsAt(s, 20, |s| - 1)))
  }

  // ---------------------------------------------------------------------------
  // object fields
  // ---------------------------------------------------------------------------

  /** The value under `key`, or None when the key is absent (or `j` is no object). */
  function Field(j: Json, key: string): Option<Json>
  {
    if j.JObj? && key in j.fields then Some(j.fields[key]) else None
  }

  /** `z.string()` on a field. */
  function StringField(j: Json, key: string): Option<string>
  {
    match Field(j, key)
    case Some(JStr(s)) => Some(s)
    case _ => None
  }

  /** `z.number()` on a field. */
  function NumberField(j: Json, key: string): Option<real>
  {
    match Field(j, key)
    case Some(JNum(n)) => Some(n)
    case _ => None
  }

  /**
   * `z.number().positive().optional()`: an absent key gives None, a positive
   * number gives Some, anything else (null included) fails.
   */
  function OptionalPositive(j: Json, key: string): Option<Option<real>>
  {
    match Field(j, key)
    case None => Some(None)
    case Some(JNum(n)) => if n > 0.0 then Some(Some(n)) else None
    case Some(_) => None
  }

  /** `z.string().optional()`. */
  function OptionalString(j: Json, key: string): Option<Option<string>>
  {
    match Field(j, key)
    case None => Some(None)
    case Some(JStr(s)) => Some(Some(s))
    case Some(_) => None
  }

  /** The JSON field `key` carries the optional value `v` (absent for None). */
  predicate CarriesOptional(j: Json, key: string, v: Option<Json>)
  {
    j.JObj? && (if v.None? then key !in j.fields else key in j.fields && j.fields[key] == v.value)
  }

  predicate Carries(j: Json, key: string, v: Json)
  {
    j.JObj? && key in j.fields && j.fields[key] == v
  }

  function NumOpt(p: Option<real>): Option<Json>
  {
    if p.Some? then Some(JNum(p.value)) else None
  }

  function StrOpt(p: Option<string>): Option<Json>
  {
    if p.Some? then Some(JStr(p.value)) else None
  }

  /** The quantity and price rules every order schema applies. */
  predicate ValidAmounts(quantity: real, price: Option<real>)
  {
    quantity > 0.0 && (price.Some? ==> price.value > 0.0)
  }

  // ---------------------------------------------------------------------------
  // CreateOrderSchema
  // ---------------------------------------------------------------------------

  datatype CreateOrder = CreateOrder(symbol: string, side: Side, orderType: OrderType, quantity: real, price: Option<real>)

  predicate CarriesCreateOrder(j: Json, c: CreateOrder)
  {
    && Carries(j, "symbol", JStr(c.symbol))
    && Carries(j, "side", JStr(SideName(c.side)))
    && Carries(j, "type", JStr(OrderTypeName(c.orderType)))
    && Carries(j, "quantity", JNum(c.quantity))
    && CarriesOptional(j, "price", NumOpt(c.price))
  }

  /** `CreateOrderSchema.parse`: the accepted order is what the body carries, with positive amounts. */
  function ParseCreateOrder(j: Json): (r: Option<CreateOrder>)
    ensures r.Some? ==> ValidAmounts(r.value.quantity, r.value.price) && CarriesCreateOrder(j, r.value)
  {
    match (StringField(j, "symbol"), ParseSide(Field(j, "side").GetOr(JNull)),
           ParseOrderType(Field(j, "type").GetOr(JNull)), NumberField(j, "quantity"), OptionalPositive(j, "price"))
    case (Some(symbol), Some(side), Some(t), Some(q), Some(price)) =>
      if q > 0.0 then Some(CreateOrder(symbol, side, t, q, price)) else None
    case _ => None
  }

  /** Every well-formed order the body carries is accepted; other keys are ignored. */
  lemma ParseCreateOrderComplete(j: Json, c: CreateOrder)
    requires ValidAmounts(c.quantity, c.price) && CarriesCreateOrder(j, c)
    ensures ParseCreateOrder(j) == Some(c)
  {
  }

  /** There is no cross-field rule: a LIMIT order without a price is accepted. */
  lemma LimitWithoutPriceAccepted(symbol: string, side: Side, quantity: real)
    requires quantity > 0.0
    ensures ParseCreateOrder(JObj(map["symbol" := JStr(symbol), "side" := JStr(SideName(side)),
                                      "type" := JStr("LIMIT"), "quantity" := JNum(quantity)]))
            == Some(CreateOrder(symbol, side, LIMIT, quantity, None))
  {
    var j := JObj(map["symbol" := JStr(symbol), "side" := JStr(SideName(side)),
                      "type" := JStr("LIMIT"), "quantity" := JNum(quantity)]);
    ParseCreateOrderComplete(j, CreateOrder(symbol, side, LIMIT, quantity, None));
  }

  /** A non-positive quantity, or a price that is present but not positive, is refused. */
  lemma NonPositiveAmountsRejected(j: Json)
    requires || (NumberField(j, "quantity").Some? && NumberField(j, "quantity").value <= 0.0)
             || (NumberField(j, "price").Some? && NumberField(j, "price").value <= 0.0)
    ensures ParseCreateOrder(j) == None
  {
  }

  // ---------------------------------------------------------------------------
  // OrderCommandSchema
  // ---------------------------------------------------------------------------

  datatype OrderCommand = OrderCommand(
    orderId: string, userId: string, symbol: string, side: Side, orderType: OrderType,
    quantity: real, price: Option<real>, timestamp: string)

  predicate CarriesOrderCommand(j: Json, c: OrderCommand)
  {
    && Carries(j, "orderId", JStr(c.orderId))
    && Carries(j, "userId", JStr(c.userId))
    && Carries(j, "symbol", JStr(c.symbol))
    && Carries(j, "side", JStr(SideName(c.side)))
    && Carries(j, "type", JStr(OrderTypeName(c.orderType)))
    && Carries(j, "quantity", JNum(c.quantity))
    && CarriesOptional(j, "price", NumOpt(c.price))
    && Carries(j, "timestamp", JStr(c.timestamp))
  }

  predicate WellFormedCommand(c: OrderCommand)
  {
    IsUuid(c.orderId) && IsUuid(c.userId) && ValidAmounts(c.quantity, c.price) && IsIsoDateTime(c.timestamp)
  }

  /** `OrderCommandSchema.parse`: the order rules of CreateOrderSchema plus ids and a timestamp. */
  function ParseOrderCommand(j: Json): (r: Option<OrderCommand>)
    ensures r.Some? ==> WellFormedCommand(r.value) && CarriesOrderCommand(j, r.value)
  {
    match (StringField(j, "orderId"), StringField(j, "userId"), StringField(j, "timestamp"), ParseCreateOrder(j))
    case (Some(oid), Some(uid), Some(ts), Some(o)) =>
      if IsUuid(oid) && IsUuid(uid) && IsIsoDateTime(ts)
      then Some(OrderCommand(oid, uid, o.symbol, o.side, o.orderType, o.quantity, o.price, ts))
      else None
    case _ => None
  }

  lemma ParseOrderCommandComplete(j: Json, c: OrderCommand)
    requires WellFormedCommand(c) && CarriesOrderCommand(j, c)
    ensures ParseOrderCommand(j) == Some(c)
  {
    ParseCreateOrderComplete(j, CreateOrder(c.symbol, c.side, c.orderType, c.quantity, c.price));
  }

  /** A valid command body is also a valid order request: the two schemas share their order rules. */
  lemma CommandRulesIncludeCreateRules(j: Json)
    requires ParseOrderCommand(j).Some?
    ensures ParseCreateOrder(j).Some?
    ensures var c := ParseOrderCommand(j).value; var o := ParseCreateOrder(j).value;
      o == CreateOrder(c.symbol, c.side, c.orderType, c.quantity, c.price)
  {
  }

  // ---------------------------------------------------------------------------
  // OrderEventSchema
  // ---------------------------------------------------------------------------

  datatype OrderEvent = OrderEvent(
    orderId: string, userId: string, status: OrderStatus, symbol: string, side: Side,
    quantity: real, price: Option<real>, timestamp: string, error: Option<string>)

  predicate CarriesOrderEvent(j: Json, e: OrderEvent)
  {
    && Carries(j, "orderId", JStr(e.orderId))
    && Carries(j, "userId", JStr(e.userId))
    && Carries(j, "status", JStr(StatusName(e.status)))
    && Carries(j, "symbol", JStr(e.symbol))
    && Carries(j, "side", JStr(SideName(e.side)))
    && Carries(j, "quantity", JNum(e.quantity))
    && CarriesOptional(j, "price", NumOpt(e.price))
    && Carries(j, "timestamp", JStr(e.timestamp))
    && CarriesOptional(j, "error", StrOpt(e.error))
  }

  predicate WellFormedEvent(e: OrderEvent)
  {
    && IsUuid(e.orderId) && IsUuid(e.userId) && e.status != PENDING
    && ValidAmounts(e.quantity, e.price) && IsIsoDateTime(e.timestamp)
  }

  /** `OrderEventSchema.parse`. */
  function ParseOrderEvent(j: Json): (r: Option<OrderEvent>)
    ensures r.Some? ==> WellFormedEvent(r.value) && CarriesOrderEvent(j, r.value)
  {
    match (StringField(j, "orderId"), StringField(j, "userId"), ParseEventStatus(Field(j, "status").GetOr(JNull)),
           StringField(j, "symbol"), ParseSide(Field(j, "side").GetOr(JNull)))
    case (Some(oid), Some(uid), Some(st), Some(sym), Some(side)) =>
      (match (NumberField(j, "quantity"), OptionalPositive(j, "price"), StringField(j, "timestamp"), OptionalString(j, "error"))
       case (Some(q), Some(price), Some(ts), Some(err)) =>
         if IsUuid(oid) && IsUuid(uid) && q > 0.0 && IsIsoDateTime(ts)
         then Some(OrderEvent(oid, uid, st, sym, side, q, price, ts, err))
         else None
       case _ => None)
    case _ => None
  }

  lemma ParseOrderEventComplete(j: Json, e: OrderEvent)
    requires WellFormedEvent(e) && CarriesOrderEvent(j, e)
    ensures ParseOrderEvent(j) == Some(e)
  {
  }

  // ---------------------------------------------------------------------------
  // WSMessageSchema
  // ---------------------------------------------------------------------------

  datatype WSMessage =
    | OrderUpdate(event: OrderEvent)
    | PriceUpdate(symbol: string, price: real, timestamp: real)

  /** `WSMessageSchema.parse`: the `type` key selects which payload shape `data` must have. */
  function ParseWSMessage(j: Json): (r: Option<WSMessage>)
    ensures r.Some? ==> Field(j, "data").Some?
    ensures r.Some? && r.value.OrderUpdate? ==>
      Carries(j, "type", JStr("ORDER_UPDATE")) && ParseOrderEvent(j.fields["data"]) == Some(r.value.event)
    ensures r.Some? && r.value.PriceUpdate? ==>
      var d := j.fields["data"];
      && Carries(j, "type", JStr("PRICE_UPDATE"))
      && Carries(d, "symbol", JStr(r.value.symbol))
      && Carries(d, "price", JNum(r.value.price))
      && Carries(d, "timestamp", JNum(r.value.timestamp))
    ensures Field(j, "type") != Some(JStr("ORDER_UPDATE")) && Field(j, "type") != Some(JStr("PRICE_UPDATE")) ==> r.None?
  {
    match (Field(j, "type"), Field(j, "data"))
    case (Some(JStr(tag)), Some(d)) =>
      if tag == "ORDER_UPDATE" then
        match ParseOrderEvent(d)
        case Some(e) => Some(OrderUpdate(e))
        case None => None
      else if tag == "PRICE_UPDATE" then
        match (StringField(d, "symbol"), NumberField(d, "price"), NumberField(d, "timestamp"))
        case (Some(s), Some(p), Some(t)) => Some(PriceUpdate(s, p, t))
        case _ => None
      else None
    case _ => None
  }

  /** Either variant of the union is accepted when `data` has that variant's shape. */
  lemma ParseWSMessageComplete(j: Json, d: Json)
    requires Carries(j, "data", d)
    ensures forall e :: Carries(j, "type", JStr("ORDER_UPDATE")) && ParseOrderEvent(d) == Some(e) ==>
      ParseWSMessage(j) == Some(OrderUpdate(e))
    ensures forall s, p, t ::
      (&& Carries(j, "type", JStr("PRICE_UPDATE"))
       && Carries(d, "symbol", JStr(s)) && Carries(d, "price", JNum(p)) && Carries(d, "timestamp", JNum(t)))
      ==> ParseWSMessage(j) == Some(PriceUpdate(s, p, t))
  {
  }

  // ---------------------------------------------------------------------------
  // RegisterSchema and LoginSchema
  // ---------------------------------------------------------------------------

  datatype Register = Register(email: string, password: string, apiKey: string, secretKey: string)
  datatype Login = Login(email: string, password: string)

  /**
   * `RegisterSchema.parse`; the e-mail syntax check is a parameter. The
   * password has at least 8 characters and both exchange keys at least one.
   */
  function ParseRegister(j: Json, isEmail: string -> bool): (r: Option<Register>)
    ensures r.Some? ==>
      && isEmail(r.value.email) && |r.value.password| >= 8
      && |r.value.apiKey| >= 1 && |r.value.secretKey| >= 1
      && Carries(j, "email", JStr(r.value.email)) && Carries(j, "password", JStr(r.value.password))
      && Carries(j, "binanceApiKey", JStr(r.value.apiKey)) && Carries(j, "binanceSecretKey", JStr(r.value.secretKey))
  {
    match (StringField(j, "email"), StringField(j, "password"), StringField(j, "binanceApiKey"), StringField(j, "binanceSecretKey"))
    case (Some(e), Some(p), Some(k), Some(s)) =>
      if isEmail(e) && |p| >= 8 && |k| >= 1 && |s| >= 1 then Some(Register(e, p, k, s)) else None
    case _ => None
  }

  lemma ParseRegisterComplete(j: Json, isEmail: string -> bool, reg: Register)
    requires isEmail(reg.email) && |reg.password| >= 8 && |reg.apiKey| >= 1 && |reg.secretKey| >= 1
    requires Carries(j, "email", JStr(reg.email)) && Carries(j, "password", JStr(reg.password))
    requires Carries(j, "binanceApiKey", JStr(reg.apiKey)) && Carries(j, "binanceSecretKey", JStr(reg.secretKey))
    ensures ParseRegister(j, isEmail) == Some(reg)
  {
  }

  /** `LoginSchema.parse`: any non-empty password passes the schema. */
  function ParseLogin(j: Json, isEmail: string -> bool): (r: Option<Login>)
    ensures r.Some? ==>
      isEmail(r.value.email) && |r.value.password| >= 1
      && Carries(j, "email", JStr(r.value.email)) && Carries(j, "password", JStr(r.value.password))
  {
    match (StringField(j, "email"), StringField(j, "password"))
    case (Some(e), Some(p)) => if isEmail(e) && |p| >= 1 then Some(Login(e, p)) else None
    case _ => None
  }

  lemma ParseLoginComplete(j: Json, isEmail: string -> bool, login: Login)
    requires isEmail(login.email) && |login.password| >= 1
    requires Carries(j, "email", JStr(login.email)) && Carries(j, "password", JStr(login.password))
    ensures ParseLogin(j, isEmail) == Some(login)
  {
  }
}

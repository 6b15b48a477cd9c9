/**
 * The backend's trading routes: submitting an order (validate, store it as
 * PENDING, publish it to the execution service), listing a user's orders
 * newest first with each order's latest event, and deriving positions from
 * the user's filled events.
 */
module Trading {
  import opened Wrappers
  import opened SharedTypes
  import opened Stores

  // ---------------------------------------------------------------------------
  // POST /orders
  // ---------------------------------------------------------------------------

  /** Why a submission is answered with HTTP 400. */
  datatype CreateFailure = InvalidBody | StoreFailed | PublishFailed

  datatype CreateResponse =
    | Submitted(orderId: string, status: OrderStatus)
    | BadRequest(reason: CreateFailure)

  /** Whether the database or the broker is unreachable during this request. */
  datatype Outage = NoOutage | DatabaseDown | BrokerDown

  /** The row stored for a validated order: status PENDING, created at the request's time. */
  function PendingRecord(orderId: string, userId: string, o: CreateOrder, now: Instant): CommandRecord
  {
    CommandRecord(orderId, userId, o.symbol, o.side, o.orderType, o.quantity, o.price, PENDING, now.millis)
  }

  /** The command published for the execution service. */
  function SubmitCommand(orderId: string, userId: string, o: CreateOrder, now: Instant): OrderCommand
  {
    OrderCommand(orderId, userId, o.symbol, o.side, o.orderType, o.quantity, o.price, now.iso)
  }

  /** `JSON.stringify` of the published command: an undefined price is left out. */
  function CommandJson(c: OrderCommand): (j: Json)
    ensures CarriesOrderCommand(j, c)
  {
    var base := map["orderId" := JStr(c.orderId), "userId" := JStr(c.userId), "symbol" := JStr(c.symbol),
                    "side" := JStr(SideName(c.side)), "type" := JStr(OrderTypeName(c.orderType)),
                    "quantity" := JNum(c.quantity), "timestamp" := JStr(c.timestamp)];
    JObj(if c.price.Some? then base["price" := JNum(c.price.value)] else base)
  }

  /** The published command and the stored row describe the same order. */
  predicate SameOrder(c: OrderCommand, r: CommandRecord)
  {
    && c.orderId == r.orderId && c.userId == r.userId && c.symbol == r.symbol && c.side == r.side
    && c.orderType == r.orderType && c.quantity == r.quantity && c.price == r.price
  }

  /**
   * The POST /orders handler. The body is validated before anything is
   * written; a failure of the write or of the publish also answers 400, and a
   * failed publish leaves the PENDING row stored.
   */
  method CreateOrder(db: Database, broker: Broker, userId: string, body: Json,
                     orderId: string, now: Instant, outage: Outage)
    returns (resp: CreateResponse)
    requires db.Valid()
    modifies db, broker
    ensures db.Valid()
    ensures db.users == old(db.users) && db.events == old(db.events)
    ensures ParseCreateOrder(body).None? ==>
      resp == BadRequest(InvalidBody) && db.commands == old(db.commands) && broker.published == old(broker.published)
    ensures ParseCreateOrder(body).Some? ==>
      var o := ParseCreateOrder(body).value;
      var stored := outage != DatabaseDown && !HasOrder(old(db.commands), orderId);
      && db.commands == (if stored then old(db.commands) + [PendingRecord(orderId, userId, o, now)] else old(db.commands))
      && broker.published == (if stored && outage != BrokerDown
                              then old(broker.published) + [CommandMessage(SubmitCommand(orderId, userId, o, now))]
                              else old(broker.published))
      && resp == (if !stored then BadRequest(StoreFailed)
                  else if outage == BrokerDown then BadRequest(PublishFailed)
                  else Submitted(orderId, PENDING))
  {
    var data := ParseCreateOrder(body);
    if data.None? {
      return BadRequest(InvalidBody);
    }
    var o := data.value;
    if outage == DatabaseDown {
      return BadRequest(StoreFailed);
    }
    var created := db.CreateCommand(PendingRecord(orderId, userId, o, now));
    if !created {
      return BadRequest(StoreFailed);
    }
    if outage == BrokerDown {
      return BadRequest(PublishFailed);
    }
    broker.Publish(CommandMessage(SubmitCommand(orderId, userId, o, now)));
    resp := Submitted(orderId, PENDING);
  }

  /** What is published carries the same order fields as what is stored. */
  lemma PublishedMatchesStored(orderId: string, userId: string, o: CreateOrder, now: Instant)
    ensures SameOrder(SubmitCommand(orderId, userId, o, now), PendingRecord(orderId, userId, o, now))
    ensures PendingRecord(orderId, userId, o, now).status == PENDING
  {
  }

  // ---------------------------------------------------------------------------
  // GET /orders
  // ---------------------------------------------------------------------------

  /** One entry of the order listing. */
  datatype OrderView = OrderView(
    orderId: string, symbol: string, side: Side, orderType: OrderType, quantity: real,
    price: Option<real>, status: OrderStatus, createdAt: int, latestEvent: Option<EventRecord>)

  /** The user's commands, in table order (`where: { userId }`). */
  function UserCommands(cs: seq<CommandRecord>, userId: string): (r: seq<CommandRecord>)
    ensures forall c :: c in r <==> c in cs && c.userId == userId
    ensures |r| <= |cs|
  {
    if cs == [] then []
    else (if cs[0].userId == userId then [cs[0]] else []) + UserCommands(cs[1..], userId)
  }

  predicate NewestFirstOrder(cs: seq<CommandRecord>)
  {
    forall i, j :: 0 <= i < j < |cs| ==> cs[i].createdAt >= cs[j].createdAt
  }

  /** Putting a command no older than the head in front keeps a list newest first. */
  lemma ConsNewestFirst(x: CommandRecord, rest: seq<CommandRecord>)
    requires NewestFirstOrder(rest)
    requires |rest| > 0 ==> x.createdAt >= rest[0].createdAt
    ensures NewestFirstOrder([x] + rest)
  {
    var r := [x] + rest;
    forall i, j | 0 <= i < j < |r| ensures r[i].createdAt >= r[j].createdAt {
      assert r[j] == rest[j - 1];
      if i > 0 {
        assert r[i] == rest[i - 1];
      } else if j > 1 {
        assert rest[0].createdAt >= rest[j - 1].createdAt;
      }
    }
  }

  /** Places one command into a newest-first list. */
  function Insert(c: CommandRecord, sorted: seq<CommandRecord>): (r: seq<CommandRecord>)
    requires NewestFirstOrder(sorted)
    ensures NewestFirstOrder(r)
    ensures multiset(r) == multiset(sorted) + multiset{c}
    ensures |r| == |sorted| + 1
    ensures r[0] == c || (|sorted| > 0 && r[0] == sorted[0])
  {
    if sorted == [] || c.createdAt >= sorted[0].createdAt then
      ConsNewestFirst(c, sorted);
      assert multiset([c] + sorted) == multiset{c} + multiset(sorted);
      [c] + sorted
    else
      var rest := Insert(c, sorted[1..]);
      assert multiset(sorted) == multiset{sorted[0]} + multiset(sorted[1..]) by {
        assert sorted == [sorted[0]] + sorted[1..];
      }
      assert multiset([sorted[0]] + rest) == multiset{sorted[0]} + multiset(rest);
      assert |sorted| > 1 ==> sorted[0].createdAt >= sorted[1].createdAt;
      ConsNewestFirst(sorted[0], rest);
      [sorted[0]] + rest
  }

  /** `orderBy: { createdAt: 'desc' }`: the same commands, newest first. */
  function NewestFirst(cs: seq<CommandRecord>): (r: seq<CommandRecord>)
    ensures NewestFirstOrder(r)
    ensures multiset(r) == multiset(cs)
    ensures |r| == |cs|
  {
    if cs == [] then []
    else
      assert cs == [cs[0]] + cs[1..];
      Insert(cs[0], NewestFirst(cs[1..]))
  }

  /**
   * `events: { orderBy: { createdAt: 'desc' }, take: 1 }`: the newest event of
   * the order, or None when it has none; of equally new events the one
   * appended last.
   */
  function LatestEvent(es: seq<EventRecord>, orderId: string): (r: Option<EventRecord>)
    ensures r.None? <==> forall i :: 0 <= i < |es| ==> es[i].orderId != orderId
    ensures r.Some? ==> r.value in es && r.value.orderId == orderId
    ensures r.Some? ==> forall i :: 0 <= i < |es| && es[i].orderId == orderId ==> es[i].createdAt <= r.value.createdAt
  {
    if es == [] then None
    else
      var rest := LatestEvent(es[..|es| - 1], orderId);
      var e := es[|es| - 1];
      if e.orderId != orderId then rest
      else if rest.Some? && rest.value.createdAt > e.createdAt then rest
      else Some(e)
  }

  function View(c: CommandRecord, es: seq<EventRecord>): OrderView
  {
    OrderView(c.orderId, c.symbol, c.side, c.orderType, c.quantity, c.price, c.status, c.createdAt,
              LatestEvent(es, c.orderId))
  }

  function Views(cs: seq<CommandRecord>, es: seq<EventRecord>): (r: seq<OrderView>)
    ensures |r| == |cs|
    ensures forall i :: 0 <= i < |cs| ==> r[i] == View(cs[i], es)
  {
    if cs == [] then [] else [View(cs[0], es)] + Views(cs[1..], es)
  }

  /**
   * The GET /orders handler: exactly the user's orders, newest first, each
   * with its latest event.
   */
  function ListOrders(cs: seq<CommandRecord>, es: seq<EventRecord>, userId: string): (r: seq<OrderView>)
    ensures forall i, j :: 0 <= i < j < |r| ==> r[i].createdAt >= r[j].createdAt
    ensures forall c :: c in cs && c.userId == userId ==> View(c, es) in r
    ensures forall i :: 0 <= i < |r| ==> exists c :: c in cs && c.userId == userId && r[i] == View(c, es)
    ensures |r| == |UserCommands(cs, userId)|
  {
    var sorted := NewestFirst(UserCommands(cs, userId));
    ListingMembers(cs, userId, sorted);
    Views(sorted, es)
  }

  lemma ListingMembers(cs: seq<CommandRecord>, userId: string, sorted: seq<CommandRecord>)
    requires sorted == NewestFirst(UserCommands(cs, userId))
    ensures forall c :: c in sorted <==> c in cs && c.userId == userId
  {
    forall c ensures c in sorted <==> c in UserCommands(cs, userId) {
      assert c in sorted <==> c in multiset(sorted);
      assert c in UserCommands(cs, userId) <==> c in multiset(UserCommands(cs, userId));
    }
  }

  // ---------------------------------------------------------------------------
  // GET /positions
  // ---------------------------------------------------------------------------

  /** A symbol's running totals while folding. */
  datatype Acc = Acc(quantity: real, totalCost: real)

  datatype Position = Position(symbol: string, quantity: real, averagePrice: real)

  /** Positions whose quantity is within this of zero are not reported. */
  const ZERO_THRESHOLD: real := 0.0001

  function Abs(x: real): real
  {
    if x < 0.0 then -x else x
  }

  /** `findMany({ where: { userId, status: 'FILLED' } })`, in table order. */
  function FilledEvents(es: seq<EventRecord>, userId: string): (r: seq<EventRecord>)
    ensures forall e :: e in r <==> e in es && e.userId == userId && e.status == FILLED
  {
    if es == [] then []
    else
      var e := es[|es| - 1];
      FilledEvents(es[..|es| - 1], userId) + (if e.userId == userId && e.status == FILLED then [e] else [])
  }

  /** A BUY adds its quantity, a SELL subtracts it. */
  function SignedQuantity(e: EventRecord): real
  {
    if e.side == BUY then e.quantity else -e.quantity
  }

  /** Price times quantity, a missing price counting as 0. */
  function Cost(e: EventRecord): real
  {
    e.price.GetOr(0.0) * e.quantity
  }

  /** The cost, negative for a SELL. */
  function SignedCost(e: EventRecord): real
  {
    if e.side == BUY then Cost(e) else -Cost(e)
  }

  /** One step of the fold: the event's symbol starts at zero if new, then takes the event's amounts. */
  function Accumulate(m: map<string, Acc>, e: EventRecord): map<string, Acc>
  {
    var pos := if e.symbol in m then m[e.symbol] else Acc(0.0, 0.0);
    m[e.symbol := Acc(pos.quantity + SignedQuantity(e), pos.totalCost + SignedCost(e))]
  }

  /** Some event is of this symbol. */
  predicate HasSymbol(es: seq<EventRecord>, symbol: string)
  {
    es != [] && (es[|es| - 1].symbol == symbol || HasSymbol(es[..|es| - 1], symbol))
  }

  /** The symbols of the events in order of first appearance (the Map's insertion order). */
  function Symbols(es: seq<EventRecord>): (r: seq<string>)
    ensures forall s :: s in r <==> HasSymbol(es, s)
    ensures forall i, j :: 0 <= i < j < |r| ==> r[i] != r[j]
  {
    if es == [] then []
    else
      var prev := Symbols(es[..|es| - 1]);
      var s := es[|es| - 1].symbol;
      if s in prev then prev else prev + [s]
  }

  /** Where a symbol first appears among the events; `|es|` when no event names it. */
  function FirstIndex(es: seq<EventRecord>, symbol: string): (k: nat)
    ensures k <= |es|
    ensures k < |es| <==> HasSymbol(es, symbol)
    ensures k < |es| ==> es[k].symbol == symbol
    ensures forall t :: 0 <= t < k ==> es[t].symbol != symbol
  {
    if es == [] then 0
    else
      var prefix := es[..|es| - 1];
      var k := FirstIndex(prefix, symbol);
      if k < |prefix| then k
      else if es[|es| - 1].symbol == symbol then |prefix|
      else |es|
  }

  /** Each symbol's first event comes before the first event of every symbol listed after it. */
  predicate InFirstAppearanceOrder(symbols: seq<string>, es: seq<EventRecord>)
  {
    forall a, b :: 0 <= a < b < |symbols| ==> FirstIndex(es, symbols[a]) < FirstIndex(es, symbols[b])
  }

  /** The Map's keys come in the order in which their symbols first appear among the events. */
  lemma {:induction false} SymbolsFirstAppearance(es: seq<EventRecord>)
    ensures InFirstAppearanceOrder(Symbols(es), es)
  {
    if es != [] {
      var prefix := es[..|es| - 1];
      var prev := Symbols(prefix);
      var r := Symbols(es);
      SymbolsFirstAppearance(prefix);
      forall i, j | 0 <= i < j < |r| ensures FirstIndex(es, r[i]) < FirstIndex(es, r[j]) {
        assert r[i] == prev[i] && prev[i] in prev;
        assert FirstIndex(es, r[i]) == FirstIndex(prefix, r[i]) < |prefix|;
        if j < |prev| {
          assert r[j] == prev[j] && prev[j] in prev;
          assert FirstIndex(es, r[j]) == FirstIndex(prefix, r[j]);
        } else {
          assert r[j] == es[|es| - 1].symbol && r[j] !in prev;
          assert FirstIndex(es, r[j]) == |prefix|;
        }
      }
    }
  }

  /** The folded totals per symbol. */
  function Totals(es: seq<EventRecord>): (m: map<string, Acc>)
    ensures forall s :: s in m <==> HasSymbol(es, s)
  {
    if es == [] then map[] else Accumulate(Totals(es[..|es| - 1]), es[|es| - 1])
  }

  predicate Reported(a: Acc)
  {
    Abs(a.quantity) > ZERO_THRESHOLD
  }

  function PositionOf(symbol: string, a: Acc): Position
    requires Reported(a)
  {
    Position(symbol, a.quantity, a.totalCost / Abs(a.quantity))
  }

  /**
   * `Array.from(positionsMap.entries()).filter(...).map(...)`: in key order,
   * only the symbols whose quantity is not within the threshold of zero.
   */
  function Format(keys: seq<string>, m: map<string, Acc>): (r: seq<Position>)
    requires forall k :: k in keys ==> k in m
    ensures forall p :: p in r <==> p.symbol in keys && Reported(m[p.symbol]) && p == PositionOf(p.symbol, m[p.symbol])
    ensures (forall i, j :: 0 <= i < j < |keys| ==> keys[i] != keys[j]) ==>
            forall i, j :: 0 <= i < j < |r| ==> r[i].symbol != r[j].symbol
  {
    if keys == [] then []
    else
      var a := m[keys[0]];
      var rest := Format(keys[1..], m);
      (if Reported(a) then [PositionOf(keys[0], a)] else []) + rest
  }

  /** The keys are strictly increasing in `rank`. */
  predicate RankedBy(keys: seq<string>, rank: string -> int)
  {
    forall a, b :: 0 <= a < b < |keys| ==> rank(keys[a]) < rank(keys[b])
  }

  /** The positions' symbols are strictly increasing in `rank`. */
  predicate PositionsRankedBy(r: seq<Position>, rank: string -> int)
  {
    forall i, j :: 0 <= i < j < |r| ==> rank(r[i].symbol) < rank(r[j].symbol)
  }

  /** In keys increasing in rank, the first key ranks below every later one. */
  lemma HeadRanksFirst(keys: seq<string>, rank: string -> int)
    requires |keys| > 0 && RankedBy(keys, rank)
    ensures RankedBy(keys[1..], rank)
    ensures forall k :: k in keys[1..] ==> rank(keys[0]) < rank(k)
  {
    forall k | k in keys[1..] ensures rank(keys[0]) < rank(k) {
      var b :| 0 <= b < |keys[1..]| && keys[1..][b] == k;
      assert keys[b + 1] == k;
    }
    forall a, b | 0 <= a < b < |keys[1..]| ensures rank(keys[1..][a]) < rank(keys[1..][b]) {
      assert keys[1..][a] == keys[a + 1] && keys[1..][b] == keys[b + 1];
    }
  }

  /** Every reported position is one of the keys. */
  lemma FormatSymbolsAreKeys(keys: seq<string>, m: map<string, Acc>)
    requires forall k :: k in keys ==> k in m
    ensures forall i :: 0 <= i < |Format(keys, m)| ==> Format(keys, m)[i].symbol in keys
  {
    var r := Format(keys, m);
    forall i | 0 <= i < |r| ensures r[i].symbol in keys {
      assert r[i] in r;
    }
  }

  /** A position ranked below every later one keeps a ranked list ranked when put in front. */
  lemma ConsRanked(x: Position, rest: seq<Position>, rank: string -> int)
    requires PositionsRankedBy(rest, rank)
    requires forall i :: 0 <= i < |rest| ==> rank(x.symbol) < rank(rest[i].symbol)
    ensures PositionsRankedBy([x] + rest, rank)
  {
    var r := [x] + rest;
    forall i, j | 0 <= i < j < |r| ensures rank(r[i].symbol) < rank(r[j].symbol) {
      assert r[j] == rest[j - 1];
      if i > 0 {
        assert r[i] == rest[i - 1];
      }
    }
  }

  /** Filtering and mapping keep the order of the keys: a key ranked earlier is reported earlier. */
  lemma {:induction false} FormatKeepsOrder(keys: seq<string>, m: map<string, Acc>, rank: string -> int)
    requires forall k :: k in keys ==> k in m
    requires RankedBy(keys, rank)
    ensures PositionsRankedBy(Format(keys, m), rank)
  {
    if keys != [] {
      HeadRanksFirst(keys, rank);
      var rest := Format(keys[1..], m);
      FormatKeepsOrder(keys[1..], m, rank);
      FormatSymbolsAreKeys(keys[1..], m);
      if Reported(m[keys[0]]) {
        var x := PositionOf(keys[0], m[keys[0]]);
        assert forall i :: 0 <= i < |rest| ==> rank(x.symbol) < rank(rest[i].symbol);
        ConsRanked(x, rest, rank);
        assert Format(keys, m) == [x] + rest;
      } else {
        assert Format(keys, m) == rest;
      }
    }
  }

  /** What GET /positions answers for a user. */
  function PositionsOf(es: seq<EventRecord>, userId: string): seq<Position>
  {
    var filled := FilledEvents(es, userId);
    Format(Symbols(filled), Totals(filled))
  }

  /** Positions are listed in the order in which their symbols first appear among the user's FILLED events. */
  lemma PositionsInFirstAppearanceOrder(es: seq<EventRecord>, userId: string)
    ensures var filled := FilledEvents(es, userId);
      var r := PositionsOf(es, userId);
      forall i, j :: 0 <= i < j < |r| ==> FirstIndex(filled, r[i].symbol) < FirstIndex(filled, r[j].symbol)
  {
    var filled := FilledEvents(es, userId);
    var keys, m := Symbols(filled), Totals(filled);
    var rank := s => FirstIndex(filled, s);
    SymbolsFirstAppearance(filled);
    assert RankedBy(keys, rank) by {
      forall a, b | 0 <= a < b < |keys| ensures rank(keys[a]) < rank(keys[b]) {
        assert rank(keys[a]) == FirstIndex(filled, keys[a]) && rank(keys[b]) == FirstIndex(filled, keys[b]);
      }
    }
    assert forall k :: k in keys ==> k in m;
    FormatKeepsOrder(keys, m, rank);
  }

  /** The GET /positions handler: the user's filled events, folded by `FoldPositions`, then formatted. */
  method ComputePositions(events: seq<EventRecord>, userId: string) returns (positions: seq<Position>)
    ensures positions == PositionsOf(events, userId)
  {
    var filledEvents := FilledEvents(events, userId);
    var insertionOrder, positionsMap := FoldPositions(filledEvents);
    positions := Format(insertionOrder, positionsMap);
  }

  /** The handler's loop: each filled event opens its symbol's entry on first sight, then adds its signed quantity and cost. */
  method FoldPositions(filledEvents: seq<EventRecord>) returns (insertionOrder: seq<string>, positionsMap: map<string, Acc>)
    ensures insertionOrder == Symbols(filledEvents)
    ensures positionsMap == Totals(filledEvents)
  {
    insertionOrder := [];
    positionsMap := map[];
    for i := 0 to |filledEvents|
      invariant insertionOrder == Symbols(filledEvents[..i])
      invariant positionsMap == Totals(filledEvents[..i])
    {
      var event := filledEvents[i];
      FoldStep(filledEvents, i);
      ghost var before := positionsMap;
      var quantity := if event.side == BUY then event.quantity else -event.quantity;
      var cost := Cost(event);
      if event.symbol !in positionsMap {
        positionsMap := positionsMap[event.symbol := Acc(0.0, 0.0)];
        insertionOrder := insertionOrder + [event.symbol];
      }
      ghost var started := positionsMap;
      var pos := positionsMap[event.symbol];
      var updated := Acc(pos.quantity + quantity, pos.totalCost + (if event.side == BUY then cost else -cost));
      UpdateIsAccumulate(before, event, started, quantity, cost, updated);
      positionsMap := positionsMap[event.symbol := updated];
    }
    assert filledEvents[..|filledEvents|] == filledEvents;
  }

  /** The loop body's two map updates amount to one step of the fold. */
  lemma UpdateIsAccumulate(m: map<string, Acc>, e: EventRecord, started: map<string, Acc>,
                            quantity: real, cost: real, updated: Acc)
    requires started == if e.symbol !in m then m[e.symbol := Acc(0.0, 0.0)] else m
    requires quantity == if e.side == BUY then e.quantity else -e.quantity
    requires cost == Cost(e)
    requires e.symbol in started
    requires updated == Acc(started[e.symbol].quantity + quantity,
                            started[e.symbol].totalCost + (if e.side == BUY then cost else -cost))
    ensures started[e.symbol := updated] == Accumulate(m, e)
  {
    var k := e.symbol;
    var pos := if k in m then m[k] else Acc(0.0, 0.0);
    assert started[k] == pos;
    var next := Acc(pos.quantity + SignedQuantity(e), pos.totalCost + SignedCost(e));
    assert Acc(started[k].quantity + quantity, started[k].totalCost + (if e.side == BUY then cost else -cost)) == next;
    assert Accumulate(m, e) == m[k := next];
    assert started[k := next] == m[k := next];
  }

  /** One more event extends the fold and the insertion order by one step. */
  lemma FoldStep(f: seq<EventRecord>, i: nat)
    requires i < |f|
    ensures Totals(f[..i + 1]) == Accumulate(Totals(f[..i]), f[i])
    ensures Symbols(f[..i + 1]) == if f[i].symbol in Symbols(f[..i]) then Symbols(f[..i]) else Symbols(f[..i]) + [f[i].symbol]
    ensures f[i].symbol in Totals(f[..i]) <==> f[i].symbol in Symbols(f[..i])
  {
    assert f[..i + 1][..i] == f[..i];
  }

  // ---------------------------------------------------------------------------
  // properties of the positions
  // ---------------------------------------------------------------------------

  function Plus(a: Acc, b: Acc): Acc
  {
    Acc(a.quantity + b.quantity, a.totalCost + b.totalCost)
  }

  /** What one event adds to a user's totals for a symbol: nothing unless it is theirs, FILLED and of that symbol. */
  function Contribution(e: EventRecord, userId: string, symbol: string): Acc
  {
    if e.userId == userId && e.status == FILLED && e.symbol == symbol
    then Acc(SignedQuantity(e), SignedCost(e))
    else Acc(0.0, 0.0)
  }

  /** The plain sum of the contributions: Σ BUY − Σ SELL, for quantity and for cost. */
  function Sum(es: seq<EventRecord>, userId: string, symbol: string): Acc
  {
    if es == [] then Acc(0.0, 0.0)
    else Plus(Sum(es[..|es| - 1], userId, symbol), Contribution(es[|es| - 1], userId, symbol))
  }

  lemma {:induction false} SumAppend(a: seq<EventRecord>, b: seq<EventRecord>, userId: string, symbol: string)
    ensures Sum(a + b, userId, symbol) == Plus(Sum(a, userId, symbol), Sum(b, userId, symbol))
    decreases |b|
  {
    if b == [] {
      assert a + b == a;
    } else {
      assert (a + b)[..|a + b| - 1] == a + b[..|b| - 1];
      SumAppend(a, b[..|b| - 1], userId, symbol);
    }
  }

  /** The per-symbol sums do not depend on the order of the events. */
  lemma {:induction false} SumPermutation(a: seq<EventRecord>, b: seq<EventRecord>, userId: string, symbol: string)
    requires multiset(a) == multiset(b)
    ensures Sum(a, userId, symbol) == Sum(b, userId, symbol)
    decreases |a|
  {
    if a != [] {
      var x := a[|a| - 1];
      assert x in multiset(b);
      var k :| 0 <= k < |b| && b[k] == x;
      var rest := b[..k] + b[k + 1..];
      assert multiset(a[..|a| - 1]) == multiset(rest) by {
        assert b == b[..k] + [x] + b[k + 1..];
        assert a == a[..|a| - 1] + [x];
        assert multiset(b) == multiset(b[..k]) + multiset{x} + multiset(b[k + 1..]);
        assert multiset(a) == multiset(a[..|a| - 1]) + multiset{x};
        assert multiset(rest) == multiset(b[..k]) + multiset(b[k + 1..]);
        assert multiset(a[..|a| - 1]) == multiset(a) - multiset{x};
        assert multiset(rest) == multiset(b) - multiset{x};
      }
      SumPermutation(a[..|a| - 1], rest, userId, symbol);
      SumRemove(b, k, userId, symbol);
    }
  }

  /** Taking one event out of the sequence takes exactly its contribution out of the sum. */
  lemma {:induction false} SumRemove(b: seq<EventRecord>, k: nat, userId: string, symbol: string)
    requires k < |b|
    ensures Sum(b, userId, symbol) == Plus(Sum(b[..k] + b[k + 1..], userId, symbol), Contribution(b[k], userId, symbol))
  {
    var x := b[k];
    var front, back := b[..k], b[k + 1..];
    assert b == (front + [x]) + back;
    var p, q, r := Sum(front, userId, symbol), Contribution(x, userId, symbol), Sum(back, userId, symbol);
    assert Sum(front + [x], userId, symbol) == Plus(p, q) by {
      assert [x][..0] == [];
      assert Sum([x], userId, symbol) == q;
      SumAppend(front, [x], userId, symbol);
    }
    assert Sum(b, userId, symbol) == Plus(Plus(p, q), r) by {
      SumAppend(front + [x], back, userId, symbol);
    }
    assert Sum(front + back, userId, symbol) == Plus(p, r) by {
      SumAppend(front, back, userId, symbol);
    }
  }

  /** The fold computes the sums: each reported symbol's totals are Σ BUY − Σ SELL over the user's FILLED events. */
  lemma {:induction false} TotalsAreSums(es: seq<EventRecord>, userId: string, symbol: string)
    requires symbol in Totals(FilledEvents(es, userId))
    ensures Totals(FilledEvents(es, userId))[symbol] == Sum(es, userId, symbol)
  {
    TotalsAreSumsOf(FilledEvents(es, userId), userId, symbol);
    FilteredSum(es, userId, symbol);
  }

  /** Over events already filtered, the fold and the sum agree for every symbol the fold has seen. */
  lemma {:induction false} TotalsAreSumsOf(f: seq<EventRecord>, userId: string, symbol: string)
    requires forall e :: e in f ==> e.userId == userId && e.status == FILLED
    requires symbol in Totals(f)
    ensures Totals(f)[symbol] == Sum(f, userId, symbol)
  {
    var prefix := f[..|f| - 1];
    var e := f[|f| - 1];
    assert forall x :: x in prefix ==> x in f;
    if symbol != e.symbol {
      AccumulateOther(Totals(prefix), e, symbol);
      TotalsAreSumsOf(prefix, userId, symbol);
    } else {
      assert e in f;
      AccumulateSame(Totals(prefix), e);
      if symbol in Totals(prefix) {
        TotalsAreSumsOf(prefix, userId, symbol);
      } else {
        SumZeroOutside(prefix, userId, symbol);
      }
    }
  }

  /** An event of another symbol leaves a symbol's entry as it was. */
  lemma AccumulateOther(m: map<string, Acc>, e: EventRecord, symbol: string)
    requires symbol != e.symbol && symbol in Accumulate(m, e)
    ensures symbol in m && Accumulate(m, e)[symbol] == m[symbol]
  {
  }

  /** An event adds its signed quantity and cost to its symbol's entry, starting from zero when there is none. */
  lemma AccumulateSame(m: map<string, Acc>, e: EventRecord)
    ensures Accumulate(m, e)[e.symbol] ==
      Plus(if e.symbol in m then m[e.symbol] else Acc(0.0, 0.0), Acc(SignedQuantity(e), SignedCost(e)))
  {
  }

  /** A symbol the fold has not seen has zero sums. */
  lemma {:induction false} SumZeroOutside(f: seq<EventRecord>, userId: string, symbol: string)
    requires symbol !in Totals(f)
    ensures Sum(f, userId, symbol) == Acc(0.0, 0.0)
  {
    if f != [] {
      SumZeroOutside(f[..|f| - 1], userId, symbol);
    }
  }

  /** Filtering out other users' and non-FILLED events does not change the sums. */
  lemma {:induction false} FilteredSum(es: seq<EventRecord>, userId: string, symbol: string)
    ensures Sum(FilledEvents(es, userId), userId, symbol) == Sum(es, userId, symbol)
  {
    if es != [] {
      var e := es[|es| - 1];
      var prefix := es[..|es| - 1];
      FilteredSum(prefix, userId, symbol);
      SumAppend(FilledEvents(prefix, userId), if e.userId == userId && e.status == FILLED then [e] else [], userId, symbol);
      if e.userId == userId && e.status == FILLED {
        assert Sum([e], userId, symbol) == Plus(Acc(0.0, 0.0), Contribution(e, userId, symbol));
      }
    }
  }

  /** The symbols the fold sees are those of the user's FILLED events. */
  lemma SymbolsOfFilled(es: seq<EventRecord>, userId: string, symbol: string)
    ensures symbol in Totals(FilledEvents(es, userId)) <==>
      exists e :: e in es && e.userId == userId && e.status == FILLED && e.symbol == symbol
  {
    HasSymbolMember(FilledEvents(es, userId), symbol);
  }

  lemma {:induction false} HasSymbolMember(es: seq<EventRecord>, symbol: string)
    ensures HasSymbol(es, symbol) <==> exists e :: e in es && e.symbol == symbol
  {
    if es != [] {
      var prefix := es[..|es| - 1];
      HasSymbolMember(prefix, symbol);
      assert es == prefix + [es[|es| - 1]];
    }
  }

  /**
   * Reordering the events changes at most the order of the positions: the
   * same positions, with the same quantities and average prices, are reported.
   */
  lemma PositionsOrderIndependent(a: seq<EventRecord>, b: seq<EventRecord>, userId: string)
    requires multiset(a) == multiset(b)
    ensures forall p :: p in PositionsOf(a, userId) <==> p in PositionsOf(b, userId)
  {
    var fa, fb := FilledEvents(a, userId), FilledEvents(b, userId);
    forall s
      ensures s in Totals(fa) <==> s in Totals(fb)
      ensures s in Totals(fa) ==> Totals(fa)[s] == Totals(fb)[s]
    {
      SymbolsOfFilled(a, userId, s);
      SymbolsOfFilled(b, userId, s);
      assert forall e :: e in a <==> e in b by {
        forall e ensures e in a <==> e in b {
          assert e in a <==> e in multiset(a);
        }
      }
      if s in Totals(fa) {
        TotalsAreSums(a, userId, s);
        TotalsAreSums(b, userId, s);
        SumPermutation(a, b, userId, s);
      }
    }
  }

  /** A SELL that closes a position entirely leaves nothing to report for that symbol. */
  lemma ClosedPositionOmitted(es: seq<EventRecord>, userId: string, symbol: string)
    requires symbol in Totals(FilledEvents(es, userId))
    requires Abs(Sum(es, userId, symbol).quantity) <= ZERO_THRESHOLD
    ensures forall p :: p in PositionsOf(es, userId) ==> p.symbol != symbol
  {
    TotalsAreSums(es, userId, symbol);
  }

  /** Every reported position is away from zero, reported once, priced at total cost over |quantity|. */
  lemma PositionsWellFormed(es: seq<EventRecord>, userId: string)
    ensures forall p :: p in PositionsOf(es, userId) ==>
      Abs(p.quantity) > ZERO_THRESHOLD && p.averagePrice == Sum(es, userId, p.symbol).totalCost / Abs(p.quantity)
      && p.quantity == Sum(es, userId, p.symbol).quantity
    ensures var ps := PositionsOf(es, userId); forall i, j :: 0 <= i < j < |ps| ==> ps[i].symbol != ps[j].symbol
  {
    forall p | p in PositionsOf(es, userId)
      ensures p.quantity == Sum(es, userId, p.symbol).quantity
      ensures p.averagePrice == Sum(es, userId, p.symbol).totalCost / Abs(p.quantity)
    {
      TotalsAreSums(es, userId, p.symbol);
    }
  }

  /** Events that are not the user's FILLED events change nothing. */
  lemma OnlyFilledEventsCount(es: seq<EventRecord>, e: EventRecord, userId: string)
    requires e.userId != userId || e.status != FILLED
    ensures PositionsOf(es + [e], userId) == PositionsOf(es, userId)
  {
    FilledEventsSkip(es, e, userId);
  }

  lemma FilledEventsSkip(es: seq<EventRecord>, e: EventRecord, userId: string)
    requires e.userId != userId || e.status != FILLED
    ensures FilledEvents(es + [e], userId) == FilledEvents(es, userId)
  {
    assert (es + [e])[..|es + [e]| - 1] == es;
  }

  /** BUY 1 at 100, BUY 1 at 200, SELL 0.5 at 300, all FILLED, on one symbol. */
  function ExampleEvents(userId: string): seq<EventRecord>
  {
    [EventRecord("o1", userId, FILLED, "BTCUSDT", BUY, Some(100.0), 1.0, 1),
     EventRecord("o2", userId, FILLED, "BTCUSDT", BUY, Some(200.0), 1.0, 2),
     EventRecord("o3", userId, FILLED, "BTCUSDT", SELL, Some(300.0), 0.5, 3)]
  }

  lemma {:induction false} ExampleFilled(userId: string)
    ensures FilledEvents(ExampleEvents(userId), userId) == ExampleEvents(userId)
  {
    var es := ExampleEvents(userId);
    assert es[..2] == [es[0], es[1]] && [es[0], es[1]][..1] == [es[0]] && [es[0]][..0] == [];
    assert FilledEvents([es[0]], userId) == [es[0]];
    assert FilledEvents([es[0], es[1]], userId) == [es[0], es[1]];
  }

  lemma {:induction false} ExampleSymbols(userId: string)
    ensures Symbols(ExampleEvents(userId)) == ["BTCUSDT"]
  {
    var es := ExampleEvents(userId);
    assert es[..2] == [es[0], es[1]] && [es[0], es[1]][..1] == [es[0]] && [es[0]][..0] == [];
    assert Symbols([es[0]]) == ["BTCUSDT"];
    assert Symbols([es[0], es[1]]) == ["BTCUSDT"];
  }

  lemma {:induction false} ExampleTotals(userId: string)
    ensures Totals(ExampleEvents(userId)) == map["BTCUSDT" := Acc(1.5, 150.0)]
  {
    var es := ExampleEvents(userId);
    assert es[..2] == [es[0], es[1]] && [es[0], es[1]][..1] == [es[0]] && [es[0]][..0] == [];
    assert Totals([es[0]]) == map["BTCUSDT" := Acc(1.0, 100.0)];
    assert Totals([es[0], es[1]]) == map["BTCUSDT" := Acc(2.0, 300.0)];
  }

  /** The example: a position of 1.5 at an average price of 100 (cost 150 over quantity 1.5). */
  lemma {:induction false} WorkedExample(userId: string)
    ensures PositionsOf(ExampleEvents(userId), userId) == [Position("BTCUSDT", 1.5, 100.0)]
  {
    ExampleFilled(userId);
    ExampleSymbols(userId);
    ExampleTotals(userId);
    var m := map["BTCUSDT" := Acc(1.5, 150.0)];
    assert Format(["BTCUSDT"], m) == [Position("BTCUSDT", 1.5, 100.0)] by {
      assert Reported(m["BTCUSDT"]);
      assert PositionOf("BTCUSDT", m["BTCUSDT"]) == Position("BTCUSDT", 1.5, 100.0);
      assert ["BTCUSDT"][1..] == [];
    }
  }
}

# Trading platform core, modelled in Dafny

The platform takes orders over HTTP and sends them to the Binance exchange. Results reach the browser over a WebSocket. Four parts do the work:

- **Backend.** POST /orders checks the request body against the shared order schema. It stores a PENDING order command and publishes it on the `commands:order:submit` channel. GET /orders lists a user's orders, newest first, each with its latest event. GET /positions folds the user's FILLED events into a net quantity and an average price per symbol. GET /candles returns exchange klines, or mock candles when the exchange cannot be reached. API credentials are stored encrypted (AES-256-GCM, `iv:ciphertext:tag` in hex).
- **Execution service.** For each command it looks up the user and decrypts the credentials. It sends a signed order to the exchange and reads the verdict. It then sets the command's status, appends an order event and publishes that event on `events:order:status`.
- **Event service.** It keeps each user's open sockets. It emits every event on that channel, as `ORDER_UPDATE`, to the sockets of the user the event names.
- **Web client.** Its WebSocket context opens a socket for an authenticated user. It tracks whether the socket is connected and keeps the 50 most recent order updates, newest first.

Each source file has its own module:

- `SharedTypes`: the zod schemas, as parsers over a `Json` datatype.
- `CredentialVault` and `ExecutionVault`: the two `encryption.ts` files.
- `Binance`: the exchange client.
- `Trading`: the backend order routes.
- `ExecutionWorker`: the execution service.
- `EventFanout`: the event service.
- `WebSocketClient`: the client context.
- `Market`: the market routes.

`Stores` models the database tables and the message broker as classes, and the services change them in place. `Text` holds string splitting, hex and decimal text. `Pipeline` states properties that cross services.

Anything outside the modelled code is a function-typed parameter:

- the cipher;
- HMAC-SHA256;
- the exchange call;
- number formatting and `parseFloat`;
- the clock;
- random values;
- the HTTP fetch.

## Model

| member | source | states |
|---|---|---|
| SharedTypes.ParseSide | packages/shared/src/types.ts:8 | accepts exactly "BUY" and "SELL", and the parsed side prints back as the input |
| SharedTypes.ParseOrderType | packages/shared/src/types.ts:9 | accepts exactly MARKET, LIMIT and STOP_MARKET, and the parsed type prints back as the input |
| SharedTypes.ParseEventStatus | packages/shared/src/types.ts:21 | accepts exactly the four event statuses; PENDING is never accepted |
| SharedTypes.ParseCreateOrder | packages/shared/src/types.ts:63-69 | an accepted body carries every field of the result, with a positive quantity and a positive price when one is present |
| SharedTypes.ParseCreateOrderComplete | packages/shared/src/types.ts:63-69 | every body that carries a valid order is accepted as exactly that order |
| SharedTypes.LimitWithoutPriceAccepted | packages/shared/src/types.ts:66-68 | the schema accepts a LIMIT order with no price |
| SharedTypes.NonPositiveAmountsRejected | packages/shared/src/types.ts:67-68 | a quantity or price that is zero or negative makes the body fail |
| SharedTypes.ParseOrderCommand | packages/shared/src/types.ts:4-13 | an accepted command has uuid ids, an ISO-8601 timestamp and positive amounts, and the JSON carries every field |
| SharedTypes.ParseOrderCommandComplete | packages/shared/src/types.ts:4-13 | every well-formed command is accepted as itself |
| SharedTypes.CommandRulesIncludeCreateRules | packages/shared/src/types.ts:4-13 | a body that passes the command schema also passes the create-order schema, with the same order fields |
| SharedTypes.ParseOrderEvent | packages/shared/src/types.ts:18-28 | an accepted event is well formed, and the JSON carries every field, including the optional price and error |
| SharedTypes.ParseOrderEventComplete | packages/shared/src/types.ts:18-28 | every well-formed event is accepted as itself |
| SharedTypes.ParseWSMessage | packages/shared/src/types.ts:33-46 | the `type` tag chooses the variant, and data that passes the chosen variant's schema is required; any other tag is rejected |
| SharedTypes.ParseWSMessageComplete | packages/shared/src/types.ts:33-46 | an `ORDER_UPDATE` whose data passes the event schema, and a `PRICE_UPDATE` whose data has a string symbol and numeric price and timestamp, are each accepted as that variant |
| SharedTypes.ParseRegister | packages/shared/src/types.ts:51-56 | an accepted registration has a valid email, a password of at least 8 characters and non-empty keys |
| SharedTypes.ParseRegisterComplete | packages/shared/src/types.ts:51-56 | every body that meets those rules is accepted |
| SharedTypes.ParseLogin | packages/shared/src/types.ts:58-61 | an accepted login has a valid email and a non-empty password |
| SharedTypes.ParseLoginComplete | packages/shared/src/types.ts:58-61 | every body that meets those rules is accepted |
| Text.Split | apps/backend/src/utils/encryption.ts:23 | `split(':')` yields at least one field, no field holds the separator, and joining the fields gives back the input |
| Text.SplitJoin | apps/backend/src/utils/encryption.ts:19-23 | splitting text joined from separator-free fields returns those fields |
| Text.HexEncode | apps/backend/src/utils/encryption.ts:19 | hex output has twice as many characters as the input has bytes, all of them lower-case hex digits |
| Text.HexRoundTrip | apps/backend/src/utils/encryption.ts:19-26 | decoding the hex of some bytes gives back those bytes |
| Text.HexDecode | apps/backend/src/utils/encryption.ts:24-26 | `Buffer.from(s, 'hex')` yields at most half as many bytes as there are characters |
| Text.DecimalRoundTrip | apps/execution-service/src/binance.ts:35 | the decimal text of the timestamp reads back as the same number |
| Text.Utf8Ascii | apps/backend/src/utils/encryption.ts:7 | the UTF-8 bytes of ASCII text are its character codes, one byte each |
| CredentialVault.GetKey | apps/backend/src/utils/encryption.ts:5-8 | an unset or empty ENCRYPTION_KEY falls back to the default key; otherwise the key is the setting's UTF-8 bytes |
| CredentialVault.DefaultKeyLength | apps/backend/src/utils/encryption.ts:6-7 | the default key is 32 bytes long, the AES-256 key length |
| CredentialVault.Encrypt | apps/backend/src/utils/encryption.ts:10-20 | fails exactly when the key is not 32 bytes; the token has three fields: the 16-byte iv in hex, the ciphertext, and the tag |
| CredentialVault.FrameSplits | apps/backend/src/utils/encryption.ts:19-23 | splitting an `iv:ciphertext:tag` token made of hex fields yields those three fields |
| CredentialVault.Decrypt | apps/backend/src/utils/encryption.ts:22-35 | fails with a missing field exactly when the token has fewer than three fields; a success needs a 32-byte key and an even-length hex ciphertext field, which `decipher.update` demands, and is what the cipher opens from the three hex-decoded fields |
| CredentialVault.EncryptFields | apps/backend/src/utils/encryption.ts:10-26 | the fields `decrypt` reads back are the iv, the ciphertext and the tag that `encrypt` wrote, and the ciphertext field has even length |
| CredentialVault.RoundTrip | apps/backend/src/utils/encryption.ts:10-35 | for a sound cipher and a valid key, decrypting an encrypted text gives back the text |
| ExecutionVault.GetKey | apps/execution-service/src/encryption.ts:5-8 | the same default-key fallback as the backend |
| ExecutionVault.SameKey | apps/execution-service/src/encryption.ts:5-8 | the execution service derives the same key as the backend from the same setting |
| ExecutionVault.Decrypt | apps/execution-service/src/encryption.ts:10-23 | fails with a missing field exactly when the token has fewer than three fields; a success needs a 32-byte key and an even-length hex ciphertext field, and is what the cipher opens from the three hex-decoded fields |
| ExecutionVault.SameDecrypt | apps/execution-service/src/encryption.ts:10-23 | the execution service decrypts every token exactly as the backend does |
| ExecutionVault.ExtraFieldsIgnored | apps/execution-service/src/encryption.ts:11-14 | fields after the third do not change the result |
| ExecutionVault.CrossServiceRoundTrip | apps/execution-service/src/encryption.ts:10-23 | a credential the backend encrypted is recovered by the execution service |
| Binance.OrderParams | apps/execution-service/src/binance.ts:29-42 | five parameters in a fixed key order, plus price and timeInForce=GTC only for a LIMIT order whose price is truthy |
| Binance.Pairs | apps/execution-service/src/binance.ts:45-46 | each parameter becomes its own `key=value` pair, in order |
| Binance.QueryStringLayout | apps/execution-service/src/binance.ts:45-47 | the query string is the pairs joined by '&', with the values the order supplies |
| Binance.ParsePairsRoundTrip | apps/execution-service/src/binance.ts:45-47 | the `key=value` pairs read back as the parameters |
| Binance.QueryStringRoundTrip | apps/execution-service/src/binance.ts:45-47 | a query string built from parameters free of '&' and '=' reads back as those parameters |
| Binance.HexIsQuerySafe | apps/execution-service/src/binance.ts:17 | a hex digest contains neither '&' nor '=' |
| Binance.SignedQueryRoundTrip | apps/execution-service/src/binance.ts:50-51 | the signed string reads back as the parameters followed by exactly one more pair, `signature`, holding the HMAC of the unsigned string |
| Binance.SignatureLength | apps/execution-service/src/binance.ts:13-18 | a 32-byte HMAC-SHA256 digest gives a 64-character signature |
| Binance.MapStatus | apps/execution-service/src/binance.ts:68-77 | FILLED and PARTIALLY_FILLED map to themselves; every other exchange status, or none, maps to REJECTED |
| Binance.Interpret | apps/execution-service/src/binance.ts:67-96 | the status is always FILLED, PARTIALLY_FILLED or REJECTED; an error is present exactly when the call failed; a failure is REJECTED with no price and with the exchange's message or the transport's; a response's price is the first fill's, or the order's own price |
| Binance.ExecuteBinanceOrder | apps/execution-service/src/binance.ts:20-97 | the result is the exchange's reply to the signed order parameters, interpreted as above |
| Stores.WithStatus | apps/execution-service/src/index.ts:52-55 | the row with that order id gets the new status; every other row is unchanged; order ids stay unique |
| Stores.WithStatusAbsent | apps/execution-service/src/index.ts:52-55 | updating an order id that no row has changes nothing |
| Stores.WithStatusSets | apps/execution-service/src/index.ts:52-55 | the update keeps the same set of order ids, and the updated order carries the new status |
| Stores.Database.CreateCommand | apps/backend/src/routes/trading.ts:21-32 | the insert succeeds exactly when the order id is new, and then appends the row; users and events are unchanged |
| Stores.Database.UpdateStatus | apps/execution-service/src/index.ts:52-55 | succeeds exactly when the order exists; the table becomes `WithStatus` of the old one |
| Stores.Database.AppendEvent | apps/execution-service/src/index.ts:58-69 | events are only appended |
| Stores.Broker.Publish | apps/execution-service/src/index.ts:72-82 | the message is appended to the broker's log |
| Trading.CommandJson | apps/backend/src/routes/trading.ts:35-44 | the published JSON carries every field of the command, and no price when there is none |
| Trading.CreateOrder | apps/backend/src/routes/trading.ts:14-57 | an invalid body answers 400 and writes nothing; otherwise the PENDING row is stored unless the database fails or the id is taken; the command is published only after a successful store; the answer is the order id with PENDING, or 400 when the store or the publish failed, and a failed publish leaves the row stored |
| Trading.PublishedMatchesStored | apps/backend/src/routes/trading.ts:21-44 | the published command and the stored row describe the same order, and the row is PENDING |
| Trading.UserCommands | apps/backend/src/routes/trading.ts:64-65 | holds exactly the commands of that user |
| Trading.Insert | apps/backend/src/routes/trading.ts:72 | inserting into a newest-first list keeps it newest first and adds exactly one element |
| Trading.NewestFirst | apps/backend/src/routes/trading.ts:72 | the result is sorted by createdAt, descending, and is a permutation of the input |
| Trading.LatestEvent | apps/backend/src/routes/trading.ts:66-71 | null exactly when the order has no event; otherwise an event of that order that no other event of the order is newer than |
| Trading.Views | apps/backend/src/routes/trading.ts:75-85 | each order becomes its view, in order |
| Trading.ListOrders | apps/backend/src/routes/trading.ts:60-92 | newest first; every order of the user appears; nothing else appears; one entry per order |
| Trading.ListingMembers | apps/backend/src/routes/trading.ts:64-72 | sorting the user's orders neither adds nor drops an order |
| Trading.FilledEvents | apps/backend/src/routes/trading.ts:100-108 | exactly the user's FILLED events |
| Trading.Symbols | apps/backend/src/routes/trading.ts:111-120 | the map's keys: each symbol that occurs, once (their order is stated by SymbolsFirstAppearance) |
| Trading.FirstIndex | apps/backend/src/routes/trading.ts:111-120 | the index of the first event naming a symbol, or the length when none does; no earlier event names it |
| Trading.SymbolsFirstAppearance | apps/backend/src/routes/trading.ts:111-120 | the Map's insertion order is the order of first appearance: of two keys, the earlier one first occurs earlier among the events |
| Trading.Totals | apps/backend/src/routes/trading.ts:111-125 | has a total for exactly the symbols that occur |
| Trading.Format | apps/backend/src/routes/trading.ts:128-134 | a position appears exactly for a key whose quantity is above 0.0001 in absolute value, with average price totalCost / abs(quantity) |
| Trading.FormatKeepsOrder | apps/backend/src/routes/trading.ts:128-134 | iterating the entries and filtering keeps the positions in the order of the keys |
| Trading.PositionsInFirstAppearanceOrder | apps/backend/src/routes/trading.ts:95-134 | the positions are listed in the order in which their symbols first appear among the user's FILLED events |
| Trading.ComputePositions | apps/backend/src/routes/trading.ts:95-141 | filtering, folding and formatting give exactly the positions of the specification |
| Trading.FoldPositions | apps/backend/src/routes/trading.ts:111-125 | the loop over the filled events, which updates the Map in place, leaves exactly the keys in first-appearance order and the totals of the fold |
| Trading.FoldStep | apps/backend/src/routes/trading.ts:113-125 | one loop iteration moves the totals and the key order of a prefix to those of the next prefix |
| Trading.UpdateIsAccumulate | apps/backend/src/routes/trading.ts:118-124 | creating the entry and then adding the signed quantity and cost is one accumulation step |
| Trading.SumAppend | apps/backend/src/routes/trading.ts:123-124 | a symbol's total over two runs of events is the sum of the two totals |
| Trading.SumPermutation | apps/backend/src/routes/trading.ts:113-125 | a symbol's total does not depend on the order of the events |
| Trading.SumRemove | apps/backend/src/routes/trading.ts:113-125 | a total is the total without one event plus that event's contribution |
| Trading.TotalsAreSums | apps/backend/src/routes/trading.ts:100-125 | each symbol's total is the signed sum of the user's FILLED events on that symbol |
| Trading.TotalsAreSumsOf | apps/backend/src/routes/trading.ts:113-125 | over events that are all the user's FILLED ones, the fold's total is that sum |
| Trading.SumZeroOutside | apps/backend/src/routes/trading.ts:113-125 | a symbol that no event names contributes nothing |
| Trading.FilteredSum | apps/backend/src/routes/trading.ts:100-108 | filtering for the user's FILLED events does not change a symbol's sum |
| Trading.SymbolsOfFilled | apps/backend/src/routes/trading.ts:100-120 | a symbol has a total exactly when one of the user's FILLED events names it |
| Trading.HasSymbolMember | apps/backend/src/routes/trading.ts:118-120 | a symbol occurs in the recursion exactly when some event names it |
| Trading.PositionsOrderIndependent | apps/backend/src/routes/trading.ts:95-134 | events in any order give the same set of positions |
| Trading.ClosedPositionOmitted | apps/backend/src/routes/trading.ts:129 | a symbol whose net quantity is within 0.0001 of zero is not reported |
| Trading.PositionsWellFormed | apps/backend/src/routes/trading.ts:128-134 | each reported position's quantity is above the threshold and is the net signed sum; its average price is the net cost over the absolute quantity; no symbol appears twice |
| Trading.OnlyFilledEventsCount | apps/backend/src/routes/trading.ts:100-104 | another user's event, or a non-FILLED one, does not change the positions |
| Trading.FilledEventsSkip | apps/backend/src/routes/trading.ts:100-104 | such an event is filtered out |
| Trading.WorkedExample | apps/backend/src/routes/trading.ts:113-134 | buying 1 at 100 and 1 at 200, then selling 0.5 at 300, leaves 1.5 BTCUSDT; the sale's 150 is taken off the cost of 300, so the average price is 150 / 1.5 = 100 |
| ExecutionWorker.EventJson | apps/execution-service/src/index.ts:72-82 | the published JSON carries every field of the event; an undefined price or error is left out |
| ExecutionWorker.HandleCommand | apps/execution-service/src/index.ts:25-89 | the handler's effect on the tables and the broker, and where it stops, equal the step-by-step specification; users are never written |
| ExecutionWorker.ProcessCases | apps/execution-service/src/index.ts:27-55 | a message either stops at parsing, at the user lookup or at decryption with the stores unchanged, or goes on with a known user's decrypted credentials to settle the exchange's verdict |
| ExecutionWorker.SettleCompleted | apps/execution-service/src/index.ts:52-82 | a completed settlement sets the order's status to the verdict's and appends exactly one event row and one published notice for it |
| ExecutionWorker.AppendsAtMostOne | apps/execution-service/src/index.ts:52-82 | one message appends at most one event and at most one published message, and earlier ones are kept |
| ExecutionWorker.PublishedOnlyAfterStored | apps/execution-service/src/index.ts:58-82 | a message is published only on the event channel, after an event row with the same order, user, status, price, quantity and symbol |
| ExecutionWorker.CompletedIsConsistent | apps/execution-service/src/index.ts:45-69 | after a completed handling the command row and the new event agree on a status the exchange can settle on |
| ExecutionWorker.EarlyStopsChangeNothing | apps/execution-service/src/index.ts:27-55 | a message that does not parse, an unknown user, unreadable credentials or a failed status update leave the stores unchanged |
| ExecutionWorker.UnknownUserDropped | apps/execution-service/src/index.ts:35-38 | a command for a user the table does not hold is dropped |
| ExecutionWorker.ExchangeErrorRejects | apps/execution-service/src/index.ts:58-82 | an exchange failure is stored as REJECTED with no price, and published with an error |
| ExecutionWorker.RedeliveryExecutesTwice | apps/execution-service/src/index.ts:25-89 | there is no de-duplication: a command delivered again, under an environment of its own that shares the cipher and the key, is executed again, adding two more events and two more messages; under the same environment the outcome repeats |
| ExecutionWorker.PublishedEventParses | apps/execution-service/src/index.ts:72-82 | a well-formed published event passes the shared event schema unchanged |
| EventFanout.Connected | apps/event-service/src/index.ts:56-59 | the user's set, created if absent, gains the socket; other users are unchanged; no user is left with an empty set |
| EventFanout.Disconnected | apps/event-service/src/index.ts:62-71 | the socket leaves its user's set; a set left empty is removed; an unknown user changes nothing; other users are unchanged |
| EventFanout.SessionRegistry.Connect | apps/event-service/src/index.ts:56-59 | the registry becomes `Connected` of the old one |
| EventFanout.SessionRegistry.Disconnect | apps/event-service/src/index.ts:62-71 | the registry becomes `Disconnected` of the old one |
| EventFanout.SessionRegistry.Broadcast | apps/event-service/src/index.ts:80-97 | one ORDER_UPDATE emit with the event as payload goes to each socket of the user the message names, and to no other socket; nothing is emitted when the message is not JSON, names no user, or names an unknown one |
| EventFanout.ConnectDisconnect | apps/event-service/src/index.ts:56-71 | connecting a new socket and then disconnecting it restores the registry |
| EventFanout.OtherSocketsStay | apps/event-service/src/index.ts:64-69 | disconnecting one socket keeps the user's other sockets registered |
| EventFanout.UnaddressedReachesNobody | apps/event-service/src/index.ts:83-93 | a message for nobody, or for an unknown user, reaches no socket |
| WebSocketClient.PushUpdate | apps/frontend/lib/WebSocketContext.tsx:59-62 | the new update comes first, followed by as many earlier ones as fit, and the list is capped at 50 |
| WebSocketClient.HistoryIsNewestFirst | apps/frontend/lib/WebSocketContext.tsx:61 | after any run of updates the history holds them in reverse order, then the earlier history, cut at 50 |
| WebSocketClient.HistoryBounded | apps/frontend/lib/WebSocketContext.tsx:61 | the history never holds more than 50 updates |
| WebSocketClient.UseWebSocket | apps/frontend/lib/WebSocketContext.tsx:83-89 | returns the provider's value when there is one; otherwise throws the "must be used within" error |
| WebSocketClient.ClientSession.Authenticate | apps/frontend/lib/WebSocketContext.tsx:35-47 | a socket is opened with the token only for an authenticated user with a non-empty token; otherwise nothing changes |
| WebSocketClient.ClientSession.OnConnect | apps/frontend/lib/WebSocketContext.tsx:49-52 | connected becomes true; nothing else changes |
| WebSocketClient.ClientSession.OnDisconnect | apps/frontend/lib/WebSocketContext.tsx:54-57 | connected becomes false; nothing else changes |
| WebSocketClient.ClientSession.OnOrderUpdate | apps/frontend/lib/WebSocketContext.tsx:59-62 | the history becomes `PushUpdate` of the old one and stays within 50 |
| Market.CandleRequest | apps/backend/src/routes/market.ts:11-18 | symbol, interval and limit come from the query, with the defaults BTCUSDT, 1m and 500 only for absent keys |
| Market.Seconds | apps/backend/src/routes/market.ts:45 | `Math.floor(ms / 1000)`: the whole seconds at or below the millisecond time |
| Market.ToCandles | apps/backend/src/routes/market.ts:44-51 | one candle per kline, in order |
| Market.ConsecutiveMinutes | apps/backend/src/routes/market.ts:45 | klines one minute apart give candle times 60 seconds apart |
| Market.MockCandle | apps/backend/src/routes/market.ts:29-38 | time is now - (100 - i) * 60; low <= open <= high; open lies within 500 of 45000; volume lies in [0, 100) |
| Market.MockCandles | apps/backend/src/routes/market.ts:26-40 | 100 candles, each the mock candle of its index |
| Market.MockCandlesShape | apps/backend/src/routes/market.ts:27-38 | times rise by a minute and end a minute before now |
| Market.GetCandles | apps/backend/src/routes/market.ts:13-53 | the mock candles when the request fails; otherwise exactly the converted klines, one candle per kline, in order |
| Pipeline.SubmittedCommandParses | apps/backend/src/routes/trading.ts:35-44 | a command the backend publishes under uuid ids passes the execution service's command schema as itself |
| Pipeline.EventReachesOwner | apps/event-service/src/index.ts:82-93 | the event the execution service publishes is emitted to exactly the sockets of the order's user |
| Pipeline.PublishedStatusAccepted | apps/execution-service/src/index.ts:72-82 | the published status is always one the event schema accepts |

## Left out

- I/O, Redis connections, Express routing, socket.io transport and logging are left out. Each handler is modelled as its effect on the stores, with JSON parse failures as `None`.
- Concurrency is not modelled. Each message or request is handled alone, so interleaved handlers are not captured.
- The database is modelled only as far as the core reads and writes it. Foreign keys and `createdAt` defaults are not modelled. An order's `createdAt` comes from the caller's clock reading.
- Trading.NewestFirst: ties on `createdAt` may come out in any order. The database's tie order is not specified.
- Trading.LatestEvent: when two events of one order share the newest `createdAt`, any one of them may be returned.
- Numbers are `real`. Floating-point rounding, NaN and infinities are not modelled. The sums in GET /positions are exact here, so the 0.0001 threshold only matters for exact values.
- Number-to-text conversion (`${value}`, axios params) and `parseFloat` are parameters.
- The axios params serialisation of the sent request is not modelled; only the signed string that is signed is.
- AES-256-GCM and HMAC-SHA256 are parameters. `CredentialVault.Sound` states the only property the round trip needs.
- JWT checks, bcrypt, `auth.ts`, the socket authentication middleware and the Redis publish helper are not part of this model. The authenticated user id is a parameter.
- SharedTypes.ParseRegister: email validity is a parameter. Zod's `.min` counts UTF-16 code units, while the model counts characters.
- SharedTypes.ParseOrderCommand: `uuid()` is modelled as the 8-4-4-4-12 hex layout, and `datetime()` as `YYYY-MM-DDTHH:MM:SS[.fraction]Z`.
- Random values are parameters: `crypto.randomUUID`, `crypto.randomBytes` and `Math.random`. Clock readings are parameters as well: `Date.now` and both `new Date()` calls.
- Market.GetCandles: any fetch failure takes the mock path. A successful answer is taken to be a list of klines; a body of another shape, on which the source answers 500, is not modelled. The GET /price endpoint only forwards the exchange's answer and is not modelled.
- Market.MockCandle: close and high/low beyond their bounds relative to open are not stated.
- WebSocketClient.ClientSession.Authenticate: the effect's cleanup (`newSocket.close()` when the token changes) and the reconnection options are not modelled.
- ExecutionWorker.HandleCommand: the message arrives as a parsed command or as `None` for text that is not JSON. The service only casts `JSON.parse(message)` to `OrderCommand`, with no schema check, so JSON of another shape would go on with `undefined` fields. The model does not capture that path. Commands the backend publishes cannot take it: Pipeline.SubmittedCommandParses shows each one passes the command schema as itself.
- EventFanout.SessionRegistry.Broadcast: a `userId` that is not a string never matches, because the registry's keys are strings.
- Emit order over a user's sockets follows the set's iteration, which is not modelled.

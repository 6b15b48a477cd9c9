/**
 * The execution service's handler for one message of the command channel:
 * look the user up, decrypt both exchange credentials, execute the order on
 * the exchange, set the command's status, append an order event and publish
 * it on the event channel. A failure at any step (the handler's try/catch)
 * ends the handling there; whatever was written before stays written.
 */
module ExecutionWorker {
  import opened Wrappers
  import opened Text
  import opened SharedTypes
  import opened Stores
  import opened Binance
  import ExecutionVault

  /** The step that throws, when one of the external stores fails. */
  datatype Fault = NoFault | LookupFails | UpdateFails | EventWriteFails | PublishFails

  /**
   * Everything the handler takes from outside the stores: the cipher and the
   * ENCRYPTION_KEY setting, number formatting, HMAC, the exchange, the
   * exchange request's timestamp, the two clock readings and a store fault.
   */
  datatype Env = Env(
    cipher: ExecutionVault.Cipher, encryptionKey: Option<string>, show: real -> string, hmac: Hmac,
    send: (string, string) -> ExchangeReply, exchangeTime: nat, recordedAt: int, sentAt: string, fault: Fault)

  /** Where handling stopped. */
  datatype Stage = Parse | Lookup | Credentials | StatusUpdate | EventWrite | Publish

  datatype Outcome = Stopped(at: Stage) | Completed(result: OrderResult)

  /** What the handler can change: the command and event tables and the broker's log. */
  datatype Snapshot = Snapshot(commands: seq<CommandRecord>, events: seq<EventRecord>, published: seq<Message>)

  datatype Step = Step(outcome: Outcome, after: Snapshot)

  /** The event row: ids, symbol, side and quantity from the command; status and price from the exchange. */
  function EventFor(cmd: OrderCommand, result: OrderResult, recordedAt: int): EventRecord
  {
    EventRecord(cmd.orderId, cmd.userId, result.status, cmd.symbol, cmd.side, result.price, cmd.quantity, recordedAt)
  }

  /** The published event: the same fields as the row, plus the timestamp text and the exchange error. */
  function Notice(cmd: OrderCommand, result: OrderResult, sentAt: string): OrderEvent
  {
    OrderEvent(cmd.orderId, cmd.userId, result.status, cmd.symbol, cmd.side, cmd.quantity, result.price, sentAt, result.error)
  }

  /** `JSON.stringify` of the published event: undefined price and error are left out. */
  function EventJson(e: OrderEvent): (j: Json)
    ensures CarriesOrderEvent(j, e)
  {
    var base := map["orderId" := JStr(e.orderId), "userId" := JStr(e.userId), "status" := JStr(StatusName(e.status)),
                    "symbol" := JStr(e.symbol), "side" := JStr(SideName(e.side)), "quantity" := JNum(e.quantity),
                    "timestamp" := JStr(e.timestamp)];
    var withPrice := if e.price.Some? then base["price" := JNum(e.price.value)] else base;
    JObj(if e.error.Some? then withPrice["error" := JStr(e.error.value)] else withPrice)
  }

  /** The credentials the user row yields, each decrypted with the service's key. */
  function DecryptedCredentials(env: Env, user: UserRecord): Result<(string, string), ExecutionVault.VaultError>
  {
    var key := ExecutionVault.GetKey(env.encryptionKey);
    var apiKey := ExecutionVault.Decrypt(env.cipher, key, user.apiKeyEnc);
    var apiSecret := ExecutionVault.Decrypt(env.cipher, key, user.secretEnc);
    if apiKey.Err? then Err(apiKey.error)
    else if apiSecret.Err? then Err(apiSecret.error)
    else Ok((apiKey.value, apiSecret.value))
  }

  /** The exchange's verdict on the order, sent under the given credentials. */
  function Execution(env: Env, cmd: OrderCommand, apiKey: string, apiSecret: string): OrderResult
  {
    Interpret(cmd, env.send(apiKey, SignedQueryString(env.hmac, OrderParams(cmd, env.exchangeTime, env.show), apiSecret)))
  }

  /** The whole effect of handling one message, step by step. */
  function Process(env: Env, users: map<string, UserRecord>, s: Snapshot, message: Option<OrderCommand>): Step
  {
    if message.None? then Step(Stopped(Parse), s)
    else
      var cmd := message.value;
      if env.fault == LookupFails || cmd.userId !in users then Step(Stopped(Lookup), s)
      else
        var creds := DecryptedCredentials(env, users[cmd.userId]);
        if creds.Err? then Step(Stopped(Credentials), s)
        else Settle(env, s, cmd, Execution(env, cmd, creds.value.0, creds.value.1))
  }

  /** The steps after the exchange answered: status update, event row, publish. */
  function Settle(env: Env, s: Snapshot, cmd: OrderCommand, result: OrderResult): Step
  {
    if env.fault == UpdateFails || !HasOrder(s.commands, cmd.orderId) then Step(Stopped(StatusUpdate), s)
    else
      var commands := WithStatus(s.commands, cmd.orderId, result.status);
      if env.fault == EventWriteFails then Step(Stopped(EventWrite), s.(commands := commands))
      else
        var events := s.events + [EventFor(cmd, result, env.recordedAt)];
        if env.fault == PublishFails then Step(Stopped(Publish), Snapshot(commands, events, s.published))
        else Step(Completed(result), Snapshot(commands, events, s.published + [EventMessage(Notice(cmd, result, env.sentAt))]))
  }

  /** The subscriber's callback for one message (None when it is not valid JSON). */
  method HandleCommand(db: Database, broker: Broker, env: Env, message: Option<OrderCommand>)
    returns (outcome: Outcome)
    requires db.Valid()
    modifies db, broker
    ensures db.Valid()
    ensures db.users == old(db.users)
    ensures var step := Process(env, old(db.users), Snapshot(old(db.commands), old(db.events), old(broker.published)), message);
      && outcome == step.outcome
      && db.commands == step.after.commands && db.events == step.after.events && broker.published == step.after.published
  {
    if message.None? {
      return Stopped(Parse);
    }
    var orderCommand := message.value;
    if env.fault == LookupFails || orderCommand.userId !in db.users {
      return Stopped(Lookup);
    }
    var user := db.users[orderCommand.userId];
    var key := ExecutionVault.GetKey(env.encryptionKey);
    var apiKey := ExecutionVault.Decrypt(env.cipher, key, user.apiKeyEnc);
    if apiKey.Err? {
      return Stopped(Credentials);
    }
    var apiSecret := ExecutionVault.Decrypt(env.cipher, key, user.secretEnc);
    if apiSecret.Err? {
      return Stopped(Credentials);
    }
    var result := ExecuteBinanceOrder(apiKey.value, apiSecret.value, orderCommand, env.exchangeTime,
                                      env.show, env.hmac, env.send);
    if env.fault == UpdateFails {
      return Stopped(StatusUpdate);
    }
    var updated := db.UpdateStatus(orderCommand.orderId, result.status);
    if !updated {
      WithStatusAbsent(old(db.commands), orderCommand.orderId, result.status);
      return Stopped(StatusUpdate);
    }
    if env.fault == EventWriteFails {
      return Stopped(EventWrite);
    }
    db.AppendEvent(EventFor(orderCommand, result, env.recordedAt));
    if env.fault == PublishFails {
      return Stopped(Publish);
    }
    broker.Publish(EventMessage(Notice(orderCommand, result, env.sentAt)));
    outcome := Completed(result);
  }

  // ---------------------------------------------------------------------------
  // properties of one handling
  // ---------------------------------------------------------------------------

  /** The credentials of a user the handling got past, when it got past them. */
  function Creds(env: Env, users: map<string, UserRecord>, cmd: OrderCommand): Result<(string, string), ExecutionVault.VaultError>
  {
    if cmd.userId in users then DecryptedCredentials(env, users[cmd.userId]) else Err(ExecutionVault.CredentialVault.MissingField)
  }

  /**
   * A handling either stops before the exchange is called, changing nothing,
   * or settles the exchange's verdict on the user's decrypted credentials.
   */
  lemma ProcessCases(env: Env, users: map<string, UserRecord>, s: Snapshot, message: Option<OrderCommand>)
    ensures var step := Process(env, users, s, message);
      || (step.after == s && step.outcome in {Stopped(Parse), Stopped(Lookup), Stopped(Credentials)})
      || (&& message.Some? && env.fault != LookupFails && Creds(env, users, message.value).Ok?
          && var creds := Creds(env, users, message.value).value;
             step == Settle(env, s, message.value, Execution(env, message.value, creds.0, creds.1)))
  {
  }

  /** Settling appends at most one event row and one message and rewrites only statuses. */
  lemma SettleAppends(env: Env, s: Snapshot, cmd: OrderCommand, r: OrderResult)
    ensures var a := Settle(env, s, cmd, r).after;
      && |a.commands| == |s.commands|
      && (a.events == s.events || (|a.events| == |s.events| + 1 && a.events[..|s.events|] == s.events))
      && (a.published == s.published || (|a.published| == |s.published| + 1 && a.published[..|s.published|] == s.published))
  {
  }

  /** Handling only appends: at most one event row and at most one published message, and earlier ones stay. */
  lemma AppendsAtMostOne(env: Env, users: map<string, UserRecord>, s: Snapshot, message: Option<OrderCommand>)
    ensures var a := Process(env, users, s, message).after;
      && |a.commands| == |s.commands|
      && (a.events == s.events || (|a.events| == |s.events| + 1 && a.events[..|s.events|] == s.events))
      && (a.published == s.published || (|a.published| == |s.published| + 1 && a.published[..|s.published|] == s.published))
  {
    ProcessCases(env, users, s, message);
    if message.Some? && env.fault != LookupFails && Creds(env, users, message.value).Ok? {
      var creds := Creds(env, users, message.value).value;
      SettleAppends(env, s, message.value, Execution(env, message.value, creds.0, creds.1));
    }
  }

  /** Settling publishes only right after storing a matching event row. */
  lemma SettlePublishesStored(env: Env, s: Snapshot, cmd: OrderCommand, r: OrderResult)
    requires Settle(env, s, cmd, r).after.published != s.published
    ensures var a := Settle(env, s, cmd, r).after;
      && |a.events| == |s.events| + 1
      && |a.published| == |s.published| + 1
      && var m := a.published[|s.published|]; var row := a.events[|s.events|];
      && m.EventMessage? && m.Channel() == EVENT_CHANNEL
      && m.event.orderId == row.orderId && m.event.userId == row.userId && m.event.status == row.status
      && m.event.price == row.price && m.event.quantity == row.quantity && m.event.symbol == row.symbol
  {
  }

  /** Nothing is published that was not first stored as an event with the same order, status and price. */
  lemma PublishedOnlyAfterStored(env: Env, users: map<string, UserRecord>, s: Snapshot, message: Option<OrderCommand>)
    requires Process(env, users, s, message).after.published != s.published
    ensures var a := Process(env, users, s, message).after;
      && |a.events| == |s.events| + 1
      && |a.published| == |s.published| + 1
      && var m := a.published[|s.published|]; var row := a.events[|s.events|];
      && m.EventMessage? && m.Channel() == EVENT_CHANNEL
      && m.event.orderId == row.orderId && m.event.userId == row.userId && m.event.status == row.status
      && m.event.price == row.price && m.event.quantity == row.quantity && m.event.symbol == row.symbol
  {
    ProcessCases(env, users, s, message);
    var creds := Creds(env, users, message.value).value;
    SettlePublishesStored(env, s, message.value, Execution(env, message.value, creds.0, creds.1));
  }

  /** A completed settling stores the verdict's status on the order and appends its event. */
  lemma SettleCompleted(env: Env, s: Snapshot, cmd: OrderCommand, r: OrderResult)
    requires Settle(env, s, cmd, r).outcome.Completed?
    ensures var step := Settle(env, s, cmd, r);
      && step.outcome.result == r
      && step.after.events == s.events + [EventFor(cmd, r, env.recordedAt)]
      && step.after.published == s.published + [EventMessage(Notice(cmd, r, env.sentAt))]
      && HasOrder(step.after.commands, cmd.orderId)
      && (forall i :: 0 <= i < |step.after.commands| && step.after.commands[i].orderId == cmd.orderId ==>
            step.after.commands[i].status == r.status)
  {
    WithStatusSets(s.commands, cmd.orderId, r.status);
  }

  /**
   * A completed handling leaves the command row and the new event agreeing on
   * the status, which is one of the three the exchange can settle on.
   */
  lemma CompletedIsConsistent(env: Env, users: map<string, UserRecord>, s: Snapshot, cmd: OrderCommand)
    requires Process(env, users, s, Some(cmd)).outcome.Completed?
    ensures var step := Process(env, users, s, Some(cmd)); var r := step.outcome.result;
      && step.after.events == s.events + [EventFor(cmd, r, env.recordedAt)]
      && r.status in {FILLED, PARTIALLY_FILLED, REJECTED}
      && HasOrder(step.after.commands, cmd.orderId)
      && (forall i :: 0 <= i < |step.after.commands| && step.after.commands[i].orderId == cmd.orderId ==>
            step.after.commands[i].status == r.status)
  {
    ProcessCases(env, users, s, Some(cmd));
    var creds := Creds(env, users, cmd).value;
    SettleCompleted(env, s, cmd, Execution(env, cmd, creds.0, creds.1));
  }

  /** An unknown user, a failed lookup, unreadable credentials or a failed status update change nothing at all. */
  lemma EarlyStopsChangeNothing(env: Env, users: map<string, UserRecord>, s: Snapshot, message: Option<OrderCommand>)
    requires Process(env, users, s, message).outcome in {Stopped(Parse), Stopped(Lookup), Stopped(Credentials), Stopped(StatusUpdate)}
    ensures Process(env, users, s, message).after == s
  {
    ProcessCases(env, users, s, message);
  }

  /** A message for a user the table does not hold is dropped. */
  lemma UnknownUserDropped(env: Env, users: map<string, UserRecord>, s: Snapshot, cmd: OrderCommand)
    requires cmd.userId !in users
    ensures Process(env, users, s, Some(cmd)) == Step(Stopped(Lookup), s)
  {
  }

  /** An exchange error is recorded as a REJECTED event and published with the error's message. */
  lemma ExchangeErrorRejects(env: Env, users: map<string, UserRecord>, s: Snapshot, cmd: OrderCommand)
    requires Process(env, users, s, Some(cmd)).outcome.Completed?
    requires var creds := Creds(env, users, cmd).value;
      env.send(creds.0, SignedQueryString(env.hmac, OrderParams(cmd, env.exchangeTime, env.show), creds.1)).Failure?
    ensures var a := Process(env, users, s, Some(cmd)).after;
      && |a.events| == |s.events| + 1 && |a.published| == |s.published| + 1
      && a.events[|s.events|].status == REJECTED && a.events[|s.events|].price == None
      && a.published[|s.published|].event.error.Some?
  {
    ProcessCases(env, users, s, Some(cmd));
    var creds := Creds(env, users, cmd).value;
    SettleCompleted(env, s, cmd, Execution(env, cmd, creds.0, creds.1));
  }

  /**
   * There is no de-duplication: a command delivered again after a completed
   * delivery is executed again and leaves a second event and a second
   * message. The redelivery has its own environment (exchange reply, clocks)
   * and shares only the cipher and the key setting, so the credentials
   * decrypt alike; under the same environment the two outcomes agree.
   */
  lemma RedeliveryExecutesTwice(env: Env, env': Env, users: map<string, UserRecord>, s: Snapshot, cmd: OrderCommand)
    requires env.fault == NoFault && env'.fault == NoFault
    requires env'.cipher == env.cipher && env'.encryptionKey == env.encryptionKey
    requires Process(env, users, s, Some(cmd)).outcome.Completed?
    ensures var first := Process(env, users, s, Some(cmd));
      var second := Process(env', users, first.after, Some(cmd));
      && second.outcome.Completed?
      && |second.after.events| == |s.events| + 2
      && |second.after.published| == |s.published| + 2
      && (env' == env ==> second.outcome == first.outcome)
  {
    ProcessCases(env, users, s, Some(cmd));
    var creds := Creds(env, users, cmd).value;
    var r := Execution(env, cmd, creds.0, creds.1);
    SettleCompleted(env, s, cmd, r);
    var first := Settle(env, s, cmd, r);
    assert Creds(env', users, cmd) == Creds(env, users, cmd);
    ProcessCases(env', users, first.after, Some(cmd));
    var r' := Execution(env', cmd, creds.0, creds.1);
    SettleCompleted(env', first.after, cmd, r');
  }

  /** A well-formed published event passes the shared event schema unchanged. */
  lemma PublishedEventParses(e: OrderEvent)
    requires WellFormedEvent(e)
    ensures ParseOrderEvent(EventJson(e)) == Some(e)
  {
    ParseOrderEventComplete(EventJson(e), e);
  }
}

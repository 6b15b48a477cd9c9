/**
 * The stores the services share: the relational database (users, order
 * commands, order events) and the message broker. Only the record shapes
 * and the writes the services make are modelled; the database enforces that
 * order ids are unique, as the command table's key.
 */
module Stores {
  import opened Wrappers
  import opened SharedTypes

  const COMMAND_CHANNEL: string := "commands:order:submit"
  const EVENT_CHANNEL: string := "events:order:status"

  /** A clock reading: epoch milliseconds and the ISO-8601 text `toISOString` gives for it. */
  datatype Instant = Instant(millis: int, iso: string)

  /** A row of the user table, as far as the core reads it. */
  datatype UserRecord = UserRecord(id: string, apiKeyEnc: string, secretEnc: string)

  /** A row of the order-command table. */
  datatype CommandRecord = CommandRecord(
    orderId: string, userId: string, symbol: string, side: Side, orderType: OrderType,
    quantity: real, price: Option<real>, status: OrderStatus, createdAt: int)

  /** A row of the order-event table. */
  datatype EventRecord = EventRecord(
    orderId: string, userId: string, status: OrderStatus, symbol: string, side: Side,
    price: Option<real>, quantity: real, createdAt: int)

  /** A broker message: the command channel carries order commands, the event channel order events. */
  datatype Message =
    | CommandMessage(command: OrderCommand)
    | EventMessage(event: OrderEvent)
  {
    function Channel(): string
    {
      if CommandMessage? then COMMAND_CHANNEL else EVENT_CHANNEL
    }
  }

  predicate UniqueOrderIds(cs: seq<CommandRecord>)
  {
    forall i, j :: 0 <= i < j < |cs| ==> cs[i].orderId != cs[j].orderId
  }

  predicate HasOrder(cs: seq<CommandRecord>, orderId: string)
  {
    exists i :: 0 <= i < |cs| && cs[i].orderId == orderId
  }

  /** The command table with the row for `orderId` given a new status, every other row as it was. */
  function WithStatus(cs: seq<CommandRecord>, orderId: string, status: OrderStatus): (r: seq<CommandRecord>)
    ensures |r| == |cs|
    ensures forall i :: 0 <= i < |cs| ==>
      r[i] == if cs[i].orderId == orderId then cs[i].(status := status) else cs[i]
    ensures UniqueOrderIds(cs) ==> UniqueOrderIds(r)
  {
    seq(|cs|, i requires 0 <= i < |cs| => if cs[i].orderId == orderId then cs[i].(status := status) else cs[i])
  }

  /** Updating an order id no row has changes nothing. */
  lemma WithStatusAbsent(cs: seq<CommandRecord>, orderId: string, status: OrderStatus)
    requires !HasOrder(cs, orderId)
    ensures WithStatus(cs, orderId, status) == cs
  {
    var r := WithStatus(cs, orderId, status);
    assert forall i :: 0 <= i < |cs| ==> r[i] == cs[i];
  }

  /** After the update the same order ids are present, and every row of that id carries the new status. */
  lemma WithStatusSets(cs: seq<CommandRecord>, orderId: string, status: OrderStatus)
    ensures var r := WithStatus(cs, orderId, status);
      && (forall id :: HasOrder(r, id) <==> HasOrder(cs, id))
      && (forall i :: 0 <= i < |r| && r[i].orderId == orderId ==> r[i].status == status)
  {
    var r := WithStatus(cs, orderId, status);
    forall id ensures HasOrder(r, id) <==> HasOrder(cs, id) {
      if HasOrder(cs, id) {
        var i :| 0 <= i < |cs| && cs[i].orderId == id;
        assert r[i].orderId == id;
      }
      if HasOrder(r, id) {
        var i :| 0 <= i < |r| && r[i].orderId == id;
        assert cs[i].orderId == id;
      }
    }
  }

  class Database {
    var users: map<string, UserRecord>
    var commands: seq<CommandRecord>
    var events: seq<EventRecord>

    ghost predicate Valid()
      reads this
    {
      UniqueOrderIds(commands)
    }

    constructor (users: map<string, UserRecord>)
      ensures Valid()
      ensures this.users == users && commands == [] && events == []
    {
      this.users := users;
      commands := [];
      events := [];
    }

    /** `orderCommand.create`: refused when the order id is already taken. */
    method CreateCommand(r: CommandRecord) returns (ok: bool)
      requires Valid()
      modifies this
      ensures Valid()
      ensures ok <==> !HasOrder(old(commands), r.orderId)
      ensures commands == if ok then old(commands) + [r] else old(commands)
      ensures users == old(users) && events == old(events)
    {
      ok := !HasOrder(commands, r.orderId);
      if ok {
        commands := commands + [r];
      }
    }

    /** `orderCommand.update`: sets the status; refused when no row has that order id. */
    method UpdateStatus(orderId: string, status: OrderStatus) returns (ok: bool)
      requires Valid()
      modifies this
      ensures Valid()
      ensures ok <==> HasOrder(old(commands), orderId)
      ensures commands == WithStatus(old(commands), orderId, status)
      ensures users == old(users) && events == old(events)
    {
      ok := HasOrder(commands, orderId);
      commands := WithStatus(commands, orderId, status);
    }

    /** `orderEvent.create`: events are only ever appended. */
    method AppendEvent(e: EventRecord)
      requires Valid()
      modifies this
      ensures Valid()
      ensures events == old(events) + [e]
      ensures users == old(users) && commands == old(commands)
    {
      events := events + [e];
    }
  }

  class Broker {
    var published: seq<Message>

    constructor ()
      ensures published == []
    {
      published := [];
    }

    /** `publish(channel, JSON.stringify(payload))`; the channel follows from the message. */
    method Publish(m: Message)
      modifies this
      ensures published == old(published) + [m]
    {
      published := published + [m];
    }
  }
}

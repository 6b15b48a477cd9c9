/**
 * How the services fit together: what the backend publishes is a valid
 * command for the execution service, and what the execution service
 * publishes reaches exactly the sockets of the order's owner.
 */
module Pipeline {
  import opened Wrappers
  import opened SharedTypes
  import opened Stores
  import Trading
  import ExecutionWorker
  import EventFanout
  import Binance

  /**
   * A validated order, submitted under uuid ids at an ISO-8601 time, is
   * published as a body that passes the command schema and reads back as the
   * very command published.
   */
  lemma SubmittedCommandParses(body: Json, orderId: string, userId: string, now: Instant)
    requires ParseCreateOrder(body).Some?
    requires IsUuid(orderId) && IsUuid(userId) && IsIsoDateTime(now.iso)
    ensures var c := Trading.SubmitCommand(orderId, userId, ParseCreateOrder(body).value, now);
      ParseOrderCommand(Trading.CommandJson(c)) == Some(c)
  {
    var c := Trading.SubmitCommand(orderId, userId, ParseCreateOrder(body).value, now);
    ParseOrderCommandComplete(Trading.CommandJson(c), c);
  }

  /** The event the worker publishes is emitted to exactly the sockets registered under the order's user. */
  lemma EventReachesOwner(m: map<string, set<string>>, cmd: OrderCommand, result: Binance.OrderResult, sentAt: string)
    ensures var notice := ExecutionWorker.Notice(cmd, result, sentAt);
      EventFanout.Recipients(m, Some(ExecutionWorker.EventJson(notice))) == EventFanout.SocketsOf(m, cmd.userId)
  {
  }

  /**
   * The status the worker publishes is always one the event schema accepts:
   * it is never PENDING.
   */
  lemma PublishedStatusAccepted(cmd: OrderCommand, reply: Binance.ExchangeReply)
    ensures ParseEventStatus(JStr(StatusName(Binance.Interpret(cmd, reply).status))).Some?
  {
  }
}

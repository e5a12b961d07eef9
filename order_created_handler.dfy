/**
 * The ingress handler for `order.created`: it hands each message to the
 * dispatch service once and turns whatever the service throws into one of the
 * two signals the retry infrastructure understands, Retryable (redeliver after
 * back-off) or NotRetryable (send to the dead-letter topic).
 *
 * The service is a parameter: a total function from the message key and
 * payload to the service's outcome.
 */
module Handler {
  import opened Failures
  import opened Messages
  import StockClient

  /** One call of listen: the service calls it made, in order, and what it returned or threw. */
  datatype Delivery = Delivery(calls: seq<(string, OrderCreated)>, outcome: Outcome)

  /**
   * The two catch clauses of listen: a Retryable failure is thrown again as it
   * is; any other exception is wrapped in NotRetryable; an Error is caught by
   * neither clause and leaves listen unchanged.
   */
  function Signal(f: Failure): (s: Failure)
    ensures IsException(f) ==> s.Retryable? || s.NotRetryable?
    ensures f.Retryable? ==> s == f
    ensures f.Fatal? ==> s == f
    ensures IsException(f) && !f.Retryable? ==> s == NotRetryable(f)
  {
    if f.Retryable? || f.Fatal? then f else NotRetryable(f)
  }

  /** The failure the service threw, read back from the signal. */
  function Recover(s: Failure): Failure {
    if s.NotRetryable? then s.cause else s
  }

  /** No information is lost: the service's failure can be read back from the signal. */
  lemma SignalRecoverable(f: Failure)
    ensures Recover(Signal(f)) == f
  {
  }

  /** Different failures of the service give different signals. */
  lemma SignalInjective(f: Failure, g: Failure)
    requires Signal(f) == Signal(g)
    ensures f == g
  {
  }

  /**
   * listen: one call to the service with the key and payload received (the
   * partition is only logged); success is returned as success, every
   * exception is thrown as Retryable or NotRetryable, and an Error passes
   * through unchanged.
   */
  function Listen(partition: int, key: string, payload: OrderCreated, service: (string, OrderCreated) -> Outcome): (d: Delivery)
    ensures d.calls == [(key, payload)]
    ensures d.outcome.Pass? <==> service(key, payload).Pass?
    ensures d.outcome.Fail? && IsException(service(key, payload).error) ==>
      d.outcome.error.Retryable? || d.outcome.error.NotRetryable?
    ensures service(key, payload).Fail? && service(key, payload).error.Retryable? ==> d.outcome == service(key, payload)
    ensures service(key, payload).Fail? && service(key, payload).error.Fatal? ==> d.outcome == service(key, payload)
    ensures service(key, payload).Fail? && IsException(service(key, payload).error) && !service(key, payload).error.Retryable? ==>
      d.outcome == Fail(NotRetryable(service(key, payload).error))
  {
    var outcome := service(key, payload);
    Delivery([(key, payload)], if outcome.Pass? then Pass else Fail(Signal(outcome.error)))
  }

  /**
   * The two classifications chained: a failure of the stock check, handed on
   * unchanged by a service that calls it, is signalled by listen as Retryable
   * exactly when the transport threw a server error, an I/O error or a
   * Retryable failure; an Error the transport threw comes through unchanged;
   * anything else (a non-200 status, a 4xx client error, any other exception)
   * is signalled NotRetryable with the client's failure as its cause.
   * DispatchService as written does not call the stock check; only the service
   * its unit tests expect would put a stock failure on this path.
   */
  lemma StockFailureSignal(reply: StockClient.Reply)
    requires StockClient.Classify(reply).Err?
    ensures Signal(StockClient.Classify(reply).error).Retryable? <==>
      reply.Threw? && (IsTransient(reply.error) || reply.error.Retryable?)
    ensures Signal(StockClient.Classify(reply).error).Fatal? <==> reply.Threw? && reply.error.Fatal?
    ensures !Signal(StockClient.Classify(reply).error).Retryable? && !Signal(StockClient.Classify(reply).error).Fatal? ==>
      Signal(StockClient.Classify(reply).error) == NotRetryable(StockClient.Classify(reply).error)
  {
  }
}

# Order dispatch stage: failure classification and event emission

This project is a Dafny model of the decision and emission logic of a Kafka order-dispatch service. It has three parts:

- **Stock client** (`StockClient`, `stock_client.dfy`). `checkAvailable(item)` makes one GET to `endpoint + "?item=" + item`.
  - A 200 reply gives its body.
  - Any other status raises a generic `java.lang.RuntimeException("error <status>")`. The catch clauses pass that on unchanged.
  - A server error (`HttpServerErrorException`) or an I/O error (`ResourceAccessException`) is wrapped in a `RetryableException`.
  - Any other exception is thrown again unchanged.

  The HTTP transport is a parameter `remote`: it maps the request URL to a reply or an exception. The result records the request sent as well as the outcome.
- **Dispatch service** (`Dispatch`, `dispatch_service.dfy`). `process(orderCreated)` does two things, in order:
  1. It builds `OrderDispached{orderId, processedById = APPLICATION_ID, notes = "Dispatch: " + item}` and sends it to `order.dispatched`.
  2. It builds `DispatchPreparing{orderId}` and sends it to `dispatch.tracking`.

  Each send waits for the broker's acknowledgement, so the first failure is thrown and ends the call. The model has two classes:
  - `Producer` keeps a `log` of the records the broker acknowledged. `Send` appends to it.
  - `DispatchService` holds the producer. Every instance stamps the module-level constant `APPLICATION_ID`, which is fixed but unknown, like Java's static `randomUUID()` value.

  The broker's answer to each send (`Pass` or `Fail(e)`) is an input.
- **Ingress handler** (`Handler`, `order_created_handler.dfy`). `listen(partition, key, payload)` calls the dispatch service once with the key and payload. It then maps the outcome:
  - Success is returned as success.
  - A `RetryableException` is thrown again as it is.
  - Any other exception is wrapped in a `NotRetryableException`.
  - An Error is caught by neither clause and leaves listen unchanged.

  The service is a parameter: a total function from key and payload to an outcome.

The exceptions are the constructors of `Failures.Failure`. `Retryable(cause)` and `NotRetryable(cause)` are the two wrapper exceptions, `RetryableException.java:10-12` and `NotRetryableException.java:9-11`. A thrown exception is the `Err`/`Fail` side of a `Result`/`Outcome` value.

The model follows DispatchService.java as written:
- takes only the OrderCreated argument;
- sends without a key;
- sends OrderDispached before DispatchPreparing;
- makes no stock check and sends no DispatchCompleted.

OrderCreatedHandler.java calls a two-argument `process(key, payload)` that DispatchService.java does not declare. For that reason the handler's service is a parameter and is not wired to `Dispatch.DispatchService.Process`.

Two more consequences of the code as written:
- Only status 200 succeeds (StockServiceClient.java:37). A 201 or a 204 reply raises the generic `error <status>` exception, as any other non-200 status does.
- A broker failure leaves `process` as whatever `send(...).get()` throws (DispatchService.java:35,43). It is the exception `send` throws, or an `ExecutionException` wrapping the producer's failure when the failure arrives later. That is never a `RetryableException`, so listen wraps it in NotRetryable.

A `java.lang.Error` is not an `Exception`, so no `catch (Exception e)` clause catches it. It leaves checkAvailable and listen unchanged. The model gives it its own case, `Fatal`.

## Model

| member | source | states |
|---|---|---|
| `StockClient.RequestUrl` | src/main/java/dev/lydtech/dispatch/client/StockServiceClient.java:33 | the URL is the endpoint, then `?item=`, then the item, each found at its own position |
| `StockClient.RequestUrlDeterminesItem` | src/main/java/dev/lydtech/dispatch/client/StockServiceClient.java:33 | with the same endpoint, different items are requested with different URLs |
| `StockClient.Decimal` | src/main/java/dev/lydtech/dispatch/client/StockServiceClient.java:38 | the `%s` rendering of the status code is a non-empty string of decimal digits with no leading zero |
| `StockClient.DecimalRoundTrip` | src/main/java/dev/lydtech/dispatch/client/StockServiceClient.java:38 | reading the rendered digits back gives the status code |
| `StockClient.StatusMessageNamesStatus` | src/main/java/dev/lydtech/dispatch/client/StockServiceClient.java:38 | the generic error's message is `error ` followed by exactly the digits of the status |
| `StockClient.StatusMessagesDistinct` | src/main/java/dev/lydtech/dispatch/client/StockServiceClient.java:38 | different non-200 statuses give different error messages |
| `StockClient.Catch` | src/main/java/dev/lydtech/dispatch/client/StockServiceClient.java:41-46 | a server error or I/O error is thrown as Retryable wrapping it as its cause; any other exception is thrown again unchanged, and an Error, caught by neither clause, leaves unchanged too |
| `StockClient.Classify` | src/main/java/dev/lydtech/dispatch/client/StockServiceClient.java:36-46 | status 200 gives the body unmodified; any other status gives the generic `error <status>` runtime exception, never wrapped; a server or I/O error gives Retryable(that exception); any other exception comes through unchanged |
| `StockClient.ClassifyOkIff` | src/main/java/dev/lydtech/dispatch/client/StockServiceClient.java:36-40 | the check succeeds exactly when the reply has status 200 |
| `StockClient.ClassifyRetryableIff` | src/main/java/dev/lydtech/dispatch/client/StockServiceClient.java:37-45 | the result is Retryable exactly when the transport threw a server error, an I/O error or a Retryable failure; a reply, whatever its status, never is |
| `StockClient.CheckAvailable` | src/main/java/dev/lydtech/dispatch/client/StockServiceClient.java:31-47 | exactly one request is made, to `RequestUrl(endpoint, item)` (no retry inside the client), and the result is the classification of its answer |
| `Handler.Signal` | src/main/java/dev/lydtech/dispatch/handler/OrderCreatedHandler.java:35-41 | a Retryable failure is thrown again as the very same value; any other exception becomes NotRetryable with it as cause, so every caught exception is signalled as one of the two; an Error is caught by neither clause and leaves unchanged |
| `Handler.SignalRecoverable` | src/main/java/dev/lydtech/dispatch/handler/OrderCreatedHandler.java:38-41 | the service's original failure can be read back from the signal, so wrapping loses nothing |
| `Handler.SignalInjective` | src/main/java/dev/lydtech/dispatch/handler/OrderCreatedHandler.java:35-41 | different service failures give different signals |
| `Handler.Listen` | src/main/java/dev/lydtech/dispatch/handler/OrderCreatedHandler.java:28-42 | the service is called exactly once, with the key and payload received, even when it fails; listen succeeds exactly when the service does; every exception it throws is Retryable (the service's own, unchanged) or NotRetryable (wrapping the service's failure); an Error thrown by the service passes through unchanged |
| `Handler.StockFailureSignal` | src/main/java/dev/lydtech/dispatch/handler/OrderCreatedHandler.java:33-41 | chains the two classifications: a stock-check failure handed on unchanged is signalled Retryable exactly when the transport threw a server error, an I/O error or a Retryable failure; an Error the transport threw comes through unchanged; a non-200 status or any other exception is signalled NotRetryable with the client's failure as cause. DispatchService.java as written never calls checkAvailable; only the service DispatchServiceTest.java expects would take this path |
| `Dispatch.DispatchedEvent` | src/main/java/dev/lydtech/dispatch/service/DispatchService.java:29-33 | the OrderDispached event has the order's id, `processedById` equal to the application id, and notes made of `Dispatch: ` followed by exactly the item |
| `Dispatch.PreparingEvent` | src/main/java/dev/lydtech/dispatch/service/DispatchService.java:39-41 | the DispatchPreparing event has the order's id |
| `Dispatch.ProcessSuccess` | src/main/java/dev/lydtech/dispatch/service/DispatchService.java:28-44 | process succeeds exactly when both sends are acknowledged; then exactly two records are added, the OrderDispached on `order.dispatched` and then the DispatchPreparing on `dispatch.tracking` |
| `Dispatch.ProcessFailFast` | src/main/java/dev/lydtech/dispatch/service/DispatchService.java:35 | when the first send fails, that failure is thrown, nothing is added, and whatever the broker would answer to the second send changes nothing |
| `Dispatch.ProcessNoRollback` | src/main/java/dev/lydtech/dispatch/service/DispatchService.java:35-43 | when only the second send fails, its failure is thrown and the OrderDispached record stays in the log |
| `Dispatch.EmittedWellFormed` | src/main/java/dev/lydtech/dispatch/service/DispatchService.java:28-44 | one call adds at most two records, all for its own order, each on the topic of its event kind, and the OrderDispached carries the application id |
| `Dispatch.RunAllWellFormed` | src/main/java/dev/lydtech/dispatch/service/DispatchService.java:24 | over any run of process calls, whatever the broker answers, only the two topics are written and every OrderDispached carries the same application id |
| `Dispatch.Producer.Send` | src/main/java/dev/lydtech/dispatch/service/DispatchService.java:35 | a send returns the broker's answer and appends the record to the log exactly when the broker acknowledged it |
| `Dispatch.DispatchService.constructor` | src/main/java/dev/lydtech/dispatch/service/DispatchService.java:17-26 | the service holds only the given producer; the id it stamps is the one module-level `APPLICATION_ID`, the same for every instance and every call |
| `Dispatch.DispatchService.Process` | src/main/java/dev/lydtech/dispatch/service/DispatchService.java:28-44 | the log grows by exactly `Emitted(order, APPLICATION_ID, ...)`, the records of the two sends in order up to the first failure; the outcome is the first failure, or success; a well-formed log stays well formed |

## Left out

- Kafka listener and container configuration, consumer groups and offset commits are left out: they are messaging infrastructure. The `partition` argument of listen is only logged, and the model ignores it.
- The RestTemplate transport is left out. It maps statuses to exceptions itself, for example a 4xx to `HttpClientErrorException`. The model takes that mapping as given: `remote` may answer with any reply or any exception. A client error is an `Other` exception, which the catch clauses pass on unchanged.
- The retry and back-off scheduler and dead-letter routing (`order.created.DLT`) are left out. They live in configuration that is not part of this model. The model stops at the Retryable or NotRetryable signal.
- Exception messages built from `cause.toString()`, and all logging, are left out. A wrapper exception keeps its cause as a value.
- The message-only constructors of RetryableException and NotRetryableException are left out. The core never calls them. Listen can still receive a RetryableException built from a message only (OrderCreatedHandlerTest.java:59), which `Failure` cannot represent. Nothing is lost by this: `Handler.Signal` passes every Retryable through unchanged, whatever it holds.
- `randomUUID()` is left out. `Dispatch.APPLICATION_ID` is a constant whose value is fixed but unspecified. It is shared by every service instance and every call, as Java's static field is.
- A null `item` is left out: items are strings. In Java a null item gives the notes `Dispatch: null` (DispatchService.java:32) and a URL ending in `?item=null` (StockServiceClient.java:33).
- Null bodies are left out. In Java `getBody()` may return null; here the body is always a string.
- Status codes are `nat`. Java's `HttpStatusCode` only holds three-digit codes.
- `Dispatch.Producer.Send` treats a send whose acknowledgement failed as not persisted. A real broker may have stored the record anyway.
- The keyed sends, the stock check inside the service and the DispatchCompleted event are left out. They belong to the variant DispatchServiceTest.java expects (DispatchServiceTest.java:36,44-58). DispatchService.java as written has none of them.
- Per-key ordering across concurrent consumers is left out, because it is concurrency.

/** The event payloads the dispatch stage consumes and produces. */
module Messages {

  /** A java.util.UUID: its two 64-bit halves. */
  datatype Uuid = Uuid(mostSigBits: bv64, leastSigBits: bv64)

  /** The inbound event on `order.created`. */
  datatype OrderCreated = OrderCreated(orderId: Uuid, item: string)

  /** The outbound events (the class name OrderDispached is spelled as in the source). */
  datatype Event =
    | OrderDispached(orderId: Uuid, processedById: Uuid, notes: string)
    | DispatchPreparing(orderId: Uuid)
}

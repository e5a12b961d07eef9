/**
 * The dispatch service: for one OrderCreated it sends an OrderDispached event
 * to `order.dispatched` and then a DispatchPreparing event to
 * `dispatch.tracking`, waiting for the broker to acknowledge each send and
 * stopping at the first failure.
 *
 * The broker's answer to a send is an input (`ack`): `Pass` when it
 * acknowledges the record, `Fail(e)` when the send or the wait for it throws
 * `e`. The producer's log holds the records the broker acknowledged, in order.
 */
module Dispatch {
  import opened Failures
  import opened Messages

  const ORDER_DISPATCHED_TOPIC: string := "order.dispatched"
  const DISPATCH_TRACKING_TOPIC: string := "dispatch.tracking"

  /**
   * The id of this process, stamped on every OrderDispached: one value for the
   * whole run, shared by every service instance. Java draws it from
   * randomUUID() when the class is loaded; here it is fixed but unknown.
   */
  const APPLICATION_ID: Uuid

  /** The prefix of the notes of an OrderDispached event. */
  const NOTES_PREFIX: string := "Dispatch: "

  /** One record on a topic. */
  datatype Record = Record(topic: string, event: Event)

  /** The broker's answers to the two sends of one process call. */
  datatype Attempt = Attempt(order: OrderCreated, firstAck: Outcome, secondAck: Outcome)

  /** The OrderDispached event for an order: same order id, this process's id, the item in the notes. */
  function DispatchedEvent(order: OrderCreated, applicationId: Uuid): (e: Event)
    ensures e.OrderDispached?
    ensures e.orderId == order.orderId
    ensures e.processedById == applicationId
    ensures |e.notes| == |NOTES_PREFIX| + |order.item|
    ensures e.notes[..|NOTES_PREFIX|] == NOTES_PREFIX
    ensures e.notes[|NOTES_PREFIX|..] == order.item
  {
    OrderDispached(order.orderId, applicationId, NOTES_PREFIX + order.item)
  }

  /** The DispatchPreparing event for an order: same order id. */
  function PreparingEvent(order: OrderCreated): (e: Event)
    ensures e.DispatchPreparing?
    ensures e.orderId == order.orderId
  {
    DispatchPreparing(order.orderId)
  }

  /** What one send appends to the log: the record if the broker acknowledged it, nothing otherwise. */
  function Acknowledged(r: Record, ack: Outcome): seq<Record> {
    if ack.Pass? then [r] else []
  }

  /** The records one process call adds to the log, given the broker's answers to its two sends. */
  function Emitted(order: OrderCreated, applicationId: Uuid, firstAck: Outcome, secondAck: Outcome): seq<Record> {
    var first := Acknowledged(Record(ORDER_DISPATCHED_TOPIC, DispatchedEvent(order, applicationId)), firstAck);
    if firstAck.Fail? then first
    else first + Acknowledged(Record(DISPATCH_TRACKING_TOPIC, PreparingEvent(order)), secondAck)
  }

  /** What one process call returns or throws, given the broker's answers. */
  function ProcessResult(firstAck: Outcome, secondAck: Outcome): Outcome {
    if firstAck.Fail? then firstAck else secondAck
  }

  /** A record is on the topic of its event kind. */
  predicate Routed(r: Record) {
    || (r.topic == ORDER_DISPATCHED_TOPIC && r.event.OrderDispached?)
    || (r.topic == DISPATCH_TRACKING_TOPIC && r.event.DispatchPreparing?)
  }

  /** Every record is on one of the two topics, on the right one, and every OrderDispached names this process. */
  predicate WellFormedLog(log: seq<Record>, applicationId: Uuid) {
    forall i :: 0 <= i < |log| ==>
      Routed(log[i]) && (log[i].event.OrderDispached? ==> log[i].event.processedById == applicationId)
  }

  /** On success exactly two records are added: the OrderDispached, then the DispatchPreparing. */
  lemma ProcessSuccess(order: OrderCreated, applicationId: Uuid, firstAck: Outcome, secondAck: Outcome)
    ensures ProcessResult(firstAck, secondAck).Pass? <==> firstAck.Pass? && secondAck.Pass?
    ensures ProcessResult(firstAck, secondAck).Pass? ==>
      Emitted(order, applicationId, firstAck, secondAck) ==
        [ Record(ORDER_DISPATCHED_TOPIC, OrderDispached(order.orderId, applicationId, NOTES_PREFIX + order.item)),
          Record(DISPATCH_TRACKING_TOPIC, DispatchPreparing(order.orderId)) ]
  {
  }

  /**
   * Fail-fast: when the first send fails, its failure is thrown, nothing is
   * added, and the broker's answer for the second send plays no part (the
   * second send is never made).
   */
  lemma ProcessFailFast(order: OrderCreated, applicationId: Uuid, firstAck: Outcome, secondAck: Outcome, otherAck: Outcome)
    requires firstAck.Fail?
    ensures ProcessResult(firstAck, secondAck) == firstAck
    ensures Emitted(order, applicationId, firstAck, secondAck) == []
    ensures Emitted(order, applicationId, firstAck, otherAck) == Emitted(order, applicationId, firstAck, secondAck)
    ensures ProcessResult(firstAck, otherAck) == ProcessResult(firstAck, secondAck)
  {
  }

  /** No rollback: when only the second send fails, the OrderDispached record stays and the failure is thrown. */
  lemma ProcessNoRollback(order: OrderCreated, applicationId: Uuid, firstAck: Outcome, secondAck: Outcome)
    requires firstAck.Pass? && secondAck.Fail?
    ensures ProcessResult(firstAck, secondAck) == secondAck
    ensures Emitted(order, applicationId, firstAck, secondAck) ==
      [Record(ORDER_DISPATCHED_TOPIC, DispatchedEvent(order, applicationId))]
  {
  }

  /** One call adds at most two records, all for its order, and only well-routed ones stamped with this process's id. */
  lemma EmittedWellFormed(order: OrderCreated, applicationId: Uuid, firstAck: Outcome, secondAck: Outcome)
    ensures |Emitted(order, applicationId, firstAck, secondAck)| <= 2
    ensures WellFormedLog(Emitted(order, applicationId, firstAck, secondAck), applicationId)
    ensures forall r :: r in Emitted(order, applicationId, firstAck, secondAck) ==> r.event.orderId == order.orderId
  {
  }

  lemma WellFormedConcat(a: seq<Record>, b: seq<Record>, applicationId: Uuid)
    requires WellFormedLog(a, applicationId) && WellFormedLog(b, applicationId)
    ensures WellFormedLog(a + b, applicationId)
  {
    forall i | 0 <= i < |a + b|
      ensures Routed((a + b)[i])
      ensures (a + b)[i].event.OrderDispached? ==> (a + b)[i].event.processedById == applicationId
    {
      if i < |a| { assert (a + b)[i] == a[i]; } else { assert (a + b)[i] == b[i - |a|]; }
    }
  }

  /** The records a run of process calls adds to the log, one attempt after the other. */
  function RunAll(applicationId: Uuid, attempts: seq<Attempt>): seq<Record>
    decreases |attempts|
  {
    if attempts == [] then []
    else
      var last := attempts[|attempts| - 1];
      RunAll(applicationId, attempts[..|attempts| - 1]) + Emitted(last.order, applicationId, last.firstAck, last.secondAck)
  }

  /**
   * Over any number of process calls, whatever the broker answers, the log
   * holds only well-routed records and every OrderDispached carries the same
   * application id.
   */
  lemma {:induction false} RunAllWellFormed(applicationId: Uuid, attempts: seq<Attempt>)
    ensures WellFormedLog(RunAll(applicationId, attempts), applicationId)
    decreases |attempts|
  {
    if attempts != [] {
      var init, last := attempts[..|attempts| - 1], attempts[|attempts| - 1];
      RunAllWellFormed(applicationId, init);
      EmittedWellFormed(last.order, applicationId, last.firstAck, last.secondAck);
      WellFormedConcat(RunAll(applicationId, init), Emitted(last.order, applicationId, last.firstAck, last.secondAck), applicationId);
    }
  }

  /** The Kafka producer: an append-only log of the records the broker acknowledged. */
  class Producer {
    var log: seq<Record>

    constructor ()
      ensures log == []
    {
      log := [];
    }

    /** Send a record and wait for the broker's answer `ack`, which is returned. */
    method Send(topic: string, event: Event, ack: Outcome) returns (r: Outcome)
      modifies this
      ensures r == ack
      ensures log == old(log) + Acknowledged(Record(topic, event), ack)
    {
      r := ack;
      if ack.Pass? {
        log := log + [Record(topic, event)];
      }
    }
  }

  /** The dispatch service: the producer it sends with; every instance stamps APPLICATION_ID. */
  class DispatchService {
    const producer: Producer

    constructor (producer: Producer)
      ensures this.producer == producer
    {
      this.producer := producer;
    }

    /** Process one OrderCreated: the two sends in order, stopping at the first failure. */
    method Process(order: OrderCreated, firstAck: Outcome, secondAck: Outcome) returns (r: Outcome)
      modifies producer
      ensures r == ProcessResult(firstAck, secondAck)
      ensures producer.log == old(producer.log) + Emitted(order, APPLICATION_ID, firstAck, secondAck)
      ensures WellFormedLog(old(producer.log), APPLICATION_ID) ==> WellFormedLog(producer.log, APPLICATION_ID)
    {
      var orderDispached := DispatchedEvent(order, APPLICATION_ID);
      r := producer.Send(ORDER_DISPATCHED_TOPIC, orderDispached, firstAck);
      if r.Pass? {
        var dispatchPreparing := PreparingEvent(order);
        r := producer.Send(DISPATCH_TRACKING_TOPIC, dispatchPreparing, secondAck);
      }
      EmittedWellFormed(order, APPLICATION_ID, firstAck, secondAck);
      if WellFormedLog(old(producer.log), APPLICATION_ID) {
        WellFormedConcat(old(producer.log), Emitted(order, APPLICATION_ID, firstAck, secondAck), APPLICATION_ID);
      }
    }
  }
}

/** The pulsar client library, seen from the job runtime: every call it makes on a
    client, consumer or producer is appended to one event log, and what the broker
    answers is read from oracle functions indexed by the position of the call in that
    log. */
module Pulsar {
  import opened Wrappers
  import opened Values

  /** An opaque client, consumer or producer object of the library. */
  type Handle = nat

  datatype ConsumerType = Exclusive | Shared | Failover | KeyShared

  /** `Pulsar::ProducerConfiguration` as the runtime fills it. */
  datatype ProducerOptions = ProducerOptions(sendTimeoutMillis: int, producerName: string)

  /** The options hash of `producer.send`. */
  datatype SendOptions = NoOptions | DeliverAfter(millis: nat)

  datatype Request =
    | Connect(url: string)
    | Subscribe(client: Handle, topics: seq<string>, subscription: string, consumerType: ConsumerType)
    | CreateProducer(client: Handle, topic: Option<string>, options: ProducerOptions)
    | Receive(consumer: Handle, timeoutMillis: nat)
    | BatchReceive(consumer: Handle)
    | Acknowledge(consumer: Handle, msg: Option<Message>)
    | NegativeAcknowledge(consumer: Handle, msg: Option<Message>)
    | Send(producer: Handle, body: string, sendOptions: SendOptions)
    | CloseConsumer(consumer: Handle)
    | CloseProducer(producer: Handle)
    | CloseClient(client: Handle)

  /** The calls that settle or publish a message, as opposed to opening and closing
      resources. */
  predicate IsDeliveryEvent(q: Request) {
    q.Acknowledge? || q.NegativeAcknowledge? || q.Send?
  }

  /** The delivery events of a log, in order. */
  function Delivered(log: seq<Request>): (r: seq<Request>)
    ensures |r| <= |log|
  {
    if |log| == 0 then []
    else (if IsDeliveryEvent(log[0]) then [log[0]] else []) + Delivered(log[1..])
  }

  lemma {:induction false} DeliveredAppend(a: seq<Request>, b: seq<Request>)
    ensures Delivered(a + b) == Delivered(a) + Delivered(b)
  {
    if |a| > 0 {
      DeliveredAppend(a[1..], b);
      assert (a + b)[1..] == a[1..] + b;
    } else {
      assert a + b == b;
    }
  }

  /** A log made only of delivery events is its own delivery view. */
  lemma {:induction false} DeliveredAll(log: seq<Request>)
    requires forall i :: 0 <= i < |log| ==> IsDeliveryEvent(log[i])
    ensures Delivered(log) == log
  {
    if |log| > 0 {
      DeliveredAll(log[1..]);
    }
  }

  /** A log without delivery events delivers nothing. */
  lemma {:induction false} DeliveredNone(log: seq<Request>)
    requires forall i :: 0 <= i < |log| ==> !IsDeliveryEvent(log[i])
    ensures Delivered(log) == []
  {
    if |log| > 0 {
      DeliveredNone(log[1..]);
    }
  }

  /** Traffic that delivered nothing, followed by one delivery event, delivered exactly
      that event. */
  lemma DeliveredLast(log0: seq<Request>, mid: seq<Request>, log: seq<Request>)
    requires log0 <= mid && Delivered(mid[|log0|..]) == []
    requires |log| == |mid| + 1 && mid <= log && IsDeliveryEvent(log[|mid|])
    ensures log0 <= log && Delivered(log[|log0|..]) == [log[|log| - 1]]
  {
    assert log[|log0|..] == mid[|log0|..] + [log[|mid|]];
    DeliveredAppend(mid[|log0|..], [log[|mid|]]);
    assert Delivered([log[|mid|]]) == [log[|mid|]] + Delivered([]);
  }

  /** What the broker answers, by position of the call in the log. */
  datatype Oracle = Oracle(
    connect: nat -> Result<Handle, Error>,
    open: nat -> Result<Handle, Error>,
    receive: nat -> Result<Message, Error>,
    batch: nat -> Result<seq<Message>, Error>,
    send: nat -> Result<bool, Error>)

  class Broker {
    var log: seq<Request>
    const oracle: Oracle

    constructor (oracle: Oracle)
      ensures log == [] && this.oracle == oracle
    {
      log := [];
      this.oracle := oracle;
    }

    /** `Pulsar::Client.new(url, config)`. */
    method Connect(url: string) returns (r: Result<Handle, Error>)
      modifies this
      ensures log == old(log) + [Request.Connect(url)]
      ensures r == oracle.connect(|old(log)|)
    {
      r := oracle.connect(|log|);
      log := log + [Request.Connect(url)];
    }

    /** `client.subscribe(...)` or `client.create_producer(...)`. */
    method Open(q: Request) returns (r: Result<Handle, Error>)
      requires q.Subscribe? || q.CreateProducer?
      modifies this
      ensures log == old(log) + [q]
      ensures r == oracle.open(|old(log)|)
    {
      r := oracle.open(|log|);
      log := log + [q];
    }

    /** `consumer.receive(timeout)`. */
    method Receive(consumer: Handle, timeoutMillis: nat) returns (r: Result<Message, Error>)
      modifies this
      ensures log == old(log) + [Request.Receive(consumer, timeoutMillis)]
      ensures r == oracle.receive(|old(log)|)
    {
      r := oracle.receive(|log|);
      log := log + [Request.Receive(consumer, timeoutMillis)];
    }

    /** `consumer.batch_receive.to_a`. */
    method BatchReceive(consumer: Handle) returns (r: Result<seq<Message>, Error>)
      modifies this
      ensures log == old(log) + [Request.BatchReceive(consumer)]
      ensures r == oracle.batch(|old(log)|)
    {
      r := oracle.batch(|log|);
      log := log + [Request.BatchReceive(consumer)];
    }

    /** `producer.send(body, options)`; the answer says whether its return value is truthy. */
    method Send(producer: Handle, body: string, options: SendOptions) returns (r: Result<bool, Error>)
      modifies this
      ensures log == old(log) + [Request.Send(producer, body, options)]
      ensures r == oracle.send(|old(log)|)
    {
      r := oracle.send(|log|);
      log := log + [Request.Send(producer, body, options)];
    }

    /** A call that the model treats as never raising: acknowledge, negative_acknowledge
        and close. */
    method Tell(q: Request)
      requires q.Acknowledge? || q.NegativeAcknowledge? || q.CloseConsumer? || q.CloseProducer? || q.CloseClient?
      modifies this
      ensures log == old(log) + [q]
    {
      log := log + [q];
    }
  }
}

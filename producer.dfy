/** `PulsarJob::Producer`: the older publisher. Each object makes a new job of its class
    and opens its own producer on the job's topic through the shared client; every
    message is the `{job, method, args, sent_at}` envelope, delivered after five
    seconds. */
module LegacyProducer {
  import opened Wrappers
  import opened Values
  import opened Pulsar
  import opened Settings
  import opened Payloads
  import opened JobBase
  import opened JobContext
  import opened Producers
  import opened Settlement

  const SendTimeoutMillis: int := 3000
  const DeliverAfterMillis: nat := 5 * 1000

  /** `producer_options`: a fixed send timeout and the host's producer name. */
  function Options(hostId: string): (o: ProducerOptions)
    ensures o.sendTimeoutMillis == 3000
    ensures ProducerPrefix <= o.producerName && o.producerName[|ProducerPrefix|..] == hostId
  {
    ProducerOptions(SendTimeoutMillis, ProducerName(hostId))
  }

  /** `data || job.args || {}`. */
  function ArgsOf(data: Value, jobArgs: Value): (r: Value)
    ensures Truthy(data) ==> r == data
    ensures !Truthy(data) && Truthy(jobArgs) ==> r == jobArgs
    ensures !Truthy(data) && !Truthy(jobArgs) ==> r == Hash([])
  {
    if Truthy(data) then data else if Truthy(jobArgs) then jobArgs else Hash([])
  }

  /** The payload `publish!(data)` sends. */
  function Payload(jobName: string, m: Option<string>, data: Value, jobArgs: Value, sentAt: string): Value {
    Stamp(Envelope(jobName, m, ArgsOf(data, jobArgs)), sentAt)
  }

  /** The payload holds exactly the keys `job`, `method`, `args` and `sent_at`, in that
      order, with the job's class name, its method, the first truthy of `data`,
      `job.args` and `{}`, and the send time. */
  lemma PayloadFields(jobName: string, m: Option<string>, data: Value, jobArgs: Value, sentAt: string)
    ensures var p := Payload(jobName, m, data, jobArgs, sentAt);
            p.Hash? && Keys(p.entries) == [JobKey, MethodKey, ArgsKey, SentAtKey] &&
            Lookup(p.entries, JobKey) == Some(Str(jobName)) &&
            Lookup(p.entries, MethodKey) == Some(MethodValue(m)) &&
            Lookup(p.entries, ArgsKey) == Some(ArgsOf(data, jobArgs)) &&
            Lookup(p.entries, SentAtKey) == Some(Str(sentAt))
  {
    StampedEnvelopeKeys(jobName, m, ArgsOf(data, jobArgs), sentAt);
    StampedEnvelopeLookups(jobName, m, ArgsOf(data, jobArgs), sentAt);
  }

  /** `Producer.publish(job, *args)` reaches an args-mode consumer of the same job class:
      its handler is called with exactly `args`, in order. */
  lemma PublishedArgsReachPerform(codec: Codec, klass: JobClass, m: Option<string>, args: seq<Value>,
                                  jobArgs: Value, sentAt: string, id: nat, redeliveries: nat)
    requires RoundTrips(codec)
    requires PayloadAsArgsOf(klass.useRawPayload)
    ensures var body := codec.serialize(Payload(klass.name, m, List(args), jobArgs, sentAt));
            CallFor(codec, klass, Single(Some(Message(id, body, redeliveries)))) == Success(Positional(args))
  {
    assert ArgsOf(List(args), jobArgs) == List(args);
    PublishedCallReachesHandler(codec, klass, klass.name, m, args, sentAt, id, redeliveries);
  }

  class Producer {
    const job: Job
    const broker: Broker
    const producer: Handle

    constructor (job: Job, broker: Broker, producer: Handle)
      ensures this.job == job && this.broker == broker && this.producer == producer
    {
      this.job := job;
      this.broker := broker;
      this.producer := producer;
    }

    /** `publish!(data)`: one send of the JSON payload, delivered after five seconds. */
    method PublishBang(codec: Codec, data: Value, sentAt: string) returns (r: Result<bool, Error>)
      modifies broker
      ensures broker.log == old(broker.log) +
                [Send(producer, codec.serialize(Payload(job.klass.name, job.handlerMethod, data, job.args, sentAt)),
                      DeliverAfter(DeliverAfterMillis))]
      ensures r == broker.oracle.send(|old(broker.log)|)
    {
      var payload := Envelope(job.klass.name, job.handlerMethod, ArgsOf(data, job.args));
      payload := Stamp(payload, sentAt);
      r := broker.Send(producer, codec.serialize(payload), DeliverAfter(DeliverAfterMillis));
    }

    /** `shutdown`: close the producer. */
    method Shutdown()
      modifies broker
      ensures broker.log == old(broker.log) + [CloseProducer(producer)]
    {
      broker.Tell(CloseProducer(producer));
    }
  }

  /** `Producer.new(job_class)`: a new job of the class, and a producer created on the
      shared client (`client`, or the error its connection raised) for the job's topic. */
  method New(klass: JobClass, broker: Broker, cfg: Configuration, client: Result<Handle, Error>)
    returns (r: Result<Producer, Error>)
    modifies broker
    ensures client.Failure? ==> r == Failure(client.error) && broker.log == old(broker.log)
    ensures client.Success? ==>
              var ask := CreateProducer(client.value, JobTopic(klass, None, cfg), Options(cfg.hostId));
              var answer := broker.oracle.open(|old(broker.log)|);
              broker.log == old(broker.log) + [ask] &&
              (answer.Failure? ==> r == Failure(answer.error)) &&
              (answer.Success? ==> r.Success? && r.value.producer == answer.value)
    ensures r.Success? ==>
              fresh(r.value) && fresh(r.value.job) && r.value.broker == broker && r.value.job.klass == klass &&
              r.value.job.State() == JobState(Some(DefaultMethod), None, None, Nil, Nil, Nil, Nil, None, Nil, Nil, Nil)
  {
    var job := new Job(klass);
    if client.Failure? {
      return Failure(client.error);
    }
    var p := broker.Open(CreateProducer(client.value, job.Topic(cfg), Options(cfg.hostId)));
    if p.Failure? {
      return Failure(p.error);
    }
    var producer := new Producer(job, broker, p.value);
    r := Success(producer);
  }

  /** `Producer.publish(job_class, *args)`: a new producer, then one send whose `args`
      are exactly the given arguments. */
  method Publish(klass: JobClass, broker: Broker, cfg: Configuration, client: Result<Handle, Error>,
                 codec: Codec, args: seq<Value>, sentAt: string)
    returns (r: Result<bool, Error>)
    modifies broker
    ensures client.Failure? ==> r == Failure(client.error) && broker.log == old(broker.log)
    ensures client.Success? ==>
              var ask := CreateProducer(client.value, JobTopic(klass, None, cfg), Options(cfg.hostId));
              var answer := broker.oracle.open(|old(broker.log)|);
              (answer.Failure? ==> r == Failure(answer.error) && broker.log == old(broker.log) + [ask]) &&
              (answer.Success? ==>
                 var body := codec.serialize(Payload(klass.name, Some(DefaultMethod), List(args), Nil, sentAt));
                 broker.log == old(broker.log) + [ask, Send(answer.value, body, DeliverAfter(DeliverAfterMillis))] &&
                 r == broker.oracle.send(|old(broker.log)| + 1))
  {
    var producer := New(klass, broker, cfg, client);
    if producer.Failure? {
      return Failure(producer.error);
    }
    r := producer.value.PublishBang(codec, List(args), sentAt);
  }
}

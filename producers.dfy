/** `PulsarJob::Pools::Producers` and `PulsarJob::Produce`: one producer per topic,
    created on first use through the client pool and shared by every `Produce` object
    publishing to that topic. The two live in one module because each refers to the
    other: the pool stores `Produce` objects and a `Produce` registers itself in the
    pool. */
module Producers {
  import opened Wrappers
  import opened Values
  import opened Pulsar
  import opened Settings
  import opened Payloads
  import opened JobBase
  import opened ClientPools

  const ProducerPrefix: string := "pulsar-job-producer-"
  const NotDefinedMessage: string := "Job class is not defined"

  /** `producer_name`: the prefix followed by the host identity. */
  function ProducerName(hostId: string): (s: string)
    ensures |s| == |ProducerPrefix| + |hostId|
    ensures s[..|ProducerPrefix|] == ProducerPrefix
    ensures s[|ProducerPrefix|..] == hostId
  {
    ProducerPrefix + hostId
  }

  /** `producer_options`: the configured send timeout and the producer name. */
  function PoolProducerOptions(cfg: Configuration): (o: ProducerOptions)
    ensures o.sendTimeoutMillis == cfg.producerSendTimeoutMillis
    ensures ProducerPrefix <= o.producerName
  {
    ProducerOptions(cfg.producerSendTimeoutMillis, ProducerName(cfg.hostId))
  }

  /** The payload `publish!` sends: the caller's payload, or when that is nil or false the
      default `{job, method, args: job.args || {}}`, with `sent_at` set. Setting a key
      on a string or a list raises `TypeError`; other values have no `[]=`. */
  function Outgoing(jobName: string, m: Option<string>, jobArgs: Value, payload: Value, sentAt: string)
    : (r: Result<Value, Error>)
    ensures Truthy(payload) && !payload.Hash? ==> r.Failure? && IsStandardError(r.error)
    ensures payload.Hash? ==> r == Success(Stamp(payload, sentAt))
    ensures !Truthy(payload) ==>
              r == Success(Stamp(Envelope(jobName, m, if Truthy(jobArgs) then jobArgs else Hash([])), sentAt))
  {
    var p := if Truthy(payload) then payload
             else Envelope(jobName, m, if Truthy(jobArgs) then jobArgs else Hash([]));
    if p.Hash? then Success(Stamp(p, sentAt))
    else if p.Str? || p.List? then Failure(OtherStandardError("TypeError"))
    else Failure(NoMethodError)
  }

  /** What `publish!` sends: a caller's hash keeps every key but `sent_at`; without a
      payload, the default envelope carries the class name, the method and `job.args`
      (an empty hash when those are nil or false); `sent_at` is always the send time. */
  lemma OutgoingFields(jobName: string, m: Option<string>, jobArgs: Value, payload: Value, sentAt: string)
    ensures var r := Outgoing(jobName, m, jobArgs, payload, sentAt);
            payload.Hash? ==>
              forall k :: k != SentAtKey ==> Lookup(r.value.entries, k) == Lookup(payload.entries, k)
    ensures var r := Outgoing(jobName, m, jobArgs, payload, sentAt);
            !Truthy(payload) ==>
              Lookup(r.value.entries, JobKey) == Some(Str(jobName)) &&
              Lookup(r.value.entries, MethodKey) == Some(MethodValue(m)) &&
              Lookup(r.value.entries, ArgsKey) == Some(if Truthy(jobArgs) then jobArgs else Hash([]))
    ensures var r := Outgoing(jobName, m, jobArgs, payload, sentAt);
            r.Success? ==> r.value.Hash? && Lookup(r.value.entries, SentAtKey) == Some(Str(sentAt))
  {
    if !Truthy(payload) {
      StampedEnvelopeLookups(jobName, m, if Truthy(jobArgs) then jobArgs else Hash([]), sentAt);
    }
  }

  /** A publisher bound to one job; `producer` is the raw producer of the job's topic. */
  class Produce {
    const job: Job
    const broker: Broker
    var producer: Option<Handle>

    constructor (job: Job, broker: Broker)
      ensures this.job == job && this.broker == broker && producer == None
    {
      this.job := job;
      this.broker := broker;
      producer := None;
    }

    /** `publish!(payload)`: exactly one send of the stamped payload as JSON, with empty
        options; nothing is sent when the payload cannot be stamped or there is no
        producer. */
    method PublishBang(codec: Codec, payload: Value, sentAt: string) returns (r: Result<bool, Error>)
      modifies broker
      ensures var b := Outgoing(job.klass.name, job.handlerMethod, job.args, payload, sentAt);
              if b.Failure? then r == Failure(b.error) && broker.log == old(broker.log)
              else if producer.None? then r == Failure(NoMethodError) && broker.log == old(broker.log)
              else broker.log == old(broker.log) + [Send(producer.value, codec.serialize(b.value), NoOptions)] &&
                   r == broker.oracle.send(|old(broker.log)|)
    {
      var b := Outgoing(job.klass.name, job.handlerMethod, job.args, payload, sentAt);
      if b.Failure? {
        return Failure(b.error);
      }
      if producer.None? {
        return Failure(NoMethodError);
      }
      r := broker.Send(producer.value, codec.serialize(b.value), NoOptions);
    }

    /** `publish_raw!(data)`: the bytes go out unchanged, with empty options. */
    method PublishRaw(data: string) returns (r: Result<bool, Error>)
      modifies broker
      ensures producer.None? ==> r == Failure(NoMethodError) && broker.log == old(broker.log)
      ensures producer.Some? ==> broker.log == old(broker.log) + [Send(producer.value, data, NoOptions)] &&
                                 r == broker.oracle.send(|old(broker.log)|)
    {
      if producer.None? {
        return Failure(NoMethodError);
      }
      r := broker.Send(producer.value, data, NoOptions);
    }

    /** `shutdown`: close the producer when there is one. */
    method Shutdown()
      modifies broker
      ensures broker.log == old(broker.log) + CloseOf(producer)
    {
      if producer.Some? {
        broker.Tell(CloseProducer(producer.value));
      }
    }
  }

  /** What `Produce#shutdown` sends for a producer field. */
  function CloseOf(p: Option<Handle>): (r: seq<Request>)
    ensures p.None? <==> r == []
    ensures p.Some? ==> r == [CloseProducer(p.value)]
  {
    if p.Some? then [CloseProducer(p.value)] else []
  }

  /** One pool entry: the `Produce` object registered for a topic. */
  datatype Slot = Slot(topic: Option<string>, owner: Produce)

  function FindOwner(es: seq<Slot>, topic: Option<string>): (r: Option<Produce>)
    ensures r.Some? ==> exists i :: 0 <= i < |es| && es[i] == Slot(topic, r.value)
    ensures r.None? ==> forall i :: 0 <= i < |es| ==> es[i].topic != topic
  {
    if |es| == 0 then None
    else if es[0].topic == topic then Some(es[0].owner)
    else
      var r := FindOwner(es[1..], topic);
      assert forall i :: 0 < i < |es| ==> es[i] == es[1..][i - 1];
      r
  }

  /** `hash[topic] = owner`: an existing entry is replaced in place, a new one appended. */
  function PutSlot(es: seq<Slot>, topic: Option<string>, owner: Produce): (r: seq<Slot>)
  {
    if |es| == 0 then [Slot(topic, owner)]
    else if es[0].topic == topic then [Slot(topic, owner)] + es[1..]
    else [es[0]] + PutSlot(es[1..], topic, owner)
  }

  lemma {:induction false} PutSlotFind(es: seq<Slot>, topic: Option<string>, owner: Produce, other: Option<string>)
    ensures FindOwner(PutSlot(es, topic, owner), topic) == Some(owner)
    ensures other != topic ==> FindOwner(PutSlot(es, topic, owner), other) == FindOwner(es, other)
  {
    if |es| > 0 && es[0].topic != topic {
      PutSlotFind(es[1..], topic, owner, other);
    }
  }

  /** Every registered `Produce` publishes through `broker`. */
  predicate AllThrough(es: seq<Slot>, broker: Broker) {
    forall i :: 0 <= i < |es| ==> es[i].owner.broker == broker
  }

  /** Registering an owner that publishes through `broker` keeps every owner doing so. */
  lemma {:induction false} PutSlotThrough(es: seq<Slot>, topic: Option<string>, owner: Produce, broker: Broker)
    requires AllThrough(es, broker) && owner.broker == broker
    ensures AllThrough(PutSlot(es, topic, owner), broker)
  {
    if |es| > 0 && es[0].topic != topic {
      PutSlotThrough(es[1..], topic, owner, broker);
    }
  }

  ghost function OwnersOf(es: seq<Slot>): set<Produce> {
    set s | s in es :: s.owner
  }

  /** The `producer` field of each registered object, in insertion order. */
  function ProducersOf(es: seq<Slot>): (r: seq<Option<Handle>>)
    reads OwnersOf(es)
    ensures |r| == |es|
    ensures forall i :: 0 <= i < |es| ==> r[i] == es[i].owner.producer
  {
    seq(|es|, i reads OwnersOf(es) requires 0 <= i < |es| => es[i].owner.producer)
  }

  /** The closes of `each { |_, p| p.shutdown }` over those fields, in order. */
  function Shutdowns(ps: seq<Option<Handle>>): (r: seq<Request>)
    ensures |r| <= |ps|
  {
    if |ps| == 0 then [] else Shutdowns(ps[..|ps| - 1]) + CloseOf(ps[|ps| - 1])
  }

  class ProducerPool {
    const clients: ClientPool
    /** `$pulsar_job_pool_producers`: nil until first used. */
    var slots: Option<seq<Slot>>

    constructor (clients: ClientPool)
      ensures this.clients == clients && slots == None
      ensures Valid()
    {
      this.clients := clients;
      slots := None;
    }

    function Entries(): seq<Slot>
      reads this
    {
      slots.GetOr([])
    }

    /** Every registered `Produce` publishes through the pool's own broker. */
    predicate Valid()
      reads this
    {
      AllThrough(Entries(), clients.broker)
    }

    ghost function Owners(): set<Produce>
      reads this
    {
      OwnersOf(Entries())
    }

    /** `$pulsar_job_pool_producers[topic].try(:producer)`. */
    function Stored(topic: Option<string>): (r: Option<Handle>)
      reads this, Owners()
      ensures var o := FindOwner(Entries(), topic); r == if o.None? then None else o.value.producer
    {
      var o := FindOwner(Entries(), topic);
      if o.None? then None else o.value.producer
    }

    /** `create(topic)`: one `instance_exec` that creates a producer for `topic` with
        the pool's options. */
    method Create(topic: Option<string>) returns (r: Result<Handle, Error>)
      modifies clients, clients.broker
      ensures clients.Executed(CreateProducerFor(topic, PoolProducerOptions(clients.cfg)), r)
    {
      r := clients.InstanceExec(CreateProducerFor(topic, PoolProducerOptions(clients.cfg)));
    }

    /** `get(topic) { owner }`: the stored entry's producer when it has one, without
        creating anything; otherwise one `create(topic)`, whose producer is returned
        while `owner` is stored under `topic`. Other topics' entries are untouched. */
    method Get(topic: Option<string>, owner: Produce) returns (r: Result<Handle, Error>)
      modifies this, clients, clients.broker
      ensures old(Stored(topic)).Some? ==>
                r == Success(old(Stored(topic)).value) && slots == old(slots) &&
                unchanged(clients, clients.broker)
      ensures old(Stored(topic)).None? ==>
                clients.Executed(CreateProducerFor(topic, PoolProducerOptions(clients.cfg)), r) &&
                slots == Some(if r.Success? then PutSlot(old(Entries()), topic, owner) else old(Entries()))
      ensures r.Success? && old(Stored(topic)).None? ==> FindOwner(Entries(), topic) == Some(owner)
      ensures forall t :: t != topic ==> FindOwner(Entries(), t) == FindOwner(old(Entries()), t)
      ensures old(Valid()) && owner.broker == clients.broker ==> Valid()
    {
      if slots.None? {
        slots := Some([]);
      }
      var es := slots.value;
      var o := FindOwner(es, topic);
      if o.Some? && o.value.producer.Some? {
        return Success(o.value.producer.value);
      }
      r := Create(topic);
      if r.Success? {
        slots := Some(PutSlot(es, topic, owner));
        PutSlotFind(es, topic, owner, topic);
        if AllThrough(es, clients.broker) && owner.broker == clients.broker {
          PutSlotThrough(es, topic, owner, clients.broker);
        }
        forall t | t != topic ensures FindOwner(Entries(), t) == FindOwner(es, t) {
          PutSlotFind(es, topic, owner, t);
        }
      }
    }

    /** `shutdown`: `shutdown` on every registered `Produce`, in insertion order. */
    method Shutdown()
      requires Valid()
      modifies clients.broker
      ensures clients.broker.log == old(clients.broker.log) + Shutdowns(ProducersOf(Entries()))
    {
      var es := Entries();
      ghost var ps := ProducersOf(es);
      var i := 0;
      while i < |es|
        invariant 0 <= i <= |es|
        invariant forall j :: 0 <= j < |es| ==> es[j].owner.producer == ps[j]
        invariant clients.broker.log == old(clients.broker.log) + Shutdowns(ps[..i])
      {
        assert ps[..i + 1][..i] == ps[..i];
        es[i].owner.Shutdown();
        i := i + 1;
      }
      assert ps[..i] == ps;
      assert ProducersOf(Entries()) == ps;
    }
  }

  /** The topic a `Produce` for `job` publishes to. */
  function TopicOf(job: Job, cfg: Configuration): Option<string>
    reads job
  {
    job.Topic(cfg)
  }

  /** `Produce.new(job:)` once the job is known, publishing to `topic`: the new object
      asks the pool for the topic's producer, registering itself if there is none. */
  method Open(pool: ProducerPool, job: Job, topic: Option<string>) returns (r: Result<Produce, Error>)
    modifies pool, pool.clients, pool.clients.broker
    ensures r.Success? ==> fresh(r.value) && r.value.job == job && r.value.broker == pool.clients.broker &&
                           r.value.producer.Some? && pool.Stored(topic) == r.value.producer
    ensures var opts := PoolProducerOptions(pool.clients.cfg);
            old(pool.Stored(topic)).Some? ==>
              r.Success? && r.value.producer == old(pool.Stored(topic)) &&
              pool.slots == old(pool.slots) && unchanged(pool.clients, pool.clients.broker)
    ensures var opts := PoolProducerOptions(pool.clients.cfg);
            old(pool.Stored(topic)).None? ==>
              pool.clients.Executed(CreateProducerFor(topic, opts),
                                    if r.Success? then Success(r.value.producer.value) else Failure(r.error))
    ensures old(pool.clients.broker.log) <= pool.clients.broker.log
    ensures Delivered(pool.clients.broker.log[|old(pool.clients.broker.log)|..]) == []
    ensures old(pool.Valid()) ==> pool.Valid()
  {
    ghost var was := pool.Stored(topic);
    ghost var c := pool.clients;
    ghost var log0 := c.broker.log;
    ghost var run := c.Planned(CreateProducerFor(topic, PoolProducerOptions(c.cfg)));
    ExecDeliversNothing(c.broker.oracle, c.cfg, c.shuffle, c.memo, c.shuffles, |c.broker.log|,
                        CreateProducerFor(topic, PoolProducerOptions(c.cfg)));
    var p := new Produce(job, pool.clients.broker);
    assert pool.Stored(topic) == was;
    var g := pool.Get(topic, p);
    assert c.broker.log[|log0|..] == if was.Some? then [] else run.events;
    if g.Failure? {
      return Failure(g.error);
    }
    p.producer := Some(g.value);
    r := Success(p);
  }

  /** The pool at work: a second `Produce.new` on the same topic, for any job, shares
      the producer the first one created and makes no call to the broker. `mid` is the
      broker log between the two calls. */
  method OpenTwice(pool: ProducerPool, firstJob: Job, secondJob: Job, topic: Option<string>)
    returns (first: Result<Produce, Error>, second: Result<Produce, Error>, ghost mid: seq<Request>)
    modifies pool, pool.clients, pool.clients.broker
    ensures first.Success? ==>
              second.Success? && second.value.producer == first.value.producer &&
              pool.clients.broker.log == mid
  {
    first := Open(pool, firstJob, topic);
    mid := pool.clients.broker.log;
    second := Open(pool, secondJob, topic);
  }

  /** `Produce.new(job_class:, job:)`: the given job, else a new one of the given class,
      else `JobClassNotDefinedError`; it publishes to the job's topic. */
  method New(pool: ProducerPool, jobClass: Option<JobClass>, job: Option<Job>) returns (r: Result<Produce, Error>)
    modifies pool, pool.clients, pool.clients.broker
    ensures jobClass.None? && job.None? ==>
              r == Failure(JobClassNotDefined(NotDefinedMessage)) && unchanged(pool, pool.clients, pool.clients.broker)
    ensures r.Success? ==> fresh(r.value) && r.value.producer.Some? && r.value.broker == pool.clients.broker &&
                           pool.Stored(TopicOf(r.value.job, pool.clients.cfg)) == r.value.producer
    ensures r.Success? && job.Some? ==> r.value.job == job.value
    ensures r.Success? && job.None? ==> fresh(r.value.job) && r.value.job.klass == jobClass.value &&
                                        r.value.job.handlerMethod == Some(DefaultMethod)
    ensures old(pool.clients.broker.log) <= pool.clients.broker.log
    ensures Delivered(pool.clients.broker.log[|old(pool.clients.broker.log)|..]) == []
    ensures old(pool.Valid()) ==> pool.Valid()
  {
    var j: Job;
    if job.Some? {
      j := job.value;
    } else if jobClass.Some? {
      j := new Job(jobClass.value);
    } else {
      return Failure(JobClassNotDefined(NotDefinedMessage));
    }
    r := Open(pool, j, TopicOf(j, pool.clients.cfg));
  }

  /** `Produce.new(job: job).publish!(payload)`: on success the call's one delivery is
      `payload` as `publish!` stamps it, sent with empty options by the producer the pool
      holds for the job's topic; what the pool set-up sent before it delivered nothing.
      On failure nothing is delivered, unless the send itself was made and answered
      with the error. */
  method PublishFor(pool: ProducerPool, codec: Codec, job: Job, payload: Value, sentAt: string)
    returns (r: Result<bool, Error>)
    modifies pool, pool.clients, pool.clients.broker
    ensures r.Success? ==>
              var log := pool.clients.broker.log;
              var b := Outgoing(job.klass.name, job.handlerMethod, job.args, payload, sentAt);
              b.Success? && |log| > 0 && log[|log| - 1].Send? && log[|log| - 1].sendOptions == NoOptions &&
              log[|log| - 1].body == codec.serialize(b.value) &&
              Some(log[|log| - 1].producer) == pool.Stored(TopicOf(job, pool.clients.cfg)) &&
              old(pool.clients.broker.log) <= log &&
              Delivered(log[|old(pool.clients.broker.log)|..]) == [log[|log| - 1]]
    ensures old(pool.clients.broker.log) <= pool.clients.broker.log
    ensures r.Failure? ==>
              var log := pool.clients.broker.log;
              var tail := log[|old(pool.clients.broker.log)|..];
              Delivered(tail) == [] ||
              (|log| > 0 && log[|log| - 1].Send? && Delivered(tail) == [log[|log| - 1]] &&
               r == pool.clients.broker.oracle.send(|log| - 1))
  {
    ghost var log0 := pool.clients.broker.log;
    var produce := New(pool, None, Some(job));
    if produce.Failure? {
      return Failure(produce.error);
    }
    var p := produce.value;
    assert p.job == job && p.producer.Some? && p.broker == pool.clients.broker;
    ghost var topic := TopicOf(job, pool.clients.cfg);
    ghost var held := pool.Stored(topic);
    assert held == p.producer;
    ghost var mid := pool.clients.broker.log;
    r := p.PublishBang(codec, payload, sentAt);
    assert pool.Stored(topic) == held;
    if |pool.clients.broker.log| == |mid| + 1 {
      DeliveredLast(log0, mid, pool.clients.broker.log);
    } else {
      assert pool.clients.broker.log[|log0|..] == mid[|log0|..];
    }
  }

  /** `Produce.publish(job, *args)`: the envelope `{job, method, args}` with `sent_at`,
      sent once on the job's topic. */
  method Publish(pool: ProducerPool, codec: Codec, job: Job, args: seq<Value>, sentAt: string)
    returns (r: Result<bool, Error>)
    modifies pool, pool.clients, pool.clients.broker
    ensures r.Success? ==>
              var log := pool.clients.broker.log;
              |log| > 0 && log[|log| - 1].Send? && log[|log| - 1].sendOptions == NoOptions &&
              log[|log| - 1].body == codec.serialize(Stamp(Envelope(job.klass.name, job.handlerMethod, List(args)), sentAt)) &&
              Some(log[|log| - 1].producer) == pool.Stored(TopicOf(job, pool.clients.cfg)) &&
              old(pool.clients.broker.log) <= log &&
              Delivered(log[|old(pool.clients.broker.log)|..]) == [log[|log| - 1]]
    ensures old(pool.clients.broker.log) <= pool.clients.broker.log
    ensures r.Failure? ==>
              var log := pool.clients.broker.log;
              var tail := log[|old(pool.clients.broker.log)|..];
              Delivered(tail) == [] ||
              (|log| > 0 && log[|log| - 1].Send? && Delivered(tail) == [log[|log| - 1]] &&
               r == pool.clients.broker.oracle.send(|log| - 1))
  {
    var payload := Envelope(job.klass.name, job.handlerMethod, List(args));
    assert Outgoing(job.klass.name, job.handlerMethod, job.args, payload, sentAt) == Success(Stamp(payload, sentAt));
    r := PublishFor(pool, codec, job, payload, sentAt);
  }
}

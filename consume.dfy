/** `PulsarJob::Consume`: the single-class listener that subscribes through the consumer
    pool, runs the job on every received message and acknowledges it, or negatively
    acknowledges it when the job failed with anything but an `ArgumentError`. */
module Consume {
  import opened Wrappers
  import opened Values
  import opened Pulsar
  import opened Settings
  import opened JobBase
  import opened JobContext
  import opened ClientPools
  import opened ConsumerPools
  import opened Settlement
  import opened Listening

  /** What `handle(msg)` does with each message: it runs the job through
      `handle_with_job_error_handler` and settles the message; it never raises. */
  function Handling(codec: Codec, klass: JobClass, handlerMethod: Option<string>, c: Option<Handle>): Message -> Handled {
    m => Handled(Settle(c, HandlerError(codec, klass, handlerMethod, Single(Some(m))), m), None)
  }

  /** With a consumer, `handle` settles every message exactly once. */
  lemma HandlingSettlesOnce(codec: Codec, klass: JobClass, handlerMethod: Option<string>, c: Handle)
    ensures SettlesOnce(Handling(codec, klass, handlerMethod, Some(c)), c)
  {
    var h := Handling(codec, klass, handlerMethod, Some(c));
    forall m ensures h(m).escaped.None? && |h(m).events| == 1 && Settles(h(m).events[0], c, m) {
    }
  }

  /** Over any number of rounds and any broker answers, `listen` acknowledges or
      negatively acknowledges each received message exactly once, in arrival order. */
  lemma ListenSettlesEachMessage(o: Oracle, c: Handle, pos: nat, rounds: nat, codec: Codec, klass: JobClass,
                                 handlerMethod: Option<string>)
    ensures var r := Rounds(o, Some(c), pos, rounds, Handling(codec, klass, handlerMethod, Some(c)));
            r.escaped.None? || !IsStandardError(r.escaped.value)
    ensures var r := Rounds(o, Some(c), pos, rounds, Handling(codec, klass, handlerMethod, Some(c)));
            SettledInOrder(Delivered(r.events), r.received, c)
  {
    HandlingSettlesOnce(codec, klass, handlerMethod, c);
    EachReceivedSettledOnce(o, c, pos, rounds, Handling(codec, klass, handlerMethod, Some(c)));
    OnlyFatalEscapes(o, Some(c), pos, rounds, Handling(codec, klass, handlerMethod, Some(c)));
  }

  /** Only a non-standard error from `receive` ends the listen of a `handle` that never
      raises. */
  lemma {:induction false} OnlyFatalEscapes(o: Oracle, c: Option<Handle>, pos: nat, rounds: nat, handle: Message -> Handled)
    requires forall m :: handle(m).escaped.None?
    ensures var r := Rounds(o, c, pos, rounds, handle);
            r.escaped.None? || !IsStandardError(r.escaped.value)
    decreases rounds
  {
    if rounds > 0 && c.Some? {
      match o.receive(pos)
      case Failure(e) =>
        if IsStandardError(e) {
          OnlyFatalEscapes(o, c, pos + 1, rounds - 1, handle);
        }
      case Success(m) =>
        OnlyFatalEscapes(o, c, pos + 1 + |handle(m).events|, rounds - 1, handle);
    }
  }

  /** A `TopicNotFound` raised inside `subscribe!` becomes `JobTopicNotFoundError`; every
      other error is raised again unchanged. */
  function SubscribeError(e: Error): (r: Error)
    ensures e == TopicNotFound ==> r == JobTopicNotFound
    ensures e != TopicNotFound ==> r == e
    ensures IsStandardError(r) == IsStandardError(e)
  {
    if e == TopicNotFound then JobTopicNotFound else e
  }

  class Consume {
    const job: Job
    const consumers: ConsumerPool
    const codec: Codec
    var consumer: Option<Handle>
    /** The listener token: nil before `listen`, then whether it is still active. */
    var listener: Option<bool>
    var isRunning: bool

    constructor (job: Job, consumers: ConsumerPool, codec: Codec)
      ensures this.job == job && this.consumers == consumers && this.codec == codec
      ensures consumer == None && listener == None && !isRunning
    {
      this.job := job;
      this.consumers := consumers;
      this.codec := codec;
      consumer := None;
      listener := None;
      isRunning := false;
    }

    function Broker(): Broker {
      consumers.clients.broker
    }

    function Cfg(): Configuration {
      consumers.clients.cfg
    }

    /** `handle(msg)`: the job's fields are reset whatever happened, and exactly one
        settlement of `msg` reaches the broker. */
    method Handle(m: Message)
      modifies job, Broker()
      ensures job.State() == Reset(old(job.State()))
      ensures Broker().log == old(Broker().log) + Handling(codec, job.klass, old(job.handlerMethod), consumer)(m).events
    {
      var e := HandleWithJobErrorHandler(job, codec, Single(Some(m)));
      if consumer.Some? {
        if e.None? || e == Some(ArgumentError) {
          Broker().Tell(Acknowledge(consumer.value, Some(m)));
        } else {
          Broker().Tell(NegativeAcknowledge(consumer.value, Some(m)));
        }
      }
    }

    /** One pass of `listen`'s loop with a consumer: receive with the fixed timeout, and
        hand a received message to `handle`. */
    method Pass(ghost h: Message -> Handled) returns (escaped: Option<Error>, ghost one: Listened)
      requires consumer.Some?
      requires h == Handling(codec, job.klass, job.handlerMethod, consumer)
      modifies job, Broker()
      ensures one == Round(Broker().oracle, consumer.value, |old(Broker().log)|, h)
      ensures escaped == one.escaped
      ensures Broker().log == old(Broker().log) + one.events
      ensures job.handlerMethod == old(job.handlerMethod)
      ensures job.State() == if one.received == [] then old(job.State()) else Reset(old(job.State()))
    {
      ghost var ask := [Request.Receive(consumer.value, ReceiveTimeoutMillis)];
      var r := Broker().Receive(consumer.value, ReceiveTimeoutMillis);
      if r.Failure? {
        escaped := if IsStandardError(r.error) then None else Some(r.error);
        one := Listened(ask, [], escaped);
      } else {
        Handle(r.value);
        escaped := None;
        one := Listened(ask + h(r.value).events, [r.value], None);
      }
    }

    /** Where `listen` on the consumer `c` stands between passes, having started with the job in state `st0`
        and the log `log0`, towards the listen `l`: it made the calls `done` and handled
        the messages `got`, and either `n` passes remain or the error `escaped` ended it. */
    ghost predicate Midway(c: Option<Handle>, st0: JobState, log0: seq<Request>, h: Message -> Handled, n: nat,
                           l: Listened, done: seq<Request>, got: seq<Message>, escaped: Option<Error>)
      reads job, Broker()
    {
      Broker().log == log0 + done &&
      job.State() == (if |got| == 0 then st0 else Reset(st0)) &&
      (escaped.None? ==> Resumes(Broker().oracle, c, |log0|, n, h, l, done, got)) &&
      (escaped.Some? ==> l == Listened(done, got, escaped))
    }

    /** `h` is the `handle` of this listener on the consumer `c`. */
    ghost predicate HandlesWith(c: Option<Handle>, h: Message -> Handled)
      reads job
    {
      h == Handling(codec, job.klass, job.handlerMethod, c)
    }

    /** One turn of `listen`'s loop: a pass when there is a consumer, nothing otherwise. */
    method Turn(ghost h: Message -> Handled, ghost st0: JobState, ghost log0: seq<Request>, ghost n: nat,
                ghost l: Listened, ghost done: seq<Request>, ghost got: seq<Message>)
      returns (escaped: Option<Error>, ghost done': seq<Request>, ghost got': seq<Message>)
      requires n > 0 && Midway(consumer, st0, log0, h, n, l, done, got, None)
      requires HandlesWith(consumer, h)
      modifies job, Broker()
      ensures HandlesWith(consumer, h)
      ensures Midway(consumer, st0, log0, h, n - 1, l, done', got', escaped)
    {
      if consumer.Some? {
        ghost var one;
        escaped, one := Pass(h);
        ResumesStep(Broker().oracle, consumer.value, |log0|, n, h, l, done, got, one);
        AppendAssoc(log0, done, one.events);
        if got != [] && one.received != [] {
          ResetIdempotent(st0);
        }
        done', got' := done + one.events, got + one.received;
      } else {
        ResumesIdle(Broker().oracle, |log0|, n, h, l, done, got);
        escaped, done', got' := None, done, got;
      }
    }

    /** `listen` for `rounds` passes of the loop: what reaches the broker and what
        escapes is `Rounds` with this listener's `handle`; the job is reset once any
        message was handled. */
    method Listen(rounds: nat) returns (escaped: Option<Error>, ghost l: Listened)
      modifies this, job, Broker()
      ensures l == Rounds(Broker().oracle, consumer, |old(Broker().log)|, rounds,
                          Handling(codec, job.klass, old(job.handlerMethod), consumer))
      ensures escaped == l.escaped
      ensures Broker().log == old(Broker().log) + l.events
      ensures consumer == old(consumer) && listener == Some(true)
      ensures isRunning == (if rounds == 0 then old(isRunning) else false)
      ensures job.State() == if |l.received| == 0 then old(job.State()) else Reset(old(job.State()))
    {
      listener := Some(true);
      ghost var h := Handling(codec, job.klass, job.handlerMethod, consumer);
      l := Rounds(Broker().oracle, consumer, |Broker().log|, rounds, h);
      ResumesStart(Broker().oracle, consumer, |Broker().log|, rounds, h);
      ghost var n, done, got;
      escaped, n, done, got := Loop(h, job.State(), Broker().log, rounds, l);
      if escaped.None? {
        ResumesEnd(Broker().oracle, consumer, |old(Broker().log)|, h, l, done, got);
      }
    }

    /** The loop of `listen`: turns until `rounds` passes are done or an error escapes. */
    method Loop(ghost h: Message -> Handled, ghost st0: JobState, ghost log0: seq<Request>, rounds: nat,
                ghost l: Listened)
      returns (escaped: Option<Error>, ghost n: nat, ghost done: seq<Request>, ghost got: seq<Message>)
      requires HandlesWith(consumer, h) && Midway(consumer, st0, log0, h, rounds, l, [], [], None)
      modifies this, job, Broker()
      ensures consumer == old(consumer) && listener == old(listener)
      ensures isRunning == (if rounds == 0 then old(isRunning) else false)
      ensures Midway(consumer, st0, log0, h, n, l, done, got, escaped)
      ensures escaped.None? ==> n == 0
    {
      escaped, done, got := None, [], [];
      var i := 0;
      while i < rounds && escaped.None?
        invariant 0 <= i <= rounds
        invariant consumer == old(consumer) && listener == old(listener)
        invariant isRunning == (if i == 0 then old(isRunning) else false)
        invariant HandlesWith(consumer, h)
        invariant Midway(consumer, st0, log0, h, rounds - i, l, done, got, escaped)
        invariant escaped.Some? ==> i > 0
      {
        isRunning := true;
        escaped, done, got := Turn(h, st0, log0, rounds - i, l, done, got);
        isRunning := false;
        i := i + 1;
      }
      n := rounds - i;
    }

    /** `subscribe!`: a job without a topic or a subscription is refused before the pool
        is asked; otherwise the pool's consumer for `[topic]` and the subscription is
        taken (the cached one, or one `instance_exec` on a miss) and the listener runs on
        it. `mid` is the broker log once the pool has answered. */
    method SubscribeBang(rounds: nat)
      returns (err: Option<Error>, ghost subscribed: Result<Handle, Error>, ghost mid: seq<Request>,
               ghost l: Listened)
      modifies this, job, consumers, consumers.clients, Broker()
      ensures old(job.Topic(Cfg())).None? || old(job.Subscription(Cfg())).None? ==>
                err == Some(InvalidJobConsumerOptions) && Broker().log == old(Broker().log) &&
                consumer == old(consumer) && consumers.Entries() == old(consumers.Entries())
      ensures old(job.Topic(Cfg())).Some? && old(job.Subscription(Cfg())).Some? ==>
                var topics := [old(job.Topic(Cfg())).value];
                var sub := old(job.Subscription(Cfg())).value;
                var key := Key(topics, sub);
                var cached := old(Find(consumers.Entries(), key));
                var run := old(consumers.clients.Planned(SubscribeTo(topics, sub, ConsumerTypeOf(job.klass, Cfg()))));
                (cached.Some? ==> subscribed == Success(cached.value) && mid == old(Broker().log)) &&
                (cached.None? ==> subscribed == run.r && mid == old(Broker().log) + run.events) &&
                (subscribed.Failure? ==>
                   err == Some(SubscribeError(subscribed.error)) && Broker().log == mid &&
                   consumer == old(consumer)) &&
                (subscribed.Success? ==>
                   consumer == Some(subscribed.value) &&
                   Find(consumers.Entries(), key) == Some(subscribed.value) &&
                   l == Rounds(Broker().oracle, consumer, |mid|, rounds,
                               Handling(codec, job.klass, old(job.handlerMethod), consumer)) &&
                   Broker().log == mid + l.events &&
                   err == (if l.escaped.Some? then Some(SubscribeError(l.escaped.value)) else None))
    {
      var topic := job.Topic(Cfg());
      var subscription := job.Subscription(Cfg());
      if topic.None? || subscription.None? {
        return Some(InvalidJobConsumerOptions), Failure(InvalidJobConsumerOptions), Broker().log,
               Listened([], [], None);
      }
      var sub := consumers.Subscribe([topic.value], subscription.value, ConsumerTypeOf(job.klass, Cfg()));
      subscribed := sub;
      mid := Broker().log;
      if sub.Failure? {
        return Some(SubscribeError(sub.error)), sub, mid, Listened([], [], None);
      }
      consumer := Some(sub.value);
      var escaped;
      escaped, l := Listen(rounds);
      err := if escaped.Some? then Some(SubscribeError(escaped.value)) else None;
    }

    /** `shutdown`: finish the listener, wait one second at a time while `@is_running`
        reads true (`running(i)` is the i-th reading) but no more than the configured
        number of times plus one, then close the consumer once. */
    method Shutdown(running: nat -> bool) returns (err: Option<Error>, slept: nat)
      modifies this, Broker()
      ensures consumer == old(consumer) && isRunning == old(isRunning)
      ensures old(listener).None? ==>
                err == Some(NoMethodError) && slept == 0 && listener == None &&
                Broker().log == old(Broker().log)
      ensures old(listener).Some? ==>
                listener == Some(false) && slept == Sleeps(running, Cfg().maxShutdownWaitSeconds, 0) &&
                (consumer.Some? ==> err.None? && Broker().log == old(Broker().log) + [CloseConsumer(consumer.value)]) &&
                (consumer.None? ==> err == Some(NoMethodError) && Broker().log == old(Broker().log))
    {
      if listener.None? {
        return Some(NoMethodError), 0;
      }
      listener := Some(false);
      var max := Cfg().maxShutdownWaitSeconds;
      var count := 0;
      while running(count)
        invariant Sleeps(running, max, 0) == count + Sleeps(running, max, count)
        decreases if count <= max then max - count + 1 else 0
      {
        if count > max {
          break;
        }
        count := count + 1;
      }
      slept := count;
      if consumer.None? {
        return Some(NoMethodError), slept;
      }
      Broker().Tell(CloseConsumer(consumer.value));
      err := None;
    }
  }

  /** `Consume.new(job_class:, job:)`: a given job is used as it is, else a new job of
      the given class; with neither, `JobClassNotConfiguredError`. */
  method New(jobClass: Option<JobClass>, job: Option<Job>, consumers: ConsumerPool, codec: Codec)
    returns (r: Result<Consume, Error>)
    ensures jobClass.None? && job.None? <==> r == Failure(JobClassNotConfigured)
    ensures r.Success? ==> fresh(r.value) && r.value.consumers == consumers && r.value.consumer.None? &&
                           r.value.listener.None?
    ensures job.Some? ==> r.Success? && r.value.job == job.value
    ensures job.None? && jobClass.Some? ==>
              r.Success? && fresh(r.value.job) && r.value.job.klass == jobClass.value &&
              r.value.job.State() == JobState(Some(DefaultMethod), None, None, Nil, Nil, Nil, Nil, None, Nil, Nil, Nil)
  {
    if jobClass.None? && job.None? {
      return Failure(JobClassNotConfigured);
    }
    var j: Job;
    if job.Some? {
      j := job.value;
    } else {
      j := new Job(jobClass.value);
    }
    var c := new Consume(j, consumers, codec);
    r := Success(c);
  }
}

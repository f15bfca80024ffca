/** `PulsarJob::Consumer`: the older single-class listener. It subscribes through the
    shared client, calls the job's `perform` on every received message without touching
    the job's fields, and acknowledges it on success or an `ArgumentError`, negatively
    acknowledges it on any other standard error; anything else escapes. */
module LegacyConsumer {
  import opened Wrappers
  import opened Values
  import opened Pulsar
  import opened Settings
  import opened Payloads
  import opened JobBase
  import opened JobContext
  import opened ClientPools
  import opened Settlement
  import opened Listening
  import Consume

  /** What `handle(msg)` does with each message: `perform` is called, with the message's
      arguments or with `{payload, message_id, raw}`, and the message is settled once,
      unless `perform` raised an error that no `rescue StandardError` catches. */
  function LegacyHandling(codec: Codec, klass: JobClass, c: Option<Handle>): Message -> Handled {
    m =>
      var e := ExecError(codec, klass, DefaultMethod, Single(Some(m)));
      if e.Some? && !IsStandardError(e.value) then Handled([], e)
      else Handled(Settle(c, e, m), None)
  }

  /** `perform` never raises anything but standard errors. */
  ghost predicate PerformsStandard(codec: Codec, klass: JobClass) {
    forall m: Message :: var e := ExecError(codec, klass, DefaultMethod, Single(Some(m)));
                         e.None? || IsStandardError(e.value)
  }

  /** A message is settled exactly once, by an acknowledgement exactly when `perform`
      returned or raised `ArgumentError`; a fatal error settles nothing and escapes. */
  lemma LegacyHandlingSettles(codec: Codec, klass: JobClass, c: Handle, m: Message)
    ensures var e := ExecError(codec, klass, DefaultMethod, Single(Some(m)));
            var h := LegacyHandling(codec, klass, Some(c))(m);
            if e.Some? && !IsStandardError(e.value) then h.events == [] && h.escaped == e
            else h.escaped.None? && |h.events| == 1 && Settles(h.events[0], c, m) &&
                 (h.events[0].Acknowledge? <==> e.None? || e == Some(ArgumentError))
  {
  }

  /** A job whose `perform` raises only standard errors settles every received message
      exactly once, in arrival order, and only a fatal receive error ends the listen. */
  lemma {:induction false} LegacyListenSettlesEachMessage(o: Oracle, c: Handle, pos: nat, rounds: nat,
                                                          codec: Codec, klass: JobClass)
    requires PerformsStandard(codec, klass)
    ensures var r := Rounds(o, Some(c), pos, rounds, LegacyHandling(codec, klass, Some(c)));
            SettledInOrder(Delivered(r.events), r.received, c) &&
            (r.escaped.None? || !IsStandardError(r.escaped.value))
  {
    var h := LegacyHandling(codec, klass, Some(c));
    forall m ensures h(m).escaped.None? && |h(m).events| == 1 && Settles(h(m).events[0], c, m) {
      LegacyHandlingSettles(codec, klass, c, m);
    }
    EachReceivedSettledOnce(o, c, pos, rounds, h);
    Consume.OnlyFatalEscapes(o, Some(c), pos, rounds, h);
  }

  /** With the inherited `perform`, which raises `NotImplementedError`, the first message
      received ends the listen unsettled. */
  lemma InheritedPerformEndsListen(o: Oracle, c: Handle, pos: nat, rounds: nat, codec: Codec, klass: JobClass, m: Message)
    requires rounds > 0 && o.receive(pos) == Success(m)
    requires forall call :: klass.handler(DefaultMethod, call) == Raised(NotImplementedError)
    requires PayloadAsArgsOf(klass.useRawPayload) ==> PositionalArgs(ProcessPayload(codec, m.data)).Success?
    ensures var r := Rounds(o, Some(c), pos, rounds, LegacyHandling(codec, klass, Some(c)));
            r == Listened([Request.Receive(c, ReceiveTimeoutMillis)], [m], Some(NotImplementedError))
  {
    var h := LegacyHandling(codec, klass, Some(c));
    assert ExecError(codec, klass, DefaultMethod, Single(Some(m))) == Some(NotImplementedError);
    assert h(m) == Handled([], Some(NotImplementedError));
    RoundsStep(o, c, pos, rounds, h, Round(o, c, pos, h));
  }

  class Consumer {
    const job: Job
    const broker: Broker
    const cfg: Configuration
    /** What `PulsarJob::Client.instance` gives: the shared client, or the error its
        connection raised. */
    const client: Result<Handle, Error>
    const codec: Codec
    var consumer: Option<Handle>
    /** The listener token: nil before `listen`, then whether it is still active. */
    var listener: Option<bool>
    var isRunning: bool

    constructor (job: Job, broker: Broker, cfg: Configuration, client: Result<Handle, Error>, codec: Codec)
      ensures this.job == job && this.broker == broker && this.cfg == cfg && this.client == client
      ensures this.codec == codec
      ensures consumer == None && listener == None && !isRunning
    {
      this.job := job;
      this.broker := broker;
      this.cfg := cfg;
      this.client := client;
      this.codec := codec;
      consumer := None;
      listener := None;
      isRunning := false;
    }

    /** `handle(msg)`: decode the payload, call `perform`, then settle the message; a
        settlement on a nil consumer raises and is logged; only a non-standard error of
        `perform` gets out. The job's fields are not touched. */
    method Handle(m: Message) returns (escaped: Option<Error>)
      modifies broker
      ensures var h := LegacyHandling(codec, job.klass, consumer)(m);
              broker.log == old(broker.log) + h.events && escaped == h.escaped
    {
      var payload := ProcessPayload(codec, m.data);
      var e: Option<Error> := None;
      var call: Call;
      if job.PayloadAsArgs() {
        var a := PositionalArgs(payload);
        if a.Failure? {
          e := Some(a.error);
        } else {
          call := Positional(Splat(a.value));
        }
      } else {
        call := Keywords(payload, m.id, m);
      }
      if e.None? {
        var outcome := job.klass.handler(DefaultMethod, call);
        e := if outcome.Raised? then Some(outcome.e) else None;
      }
      assert e == ExecError(codec, job.klass, DefaultMethod, Single(Some(m)));
      if e.Some? && !IsStandardError(e.value) {
        return e;
      }
      if consumer.Some? {
        if e.None? || e == Some(ArgumentError) {
          broker.Tell(Acknowledge(consumer.value, Some(m)));
        } else {
          broker.Tell(NegativeAcknowledge(consumer.value, Some(m)));
        }
      }
      escaped := None;
    }

    /** One pass of `listen`'s loop with a consumer: receive with the fixed timeout, and
        hand a received message to `handle`. */
    method Pass(ghost h: Message -> Handled) returns (escaped: Option<Error>, ghost one: Listened)
      requires consumer.Some? && h == LegacyHandling(codec, job.klass, consumer)
      modifies broker
      ensures one == Round(broker.oracle, consumer.value, |old(broker.log)|, h)
      ensures escaped == one.escaped && broker.log == old(broker.log) + one.events
    {
      ghost var ask := [Request.Receive(consumer.value, ReceiveTimeoutMillis)];
      var r := broker.Receive(consumer.value, ReceiveTimeoutMillis);
      if r.Failure? {
        escaped := if IsStandardError(r.error) then None else Some(r.error);
        one := Listened(ask, [], escaped);
      } else {
        escaped := Handle(r.value);
        one := Listened(ask + h(r.value).events, [r.value], escaped);
      }
    }

    /** `h` is the `handle` of this listener on the consumer `c`. */
    ghost predicate HandlesWith(c: Option<Handle>, h: Message -> Handled) {
      h == LegacyHandling(codec, job.klass, c)
    }

    /** Where `listen` on the consumer `c` stands between passes, having started with the
        log `log0`, towards the listen `l`: it made the calls `done` and handled the
        messages `got`, and either `n` passes remain or the error `escaped` ended it. */
    ghost predicate Midway(c: Option<Handle>, log0: seq<Request>, h: Message -> Handled, n: nat, l: Listened,
                           done: seq<Request>, got: seq<Message>, escaped: Option<Error>)
      reads broker
    {
      broker.log == log0 + done &&
      (escaped.None? ==> Resumes(broker.oracle, c, |log0|, n, h, l, done, got)) &&
      (escaped.Some? ==> l == Listened(done, got, escaped))
    }

    /** One turn of `listen`'s loop: a pass when there is a consumer, nothing otherwise. */
    method Turn(ghost h: Message -> Handled, ghost log0: seq<Request>, ghost n: nat, ghost l: Listened,
                ghost done: seq<Request>, ghost got: seq<Message>)
      returns (escaped: Option<Error>, ghost done': seq<Request>, ghost got': seq<Message>)
      requires n > 0 && HandlesWith(consumer, h) && Midway(consumer, log0, h, n, l, done, got, None)
      modifies broker
      ensures Midway(consumer, log0, h, n - 1, l, done', got', escaped)
    {
      if consumer.Some? {
        ghost var one;
        escaped, one := Pass(h);
        ResumesStep(broker.oracle, consumer.value, |log0|, n, h, l, done, got, one);
        AppendAssoc(log0, done, one.events);
        done', got' := done + one.events, got + one.received;
      } else {
        ResumesIdle(broker.oracle, |log0|, n, h, l, done, got);
        escaped, done', got' := None, done, got;
      }
    }

    /** `listen` for `rounds` passes of the loop: what reaches the broker and what
        escapes is `Rounds` with this listener's `handle`. */
    method Listen(rounds: nat) returns (escaped: Option<Error>, ghost l: Listened)
      modifies this, broker
      ensures l == Rounds(broker.oracle, consumer, |old(broker.log)|, rounds, LegacyHandling(codec, job.klass, consumer))
      ensures escaped == l.escaped
      ensures broker.log == old(broker.log) + l.events
      ensures consumer == old(consumer) && listener == Some(true)
      ensures isRunning == (if rounds == 0 then old(isRunning) else false)
    {
      listener := Some(true);
      ghost var h := LegacyHandling(codec, job.klass, consumer);
      l := Rounds(broker.oracle, consumer, |broker.log|, rounds, h);
      ResumesStart(broker.oracle, consumer, |broker.log|, rounds, h);
      assert broker.log == broker.log + [];
      ghost var n, done, got;
      escaped, n, done, got := Loop(h, broker.log, rounds, l);
      if escaped.None? {
        ResumesEnd(broker.oracle, consumer, |old(broker.log)|, h, l, done, got);
      }
    }

    /** The loop of `listen`: turns until `rounds` passes are done or an error escapes;
        `l` is the listen that starts at the log `log0`. */
    method Loop(ghost h: Message -> Handled, ghost log0: seq<Request>, rounds: nat, ghost l: Listened)
      returns (escaped: Option<Error>, ghost n: nat, ghost done: seq<Request>, ghost got: seq<Message>)
      requires HandlesWith(consumer, h) && Midway(consumer, log0, h, rounds, l, [], [], None)
      modifies this, broker
      ensures consumer == old(consumer) && listener == old(listener)
      ensures isRunning == (if rounds == 0 then old(isRunning) else false)
      ensures Midway(consumer, log0, h, n, l, done, got, escaped)
      ensures escaped.None? ==> n == 0
    {
      escaped, done, got := None, [], [];
      var i := 0;
      while i < rounds && escaped.None?
        invariant 0 <= i <= rounds
        invariant consumer == old(consumer) && listener == old(listener)
        invariant isRunning == (if i == 0 then old(isRunning) else false)
        invariant Midway(consumer, log0, h, rounds - i, l, done, got, escaped)
        invariant escaped.Some? ==> i > 0
      {
        isRunning := true;
        escaped, done, got := Turn(h, log0, rounds - i, l, done, got);
        isRunning := false;
        i := i + 1;
      }
      n := rounds - i;
    }

    /** `subscribe!`: a job without a topic or a subscription is refused before the
        client is asked; otherwise the shared client subscribes to `[topic]` and the
        listener runs on the new consumer. A `TopicNotFound` on the way becomes
        `JobTopicNotFoundError`. */
    method SubscribeBang(rounds: nat) returns (err: Option<Error>, ghost l: Listened)
      modifies this, broker
      ensures job.Topic(cfg).None? || job.Subscription(cfg).None? ==>
                err == Some(InvalidJobConsumerOptions) && broker.log == old(broker.log) && consumer == old(consumer)
      ensures job.Topic(cfg).Some? && job.Subscription(cfg).Some? && client.Failure? ==>
                err == Some(Consume.SubscribeError(client.error)) && broker.log == old(broker.log) &&
                consumer == old(consumer)
      ensures job.Topic(cfg).Some? && job.Subscription(cfg).Some? && client.Success? ==>
                var ask := Subscribe(client.value, [job.Topic(cfg).value], job.Subscription(cfg).value, ConsumerTypeOf(job.klass, cfg));
                var answer := broker.oracle.open(|old(broker.log)|);
                (answer.Failure? ==>
                   err == Some(Consume.SubscribeError(answer.error)) && broker.log == old(broker.log) + [ask] &&
                   consumer == old(consumer)) &&
                (answer.Success? ==>
                   consumer == Some(answer.value) &&
                   l == Rounds(broker.oracle, consumer, |old(broker.log)| + 1, rounds,
                               LegacyHandling(codec, job.klass, consumer)) &&
                   broker.log == old(broker.log) + [ask] + l.events &&
                   err == (if l.escaped.Some? then Some(Consume.SubscribeError(l.escaped.value)) else None))
    {
      var topic := job.Topic(cfg);
      var subscription := job.Subscription(cfg);
      if topic.None? || subscription.None? {
        return Some(InvalidJobConsumerOptions), Listened([], [], None);
      }
      if client.Failure? {
        return Some(Consume.SubscribeError(client.error)), Listened([], [], None);
      }
      var sub := broker.Open(Subscribe(client.value, [topic.value], subscription.value, ConsumerTypeOf(job.klass, cfg)));
      if sub.Failure? {
        return Some(Consume.SubscribeError(sub.error)), Listened([], [], None);
      }
      consumer := Some(sub.value);
      var escaped;
      escaped, l := Listen(rounds);
      err := if escaped.Some? then Some(Consume.SubscribeError(escaped.value)) else None;
    }

    /** `shutdown`: finish the listener, wait one second at a time while `@is_running`
        reads true (`running(i)` is the i-th reading) but no more than the configured
        number of times plus one, then close the consumer once. */
    method Shutdown(running: nat -> bool) returns (err: Option<Error>, slept: nat)
      modifies this, broker
      ensures consumer == old(consumer) && isRunning == old(isRunning)
      ensures old(listener).None? ==>
                err == Some(NoMethodError) && slept == 0 && listener == None && broker.log == old(broker.log)
      ensures old(listener).Some? ==>
                listener == Some(false) && slept == Sleeps(running, cfg.maxShutdownWaitSeconds, 0) &&
                (consumer.Some? ==> err.None? && broker.log == old(broker.log) + [CloseConsumer(consumer.value)]) &&
                (consumer.None? ==> err == Some(NoMethodError) && broker.log == old(broker.log))
    {
      if listener.None? {
        return Some(NoMethodError), 0;
      }
      listener := Some(false);
      var count := 0;
      while running(count)
        invariant Sleeps(running, cfg.maxShutdownWaitSeconds, 0) == count + Sleeps(running, cfg.maxShutdownWaitSeconds, count)
        decreases if count <= cfg.maxShutdownWaitSeconds then cfg.maxShutdownWaitSeconds - count + 1 else 0
      {
        if count > cfg.maxShutdownWaitSeconds {
          break;
        }
        count := count + 1;
      }
      slept := count;
      if consumer.None? {
        return Some(NoMethodError), slept;
      }
      broker.Tell(CloseConsumer(consumer.value));
      err := None;
    }
  }

  /** `Consumer.new(job_class:, job:)`: a given job is used as it is, else a new job of
      the given class; with neither, `JobClassNotConfiguredError`. */
  method New(jobClass: Option<JobClass>, job: Option<Job>, broker: Broker, cfg: Configuration,
             client: Result<Handle, Error>, codec: Codec)
    returns (r: Result<Consumer, Error>)
    ensures jobClass.None? && job.None? <==> r == Failure(JobClassNotConfigured)
    ensures r.Success? ==> fresh(r.value) && r.value.broker == broker && r.value.consumer.None? &&
                           r.value.listener.None?
    ensures job.Some? ==> r.Success? && r.value.job == job.value
    ensures job.None? && jobClass.Some? ==>
              r.Success? && fresh(r.value.job) && r.value.job.klass == jobClass.value &&
              r.value.job.State() == JobState(Some(DefaultMethod), None, None, Nil, Nil, Nil, Nil, None, Nil, Nil, Nil)
  {
    if jobClass.None? && job.None? {
      return Failure(JobClassNotConfigured);
    }
    var j: Job;
    if job.Some? {
      j := job.value;
    } else {
      j := new Job(jobClass.value);
    }
    var c := new Consumer(j, broker, cfg, client, codec);
    r := Success(c);
  }
}

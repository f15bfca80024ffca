/** `PulsarJob::Consumes::Base` with its adapters `One` and `Batched`: a delivery is
    handed to the job, then acknowledged, negatively acknowledged or republished to the
    dead-letter topic. One class plays both adapters; which one is the variant of the
    delivery it holds (`Single` for `One`, `Batch` for `Batched`). */
module Consumes {
  import opened Wrappers
  import opened Values
  import opened Pulsar
  import opened JobBase
  import opened ClientPools
  import opened Producers
  import opened Settlement
  import opened JobContext

  class Handler {
    const job: Job
    const producers: ProducerPool
    const codec: Codec
    const rule: DlqRule
    var consumer: Handle
    /** `@msg` of `One`, `@msgs` of `Batched`. */
    var delivery: Delivery

    /** `One.new(job)`: no message yet. */
    constructor One(job: Job, consumer: Handle, producers: ProducerPool, codec: Codec, rule: DlqRule)
      ensures this.job == job && this.consumer == consumer && this.producers == producers
      ensures this.codec == codec && this.rule == rule
      ensures delivery == Single(None)
    {
      this.job := job;
      this.consumer := consumer;
      this.producers := producers;
      this.codec := codec;
      this.rule := rule;
      delivery := Single(None);
    }

    /** `Batched.new(job)`: an empty batch. */
    constructor Batched(job: Job, consumer: Handle, producers: ProducerPool, codec: Codec, rule: DlqRule)
      ensures this.job == job && this.consumer == consumer && this.producers == producers
      ensures this.codec == codec && this.rule == rule
      ensures delivery == Batch([])
    {
      this.job := job;
      this.consumer := consumer;
      this.producers := producers;
      this.codec := codec;
      this.rule := rule;
      delivery := Batch([]);
    }

    /** The broker every call of this handler goes to. */
    function Broker(): Broker {
      producers.clients.broker
    }

    /** `receive`: `One` waits for one message with the configured timeout, `Batched`
        takes the next batch as a list; a raised error leaves the held delivery as it
        was. */
    method Receive() returns (err: Option<Error>)
      modifies this, Broker()
      ensures consumer == old(consumer) && delivery.Single? == old(delivery).Single?
      ensures old(delivery).Single? ==>
                var r := Broker().oracle.receive(|old(Broker().log)|);
                Broker().log == old(Broker().log) +
                                [Request.Receive(consumer, producers.clients.cfg.consumerReceiveTimeoutMillis)] &&
                (r.Success? ==> delivery == Single(Some(r.value)) && err.None?) &&
                (r.Failure? ==> delivery == old(delivery) && err == Some(r.error))
      ensures old(delivery).Batch? ==>
                var r := Broker().oracle.batch(|old(Broker().log)|);
                Broker().log == old(Broker().log) + [Request.BatchReceive(consumer)] &&
                (r.Success? ==> delivery == Batch(r.value) && err.None?) &&
                (r.Failure? ==> delivery == old(delivery) && err == Some(r.error))
    {
      if delivery.Single? {
        var r := Broker().Receive(consumer, producers.clients.cfg.consumerReceiveTimeoutMillis);
        if r.Failure? {
          return Some(r.error);
        }
        delivery := Single(Some(r.value));
      } else {
        var r := Broker().BatchReceive(consumer);
        if r.Failure? {
          return Some(r.error);
        }
        delivery := Batch(r.value);
      }
      err := None;
    }

    /** `acknowledge`: one call per message, in order; none for an empty batch. */
    method Acknowledge()
      modifies Broker()
      ensures Broker().log == old(Broker().log) + Acks(consumer, delivery)
    {
      var acks := Acks(consumer, delivery);
      var i := 0;
      while i < |acks|
        invariant 0 <= i <= |acks|
        invariant Broker().log == old(Broker().log) + acks[..i]
      {
        assert acks[..i + 1] == acks[..i] + [acks[i]];
        Broker().Tell(acks[i]);
        i := i + 1;
      }
      assert acks[..i] == acks;
    }

    /** `negative_acknowledge`: one call per message, in order. */
    method NegativeAcknowledge()
      modifies Broker()
      ensures Broker().log == old(Broker().log) + Nacks(consumer, delivery)
    {
      var nacks := Nacks(consumer, delivery);
      var i := 0;
      while i < |nacks|
        invariant 0 <= i <= |nacks|
        invariant Broker().log == old(Broker().log) + nacks[..i]
      {
        assert nacks[..i + 1] == nacks[..i] + [nacks[i]];
        Broker().Tell(nacks[i]);
        i := i + 1;
      }
      assert nacks[..i] == nacks;
    }

    /** The first half of `send_to_dlq`: `Produce.new(job:)` for `topic`, whose setup
        (connecting, creating the producer) republishes nothing. */
    method OpenDlq(topic: Option<string>) returns (r: Result<Produce, Error>, ghost setup: seq<Request>)
      modifies producers, producers.clients, Broker()
      ensures Broker().log == old(Broker().log) + setup
      ensures Delivered(setup) == []
      ensures r.Success? ==> fresh(r.value) && r.value.broker == Broker() && r.value.producer.Some? &&
                             producers.Stored(topic) == r.value.producer
    {
      var block := CreateProducerFor(topic, PoolProducerOptions(producers.clients.cfg));
      ghost var log0 := Broker().log;
      ghost var hit := producers.Stored(topic).Some?;
      ghost var plan := producers.clients.Planned(block);
      ExecDeliversNothing(Broker().oracle, producers.clients.cfg, producers.clients.shuffle,
                          producers.clients.memo, producers.clients.shuffles, |log0|, block);
      r := Open(producers, job, topic);
      setup := if hit then [] else plan.events;
    }

    /** The second half of `send_to_dlq`: `publish_raw!` of every body on `pr`, in order,
        stopping at the first error; a nil `msg` raises before anything is sent. */
    method Republish(pr: Produce, ghost p: Handle) returns (sent: Result<bool, Error>, ghost sends: seq<Request>)
      requires pr.broker == Broker() && pr.producer == Some(p)
      modifies Broker()
      ensures Broker().log == old(Broker().log) + sends
      ensures sends <= DlqSends(p, delivery)
      ensures sent.Success? ==> sends == DlqSends(p, delivery) && (delivery.Batch? ==> sent.value)
      ensures delivery == Single(None) ==> sent.Failure?
    {
      var all := DlqSends(p, delivery);
      match delivery {
        case Single(None) =>
          sent, sends := Failure(NoMethodError), [];
        case Single(Some(m)) =>
          sent := pr.PublishRaw(m.data);
          sends := all;
        case Batch(ms) =>
          var i := 0;
          while i < |ms|
            invariant 0 <= i <= |ms|
            invariant Broker().log == old(Broker().log) + all[..i]
          {
            assert all[..i + 1] == all[..i] + [all[i]];
            var s := pr.PublishRaw(ms[i].data);
            if s.Failure? {
              return s, all[..i + 1];
            }
            i := i + 1;
          }
          assert all[..i] == all;
          sent, sends := Success(true), all;
      }
    }

    /** `send_to_dlq`: `false` without a dead-letter topic; otherwise a `Produce` for the
        job is opened and every message's raw data is republished on it, unchanged and
        in order. The producer belongs to `DlqTarget(rule, ...)`: the job's own topic
        as written, the dead-letter topic under the intended rule. */
    method SendToDlq() returns (sent: Result<bool, Error>, ghost dlq: seq<Request>, ghost p: Handle)
      modifies producers, producers.clients, Broker()
      ensures Broker().log == old(Broker().log) + dlq
      ensures DlqOutcome(delivery, PresentOption(job.klass.dlqTopic), sent, dlq, p)
      ensures sent.Success? && PresentOption(job.klass.dlqTopic) ==>
                producers.Stored(DlqTarget(rule, job.Topic(producers.clients.cfg), job.klass.dlqTopic)) == Some(p)
    {
      if !PresentOption(job.klass.dlqTopic) {
        return Success(false), [], 0;
      }
      var topic := DlqTarget(rule, TopicOf(job, producers.clients.cfg), job.klass.dlqTopic);
      ghost var log0 := Broker().log;
      var produce, setup := OpenDlq(topic);
      if produce.Failure? {
        DlqAfterSetup(setup, [], Failure(produce.error), 0, delivery);
        return Failure(produce.error), setup, 0;
      }
      var pr := produce.value;
      p := pr.producer.value;
      ghost var sends;
      sent, sends := Republish(pr, p);
      dlq := setup + sends;
      DlqAfterSetup(setup, sends, sent, p, delivery);
      AppendAssoc(log0, setup, sends);
    }

    /** `on_error(ex)`: a routed error goes to `send_to_dlq` and, when that answers
        truthy, to `acknowledge`; everything else ends in `negative_acknowledge`. An
        error raised on the way is passed up. */
    method OnError(e: Error)
      returns (raised: Option<Error>, ghost ev: seq<Request>, sent: Result<bool, Error>,
               ghost dlq: seq<Request>, ghost p: Handle)
      modifies producers, producers.clients, Broker()
      ensures Broker().log == old(Broker().log) + ev
      ensures !RoutesToDlq(rule, e, RedeliveryCount(delivery), job.klass.maxRedeliveryCount) ==>
                ev == Nacks(consumer, delivery) && raised.None?
      ensures RoutesToDlq(rule, e, RedeliveryCount(delivery), job.klass.maxRedeliveryCount) ==>
                DlqOutcome(delivery, PresentOption(job.klass.dlqTopic), sent, dlq, p) &&
                ev == dlq + Verdict(sent, consumer, delivery) &&
                raised == (if sent.Failure? then Some(sent.error) else None)
      ensures RoutesToDlq(rule, e, RedeliveryCount(delivery), job.klass.maxRedeliveryCount) &&
              sent.Success? && PresentOption(job.klass.dlqTopic) ==>
                producers.Stored(DlqTarget(rule, job.Topic(producers.clients.cfg), job.klass.dlqTopic)) == Some(p)
    {
      if RoutesToDlq(rule, e, RedeliveryCount(delivery), job.klass.maxRedeliveryCount) {
        raised, ev, sent, dlq, p := Reroute();
      } else {
        NegativeAcknowledge();
        raised, ev, sent, dlq, p := None, Nacks(consumer, delivery), Success(false), [], 0;
      }
    }

    /** The routed branch of `on_error`: `send_to_dlq`, then `acknowledge` when it
        answered truthy and `negative_acknowledge` when it answered falsy; an error it
        raised is passed up with nothing settled. */
    method Reroute()
      returns (raised: Option<Error>, ghost ev: seq<Request>, sent: Result<bool, Error>,
               ghost dlq: seq<Request>, ghost p: Handle)
      modifies producers, producers.clients, Broker()
      ensures Broker().log == old(Broker().log) + ev
      ensures DlqOutcome(delivery, PresentOption(job.klass.dlqTopic), sent, dlq, p)
      ensures ev == dlq + Verdict(sent, consumer, delivery)
      ensures raised == (if sent.Failure? then Some(sent.error) else None)
      ensures sent.Success? && PresentOption(job.klass.dlqTopic) ==>
                producers.Stored(DlqTarget(rule, job.Topic(producers.clients.cfg), job.klass.dlqTopic)) == Some(p)
    {
      ghost var log0 := Broker().log;
      sent, dlq, p := SendToDlq();
      if sent.Failure? {
        return Some(sent.error), dlq, sent, dlq, p;
      }
      ghost var target := DlqTarget(rule, job.Topic(producers.clients.cfg), job.klass.dlqTopic);
      ghost var stored := producers.Stored(target);
      ev := dlq + Verdict(sent, consumer, delivery);
      AppendAssoc(log0, dlq, Verdict(sent, consumer, delivery));
      SettleAfterDlq(sent);
      assert job.Topic(producers.clients.cfg) == old(job.Topic(producers.clients.cfg));
      assert producers.Stored(target) == stored;
      raised := None;
    }

    /** After `send_to_dlq` answered `sent`: `acknowledge` when it is truthy,
        `negative_acknowledge` otherwise. */
    method SettleAfterDlq(sent: Result<bool, Error>)
      requires sent.Success?
      modifies Broker()
      ensures Broker().log == old(Broker().log) + Verdict(sent, consumer, delivery)
    {
      if sent.value {
        Acknowledge();
      } else {
        NegativeAcknowledge();
      }
    }

    /** `handle`: store the delivery as `job.raw`, run the job, then acknowledge; an
        error from the job other than `SystemExit` goes to `on_error` (`SystemExit` is
        re-raised); of the errors raised while settling, standard ones are logged and
        the rest escape. */
    method Handle()
      returns (escaped: Option<Error>, ghost ev: seq<Request>, sent: Result<bool, Error>,
               ghost dlq: seq<Request>, ghost p: Handle)
      modifies job, producers, producers.clients, Broker()
      ensures job.State() == Reset(old(job.State()).(raw := Some(delivery)))
      ensures Broker().log == old(Broker().log) + ev
      ensures var e := HandlerError(codec, job.klass, old(job.handlerMethod), delivery);
              e.None? ==> ev == Acks(consumer, delivery) && escaped.None?
      ensures var e := HandlerError(codec, job.klass, old(job.handlerMethod), delivery);
              e == Some(SystemExit) ==> ev == [] && escaped == e
      ensures var e := HandlerError(codec, job.klass, old(job.handlerMethod), delivery);
              e.Some? && e != Some(SystemExit) &&
              !RoutesToDlq(rule, e.value, RedeliveryCount(delivery), job.klass.maxRedeliveryCount) ==>
                ev == Nacks(consumer, delivery) && escaped.None?
      ensures var e := HandlerError(codec, job.klass, old(job.handlerMethod), delivery);
              e.Some? && e != Some(SystemExit) &&
              RoutesToDlq(rule, e.value, RedeliveryCount(delivery), job.klass.maxRedeliveryCount) ==>
                DlqOutcome(delivery, PresentOption(job.klass.dlqTopic), sent, dlq, p) &&
                ev == dlq + Verdict(sent, consumer, delivery) &&
                escaped == Escapes(if sent.Failure? then Some(sent.error) else None)
    {
      job.raw := Some(delivery);
      sent, dlq, p := Success(false), [], 0;
      var e := HandleWithJobErrorHandler(job, codec, delivery);
      if e.None? {
        Acknowledge();
        return None, Acks(consumer, delivery), sent, dlq, p;
      }
      if e == Some(SystemExit) {
        return e, [], sent, dlq, p;
      }
      var raised;
      raised, ev, sent, dlq, p := OnError(e.value);
      escaped := Escapes(raised);
    }
  }
}

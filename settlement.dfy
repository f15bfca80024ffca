/** The decision rules shared by the delivery handlers (`Consumes::Base` with its
    adapters `One` and `Batched`, and the older `Consume` and `Consumer` listeners): how
    a delivery becomes one call of the job's handler method, which error is left once
    the job's own rescue has run, and which acknowledgements and dead-letter sends
    follow. */
module Settlement {
  import opened Wrappers
  import opened Values
  import opened Pulsar
  import opened Payloads
  import opened JobBase
  import opened JobContext

  /** Which dead-letter behaviour a handler follows: the code as written, or the rule
      its comments and names describe (see the README's findings). */
  datatype DlqRule = AsWritten | Intended

  /** The message slots a delivery settles, in order: the single (possibly nil) `msg`
      of `One`, or every message of a `Batched` batch. */
  function Items(d: Delivery): (r: seq<Option<Message>>)
    ensures d.Single? ==> r == [d.msg]
    ensures d.Batch? ==> |r| == |d.msgs| && forall i :: 0 <= i < |d.msgs| ==> r[i] == Some(d.msgs[i])
  {
    match d
    case Single(m) => [m]
    case Batch(ms) => seq(|ms|, i requires 0 <= i < |ms| => Some(ms[i]))
  }

  /** `acknowledge`: one call per message slot, in order. */
  function Acks(c: Handle, d: Delivery): (r: seq<Request>)
    ensures |r| == |Items(d)|
    ensures forall i :: 0 <= i < |r| ==> r[i] == Acknowledge(c, Items(d)[i])
  {
    var items := Items(d);
    seq(|items|, i requires 0 <= i < |items| => Acknowledge(c, items[i]))
  }

  /** `negative_acknowledge`: one call per message slot, in order. */
  function Nacks(c: Handle, d: Delivery): (r: seq<Request>)
    ensures |r| == |Items(d)|
    ensures forall i :: 0 <= i < |r| ==> r[i] == NegativeAcknowledge(c, Items(d)[i])
  {
    var items := Items(d);
    seq(|items|, i requires 0 <= i < |items| => NegativeAcknowledge(c, items[i]))
  }

  /** The bodies `send_to_dlq` republishes: the raw data of each message, unchanged. A
      nil `msg` has none (reading its data raises). */
  function Bodies(d: Delivery): (r: seq<string>)
    ensures d.Single? ==> r == if d.msg.Some? then [d.msg.value.data] else []
    ensures d.Batch? ==> |r| == |d.msgs| && forall i :: 0 <= i < |d.msgs| ==> r[i] == d.msgs[i].data
  {
    match d
    case Single(m) => if m.Some? then [m.value.data] else []
    case Batch(ms) => seq(|ms|, i requires 0 <= i < |ms| => ms[i].data)
  }

  /** `publish_raw!` of every body on the dead-letter producer `p`, with empty options. */
  function DlqSends(p: Handle, d: Delivery): (r: seq<Request>)
    ensures |r| == |Bodies(d)|
    ensures forall i :: 0 <= i < |r| ==> r[i] == Send(p, Bodies(d)[i], NoOptions)
  {
    var bodies := Bodies(d);
    seq(|bodies|, i requires 0 <= i < |bodies| => Send(p, bodies[i], NoOptions))
  }

  /** Acknowledgements, negative acknowledgements and dead-letter sends are all seen by
      the broker, one per message, in delivery order. */
  lemma SettlementsDelivered(c: Handle, p: Handle, d: Delivery)
    ensures Delivered(Acks(c, d)) == Acks(c, d)
    ensures Delivered(Nacks(c, d)) == Nacks(c, d)
    ensures Delivered(DlqSends(p, d)) == DlqSends(p, d)
  {
    DeliveredAll(Acks(c, d));
    DeliveredAll(Nacks(c, d));
    DeliveredAll(DlqSends(p, d));
  }

  /** Whatever prefix of the dead-letter sends went out, the broker saw all of it. */
  lemma DlqPrefixDelivered(sends: seq<Request>, p: Handle, d: Delivery)
    requires sends <= DlqSends(p, d)
    ensures Delivered(sends) == sends
  {
    DeliveredAll(sends);
  }

  /** A dead-letter send followed by the acknowledgement: the broker sees every message
      republished, in order, before any is acknowledged. */
  lemma DlqThenAck(dlq: seq<Request>, p: Handle, c: Handle, d: Delivery)
    requires Delivered(dlq) == DlqSends(p, d)
    ensures Delivered(dlq + Acks(c, d)) == DlqSends(p, d) + Acks(c, d)
  {
    DeliveredAppend(dlq, Acks(c, d));
    SettlementsDelivered(c, p, d);
  }

  /** `msgs.map(&:redelivery_count).max || 0`. */
  function MaxCount(ms: seq<Message>): (n: nat)
    ensures forall i :: 0 <= i < |ms| ==> ms[i].redeliveryCount <= n
    ensures |ms| == 0 ==> n == 0
    ensures |ms| > 0 ==> exists i :: 0 <= i < |ms| && n == ms[i].redeliveryCount
  {
    if |ms| == 0 then 0
    else
      var rest := MaxCount(ms[1..]);
      assert forall i :: 1 <= i < |ms| ==> ms[i] == ms[1..][i - 1];
      if ms[0].redeliveryCount >= rest then ms[0].redeliveryCount else rest
  }

  /** `redelivery_count`: `msg&.redelivery_count || 0` for `One`, the batch maximum for
      `Batched`. */
  function RedeliveryCount(d: Delivery): nat {
    match d
    case Single(m) => if m.Some? then m.value.redeliveryCount else 0
    case Batch(ms) => MaxCount(ms)
  }

  /** The condition of `on_error`. As written, `ex.is_a? ArgumentError || count >= max`
      is `ex.is_a?(ArgumentError || ...)`, so only the error class decides; the intended
      rule also routes a message whose redeliveries reached the maximum. */
  predicate RoutesToDlq(rule: DlqRule, e: Error, count: nat, max: int) {
    match rule
    case AsWritten => e.ArgumentError?
    case Intended => e.ArgumentError? || count >= max
  }

  /** With the code as written, the redelivery count never changes the routing. */
  lemma AsWrittenIgnoresRedeliveries(e: Error, c1: nat, m1: int, c2: nat, m2: int)
    ensures RoutesToDlq(AsWritten, e, c1, m1) == RoutesToDlq(AsWritten, e, c2, m2)
  {
  }

  /** A handler error that is not an `ArgumentError`, on a message already redelivered
      as often as allowed, is negatively acknowledged again as written and dead-lettered
      under the intended rule. */
  lemma ExhaustedMessageNotRouted()
    ensures !RoutesToDlq(AsWritten, OtherStandardError("RuntimeError"), 3, 3)
    ensures RoutesToDlq(Intended, OtherStandardError("RuntimeError"), 3, 3)
  {
  }

  /** The topic whose producer republishes a dead letter: as written, `Produce.new(job:)`
      publishes to the job's own topic; the intended target is `dlq_topic`. */
  function DlqTarget(rule: DlqRule, jobTopic: Option<string>, dlqTopic: Option<string>): Option<string> {
    match rule
    case AsWritten => jobTopic
    case Intended => dlqTopic
  }

  /** As written, a job on "orders" with dead-letter topic "orders-dlq" republishes its
      failed messages to "orders". */
  lemma AsWrittenRepublishesToJobTopic()
    ensures DlqTarget(AsWritten, Some("orders"), Some("orders-dlq")) == Some("orders")
    ensures DlqTarget(AsWritten, Some("orders"), Some("orders-dlq")) != Some("orders-dlq")
  {
  }

  /** `msgs.to_a.map { |m| process_payload(m) }`. */
  function ProcessAll(codec: Codec, ms: seq<Message>): (r: seq<Value>)
    ensures |r| == |ms|
    ensures forall i :: 0 <= i < |ms| ==> r[i] == ProcessPayload(codec, ms[i].data)
  {
    seq(|ms|, i requires 0 <= i < |ms| => ProcessPayload(codec, ms[i].data))
  }

  /** The handler call `execute` makes, or the error it raises first: a nil `msg` has
      no data; in args mode the payload's `args` are flattened and splatted; in raw mode
      the handler gets `{payload, message_id, raw}`; a batch passes the list of
      processed payloads. */
  function CallFor(codec: Codec, klass: JobClass, d: Delivery): Result<Call, Error> {
    match d
    case Single(None) => Failure(NoMethodError)
    case Single(Some(m)) =>
      var payload := ProcessPayload(codec, m.data);
      if PayloadAsArgsOf(klass.useRawPayload) then
        match PositionalArgs(payload)
        case Success(a) => Success(Positional(Splat(a)))
        case Failure(e) => Failure(e)
      else Success(Keywords(payload, m.id, m))
    case Batch(ms) => Success(Payloads(ProcessAll(codec, ms)))
  }

  /** In args mode, a map of arguments reaches the handler as its values, in order. */
  lemma HashArgsBecomeValues(codec: Codec, klass: JobClass, m: Message, es: seq<Pair>)
    requires PayloadAsArgsOf(klass.useRawPayload)
    requires ProcessPayload(codec, m.data).Hash?
    requires Lookup(ProcessPayload(codec, m.data).entries, ArgsKey) == Some(Hash(es))
    ensures CallFor(codec, klass, Single(Some(m))) == Success(Positional(HashValues(es)))
  {
  }

  /** In raw mode the handler gets exactly the payload, the message id and the message. */
  lemma RawModeCall(codec: Codec, klass: JobClass, m: Message)
    requires !PayloadAsArgsOf(klass.useRawPayload)
    ensures CallFor(codec, klass, Single(Some(m))) == Success(Keywords(ProcessPayload(codec, m.data), m.id, m))
  {
  }

  /** A batch reaches the handler as one list, element i being message i's payload. */
  lemma BatchCall(codec: Codec, klass: JobClass, ms: seq<Message>)
    ensures var c := CallFor(codec, klass, Batch(ms));
            c.Success? && c.value.Payloads? && |c.value.items| == |ms| &&
            forall i :: 0 <= i < |ms| ==> c.value.items[i] == ProcessPayload(codec, ms[i].data)
  {
  }

  /** End to end: a message published by `Produce.publish(job, *args)` reaches the
      handler of an args-mode job with exactly `args`, in order. */
  lemma PublishedCallReachesHandler(codec: Codec, klass: JobClass, jobName: string, m: Option<string>,
                                    args: seq<Value>, sentAt: string, id: nat, redeliveries: nat)
    requires RoundTrips(codec)
    requires PayloadAsArgsOf(klass.useRawPayload)
    ensures var body := codec.serialize(Stamp(Envelope(jobName, m, List(args)), sentAt));
            CallFor(codec, klass, Single(Some(Message(id, body, redeliveries)))) == Success(Positional(args))
  {
    PublishedArgsReachHandler(codec, jobName, m, args, sentAt);
  }

  /** The error `execute(handler)` raises, if any. */
  function ExecError(codec: Codec, klass: JobClass, name: string, d: Delivery): Option<Error> {
    match CallFor(codec, klass, d)
    case Failure(e) => Some(e)
    case Success(call) =>
      match klass.handler(name, call)
      case Returned(_) => None
      case Raised(e) => Some(e)
  }

  /** `rescue StandardError => ex; job.rescue_with_handler(ex)`: a standard error goes
      to the job's handler, anything else passes through untouched. */
  function Rescued(rescue: Error -> Option<Error>, e: Option<Error>): Option<Error> {
    if e.Some? && IsStandardError(e.value) then rescue(e.value) else e
  }

  /** What escapes `handle_with_job_error_handler`: a nil handler method fails on
      `to_sym`, otherwise the error of `execute`, both after the job's rescue. */
  function HandlerError(codec: Codec, klass: JobClass, m: Option<string>, d: Delivery): Option<Error> {
    Rescued(klass.rescue, if m.None? then Some(NoMethodError) else ExecError(codec, klass, m.value, d))
  }

  /** `job.payload` after `execute`: set for a present single message. */
  function PayloadAfter(codec: Codec, d: Delivery, old_payload: Value): Value {
    if d.Single? && d.msg.Some? then ProcessPayload(codec, d.msg.value.data) else old_payload
  }

  /** `job.args` after `execute`: set in args mode once the `args` field was read. */
  function ArgsAfter(codec: Codec, klass: JobClass, d: Delivery, old_args: Value): Value {
    if d.Single? && d.msg.Some? && PayloadAsArgsOf(klass.useRawPayload) then
      match PositionalArgs(ProcessPayload(codec, d.msg.value.data))
      case Success(a) => a
      case Failure(_) => old_args
    else old_args
  }

  /** `job.result` after `execute`: the handler's return value when it returned. */
  function ResultAfter(codec: Codec, klass: JobClass, name: string, d: Delivery, old_result: Value): Value {
    match CallFor(codec, klass, d)
    case Failure(_) => old_result
    case Success(call) =>
      match klass.handler(name, call)
      case Returned(v) => v
      case Raised(_) => old_result
  }

  /** `execute(handler)`: record the payload and the args, call the handler once and
      keep its result. */
  method Execute(job: Job, codec: Codec, name: string, d: Delivery) returns (err: Option<Error>)
    modifies job
    ensures err == ExecError(codec, job.klass, name, d)
    ensures job.payload == PayloadAfter(codec, d, old(job.payload))
    ensures job.args == ArgsAfter(codec, job.klass, d, old(job.args))
    ensures job.result == ResultAfter(codec, job.klass, name, d, old(job.result))
    ensures job.State().(payload := old(job.payload), args := old(job.args), result := old(job.result)) == old(job.State())
  {
    var call: Call;
    match d {
      case Single(None) =>
        return Some(NoMethodError);
      case Single(Some(m)) =>
        var payload := ProcessPayload(codec, m.data);
        job.payload := payload;
        if job.PayloadAsArgs() {
          var a := PositionalArgs(payload);
          if a.Failure? {
            return Some(a.error);
          }
          job.args := a.value;
          call := Positional(Splat(a.value));
        } else {
          call := Keywords(payload, m.id, m);
        }
      case Batch(ms) =>
        call := Payloads(ProcessAll(codec, ms));
    }
    var outcome := job.klass.handler(name, call);
    if outcome.Raised? {
      return Some(outcome.e);
    }
    job.result := outcome.v;
    err := None;
  }

  /** `handle_with_job_error_handler`: run the handler method, hand a standard error to
      the job's rescue, and always reset the job's per-message fields. */
  method HandleWithJobErrorHandler(job: Job, codec: Codec, d: Delivery) returns (err: Option<Error>)
    modifies job
    ensures err == HandlerError(codec, job.klass, old(job.handlerMethod), d)
    ensures job.State() == Reset(old(job.State()))
  {
    if job.handlerMethod.None? {
      err := Some(NoMethodError);
    } else {
      err := Execute(job, codec, job.handlerMethod.value, d);
    }
    err := Rescued(job.klass.rescue, err);
    job.ResetJobContext();
  }

  /** What `send_to_dlq` did, seen from the broker: nothing and `false` without a
      dead-letter topic; otherwise some producer `p` was opened and, on success, every
      body was republished on it (a batch answers truthy even when empty); a failure
      stops after a prefix of the sends. */
  predicate DlqOutcome(d: Delivery, present: bool, sent: Result<bool, Error>, dlq: seq<Request>, p: Handle) {
    if !present then sent == Success(false) && dlq == []
    else
      Delivered(dlq) <= DlqSends(p, d) &&
      (sent.Success? ==> Delivered(dlq) == DlqSends(p, d) && (d.Batch? ==> sent.value)) &&
      (d == Single(None) ==> sent.Failure?)
  }

  /** Setup traffic that republishes nothing, followed by a prefix of the sends that is
      complete on success, is a dead-letter outcome. */
  lemma DlqAfterSetup(setup: seq<Request>, sends: seq<Request>, sent: Result<bool, Error>, p: Handle, d: Delivery)
    requires Delivered(setup) == []
    requires sends <= DlqSends(p, d)
    requires sent.Success? ==> sends == DlqSends(p, d) && (d.Batch? ==> sent.value)
    requires d == Single(None) ==> sent.Failure?
    ensures DlqOutcome(d, true, sent, setup + sends, p)
  {
    DeliveredAppend(setup, sends);
    DlqPrefixDelivered(sends, p, d);
  }

  /** What `on_error` settles after `send_to_dlq`: acknowledge on a truthy answer,
      negatively acknowledge on a falsy one, nothing when it raised. */
  function Verdict(sent: Result<bool, Error>, c: Handle, d: Delivery): seq<Request> {
    match sent
    case Success(true) => Acks(c, d)
    case Success(false) => Nacks(c, d)
    case Failure(_) => []
  }

  /** What leaves `handle` once its outer rescue ran: `SystemExit` and every other
      non-standard error; standard errors are logged. */
  function Escapes(raised: Option<Error>): (r: Option<Error>)
    ensures r.Some? <==> raised.Some? && !IsStandardError(raised.value)
    ensures r.Some? ==> r == raised
  {
    if raised.Some? && !IsStandardError(raised.value) then raised else None
  }
}

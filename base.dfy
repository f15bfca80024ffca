/** `PulsarJob::Base`: the job object the runtime hands deliveries to, with the
    defaults every job class inherits. */
module JobBase {
  import opened Wrappers
  import opened Values
  import opened Pulsar
  import opened Settings
  import opened JobContext

  const DefaultMethod: string := "perform"

  /** How the runtime calls the job's handler method. */
  datatype Call =
    | Positional(args: seq<Value>)
    | Keywords(payload: Value, messageId: nat, raw: Message)
    | Payloads(items: seq<Value>)

  /** How a job class answers `topic` or `subscription`: with the inherited method, or
      with its own override, which gives a fixed answer, possibly nil. */
  datatype NameOverride = Inherited | Overridden(answer: Option<string>)

  /** What a job class declares: its name, its raw-payload switch, its dead-letter
      settings, its overrides of `topic`, `subscription` and `consumer_type`, and its
      user code: the handler methods it responds to, and `rescue_with_handler` (none
      when a registered handler dealt with the error, the error that escapes
      otherwise). */
  datatype JobClass = JobClass(
    name: string,
    useRawPayload: Value,
    dlqTopic: Option<string>,
    maxRedeliveryCount: int,
    topicOverride: NameOverride,
    subscriptionOverride: NameOverride,
    consumerTypeOverride: Option<ConsumerType>,
    handler: (string, Call) -> Outcome,
    rescue: Error -> Option<Error>)

  /** `job.topic` for a job of `klass` whose `@topic` is `explicit`: an override answers
      by itself; the inherited method answers `@topic || default_topic`. */
  function JobTopic(klass: JobClass, explicit: Option<string>, cfg: Configuration): (r: Option<string>)
    ensures klass.topicOverride.Overridden? ==> r == klass.topicOverride.answer
    ensures klass.topicOverride.Inherited? ==> (r.None? <==> explicit.None? && cfg.defaultTopic.None?)
    ensures klass.topicOverride.Inherited? && explicit.Some? ==> r == explicit
  {
    match klass.topicOverride
    case Inherited => JobContext.Topic(explicit, cfg)
    case Overridden(a) => a
  }

  /** `job.subscription`: an override answers by itself; the inherited method never
      answers nil. */
  function JobSubscription(klass: JobClass, explicit: Option<string>, cfg: Configuration): (r: Option<string>)
    ensures klass.subscriptionOverride.Overridden? ==> r == klass.subscriptionOverride.answer
    ensures klass.subscriptionOverride.Inherited? ==> r.Some?
    ensures klass.subscriptionOverride.Inherited? && explicit.Some? ==> r == explicit
  {
    match klass.subscriptionOverride
    case Inherited => JobContext.Subscription(explicit, cfg)
    case Overridden(a) => a
  }

  /** `context_valid?`: false when `subscription` or `topic` answers nil. */
  predicate ContextValidFor(klass: JobClass, topic: Option<string>, subscription: Option<string>, cfg: Configuration) {
    !(JobSubscription(klass, subscription, cfg).None? || JobTopic(klass, topic, cfg).None?)
  }

  /** A class that overrides neither name is as valid as the context mixin says: exactly
      when a topic is set on the job or configured. */
  lemma InheritedContextValid(klass: JobClass, topic: Option<string>, subscription: Option<string>, cfg: Configuration)
    requires klass.topicOverride.Inherited? && klass.subscriptionOverride.Inherited?
    ensures ContextValidFor(klass, topic, subscription, cfg) == JobContext.ContextValid(topic, subscription, cfg)
    ensures ContextValidFor(klass, topic, subscription, cfg) <==> (topic.Some? || cfg.defaultTopic.Some?)
  {
    ContextValidIffTopic(topic, subscription, cfg);
  }

  /** Overrides decide alone: a class answering fixed names is valid with exactly those
      names whatever the job's fields and the configuration, and a class answering nil
      for either is never valid. */
  lemma OverriddenNames(klass: JobClass, topic: Option<string>, subscription: Option<string>, cfg: Configuration)
    requires klass.topicOverride.Overridden? && klass.subscriptionOverride.Overridden?
    ensures JobTopic(klass, topic, cfg) == klass.topicOverride.answer
    ensures JobSubscription(klass, subscription, cfg) == klass.subscriptionOverride.answer
    ensures ContextValidFor(klass, topic, subscription, cfg) <==>
              klass.topicOverride.answer.Some? && klass.subscriptionOverride.answer.Some?
  {
  }

  /** `payload_as_args?`: `use_raw_payload != true`. */
  predicate PayloadAsArgsOf(useRawPayload: Value) {
    useRawPayload != Bool(true)
  }

  /** The inherited `use_raw_payload`. */
  const DefaultUseRawPayload: Value := Bool(false)

  /** With the inherited switch, and with any falsy one, the payload's `args` are
      passed as arguments; only a literal `true` turns that off. */
  lemma PayloadAsArgsByDefault(u: Value)
    ensures PayloadAsArgsOf(DefaultUseRawPayload)
    ensures !Truthy(u) ==> PayloadAsArgsOf(u)
    ensures !PayloadAsArgsOf(u) <==> u == Bool(true)
  {
  }

  /** `consumer_type`: the class's override, else the inherited answer, which is the
      configured default, else shared. */
  function ConsumerTypeOf(klass: JobClass, cfg: Configuration): (t: ConsumerType)
    ensures klass.consumerTypeOverride.Some? ==> t == klass.consumerTypeOverride.value
    ensures klass.consumerTypeOverride.None? && cfg.defaultConsumerType.None? ==> t == Shared
    ensures klass.consumerTypeOverride.None? && cfg.defaultConsumerType.Some? ==> t == cfg.defaultConsumerType.value
  {
    if klass.consumerTypeOverride.Some? then klass.consumerTypeOverride.value
    else cfg.defaultConsumerType.GetOr(Shared)
  }

  datatype ConsumerOptions = ConsumerOptions(consumerType: ConsumerType)

  /** `consumer_options`: only the consumer type. */
  function ConsumerOptionsOf(klass: JobClass, cfg: Configuration): (o: ConsumerOptions)
    ensures o.consumerType == ConsumerTypeOf(klass, cfg)
  {
    ConsumerOptions(ConsumerTypeOf(klass, cfg))
  }

  /** The inherited `perform`: always raises `NotImplementedError`, which is not a
      `StandardError`. */
  function Perform(args: seq<Value>): (r: Outcome)
    ensures r.Raised? && !IsStandardError(r.e)
  {
    Raised(NotImplementedError)
  }

  /** A job object: the fields of `PulsarJob::Base` and of the context mixin, plus
      the class it was made from. */
  class Job {
    const klass: JobClass
    var handlerMethod: Option<string>
    var topic: Option<string>
    var subscription: Option<string>
    var args: Value
    var payload: Value
    var createdAt: Value
    var result: Value
    var raw: Option<Delivery>
    var consumerOptions: Value
    var locale: Value
    var timezone: Value

    function State(): JobState
      reads this
    {
      JobState(handlerMethod, topic, subscription, args, payload, createdAt, result, raw,
               consumerOptions, locale, timezone)
    }

    /** `job_class.new`: the handler method defaults to `perform`; all else is nil. */
    constructor (klass: JobClass)
      ensures this.klass == klass
      ensures State() == JobState(Some(DefaultMethod), None, None, Nil, Nil, Nil, Nil, None, Nil, Nil, Nil)
    {
      this.klass := klass;
      handlerMethod := Some(DefaultMethod);
      topic, subscription := None, None;
      args, payload, createdAt, result := Nil, Nil, Nil, Nil;
      raw := None;
      consumerOptions, locale, timezone := Nil, Nil, Nil;
    }

    /** The object of a subclass whose `initialize` does not call `super`: every field,
        the handler method included, is nil. */
    constructor Bare(klass: JobClass)
      ensures this.klass == klass
      ensures State() == JobState(None, None, None, Nil, Nil, Nil, Nil, None, Nil, Nil, Nil)
    {
      this.klass := klass;
      handlerMethod := None;
      topic, subscription := None, None;
      args, payload, createdAt, result := Nil, Nil, Nil, Nil;
      raw := None;
      consumerOptions, locale, timezone := Nil, Nil, Nil;
    }

    function Topic(cfg: Configuration): Option<string>
      reads this
    {
      JobTopic(klass, topic, cfg)
    }

    function Subscription(cfg: Configuration): Option<string>
      reads this
    {
      JobSubscription(klass, subscription, cfg)
    }

    predicate ContextValid(cfg: Configuration)
      reads this
    {
      ContextValidFor(klass, topic, subscription, cfg)
    }

    predicate PayloadAsArgs() {
      PayloadAsArgsOf(klass.useRawPayload)
    }

    /** `reset_job_context`. */
    method ResetJobContext()
      modifies this
      ensures State() == Reset(old(State()))
    {
      args, payload, createdAt, result := Nil, Nil, Nil, Nil;
    }
  }
}

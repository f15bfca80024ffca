/** The job context mixin: where a job's topic and subscription come from, whether its
    context is usable, and which per-message fields are cleared between deliveries. */
module JobContext {
  import opened Wrappers
  import opened Values
  import opened Settings

  const SubscriptionPrefix: string := "pulsar-job-subscription-"

  /** The subscription name generated from the host identity. */
  function AutoSubscription(hostId: string): (s: string)
    ensures |s| == |SubscriptionPrefix| + |hostId|
    ensures s[..|SubscriptionPrefix|] == SubscriptionPrefix
    ensures s[|SubscriptionPrefix|..] == hostId
  {
    SubscriptionPrefix + hostId
  }

  /** `@subscription || configuration.default_subscription || auto_subscription`. */
  function Subscription(explicit: Option<string>, cfg: Configuration): (r: Option<string>)
    ensures r.Some?
    ensures explicit.Some? ==> r == explicit
    ensures explicit.None? ==> r == Some(cfg.defaultSubscription.GetOr(AutoSubscription(cfg.hostId)))
  {
    if explicit.Some? then explicit
    else if cfg.defaultSubscription.Some? then cfg.defaultSubscription
    else Some(AutoSubscription(cfg.hostId))
  }

  /** `@topic || configuration.default_topic`. */
  function Topic(explicit: Option<string>, cfg: Configuration): (r: Option<string>)
    ensures r.None? <==> explicit.None? && cfg.defaultTopic.None?
    ensures explicit.Some? ==> r == explicit
    ensures explicit.None? ==> r == cfg.defaultTopic
  {
    if explicit.Some? then explicit else cfg.defaultTopic
  }

  /** `context_valid?`: false when the subscription or the topic is nil. */
  predicate ContextValid(topic: Option<string>, subscription: Option<string>, cfg: Configuration) {
    !(Subscription(subscription, cfg).None? || Topic(topic, cfg).None?)
  }

  /** The generated subscription is never nil, so the context is valid exactly when a
      topic is set on the job or configured as the default. */
  lemma ContextValidIffTopic(topic: Option<string>, subscription: Option<string>, cfg: Configuration)
    ensures ContextValid(topic, subscription, cfg) <==> (topic.Some? || cfg.defaultTopic.Some?)
  {
  }

  /** Every field of a job object the runtime reads or writes. */
  datatype JobState = JobState(
    handlerMethod: Option<string>,
    topic: Option<string>,
    subscription: Option<string>,
    args: Value,
    payload: Value,
    createdAt: Value,
    result: Value,
    raw: Option<Delivery>,
    consumerOptions: Value,
    locale: Value,
    timezone: Value)

  /** `reset_job_context`: the four per-message fields become nil and nothing else moves. */
  function Reset(s: JobState): (r: JobState)
    ensures r.args == Nil && r.payload == Nil && r.createdAt == Nil && r.result == Nil
    ensures r.(args := s.args, payload := s.payload, createdAt := s.createdAt, result := s.result) == s
  {
    s.(args := Nil, payload := Nil, createdAt := Nil, result := Nil)
  }

  /** A second reset changes nothing. */
  lemma ResetIdempotent(s: JobState)
    ensures Reset(Reset(s)) == Reset(s)
  {
  }
}

/** `PulsarJob.configuration`: the settings every component reads. */
module Settings {
  import opened Wrappers
  import opened Pulsar

  const DefaultBrokerUrl: string := "pulsar://localhost:6650"
  const DefaultMaxShutdownWaitSeconds: int := 10

  datatype Configuration = Configuration(
    pulsarBrokerUrl: string,
    defaultSubscription: Option<string>,
    defaultTopic: Option<string>,
    defaultConsumerType: Option<ConsumerType>,
    maxShutdownWaitSeconds: int,
    pulsarBrokerMaxRetries: int,
    consumerReceiveTimeoutMillis: nat,
    producerSendTimeoutMillis: int,
    /** `Socket.gethostname`, or the random hex id used when sockets are unavailable. */
    hostId: string)

  /** `Configuration.new`: the broker URL and the shutdown wait have defaults. The
      retry budget and the two timeouts are read by the pools and the receiver but not
      defined by the configuration class, where reading them raises `NoMethodError`;
      here they are configured values given as parameters. */
  function Default(maxRetries: int, receiveTimeoutMillis: nat, sendTimeoutMillis: int, hostId: string): (c: Configuration)
    ensures c.pulsarBrokerUrl == DefaultBrokerUrl
    ensures c.maxShutdownWaitSeconds == DefaultMaxShutdownWaitSeconds
    ensures c.defaultTopic.None? && c.defaultSubscription.None? && c.defaultConsumerType.None?
  {
    Configuration(DefaultBrokerUrl, None, None, None, DefaultMaxShutdownWaitSeconds,
                  maxRetries, receiveTimeoutMillis, sendTimeoutMillis, hostId)
  }
}

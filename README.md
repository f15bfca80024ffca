# pulsar-job-rails: the job runtime in Dafny

pulsar-job-rails runs Ruby background jobs over Apache Pulsar. A job class names a
topic and a subscription. A publisher (`Produce`, or the older `Producer`) sends a
JSON envelope `{job, method, args, sent_at}` to the topic. A listener (`Consume`,
the older `Consumer`, or a `Consumes::One` / `Consumes::Batched` handler) receives
messages and decodes the payload. It calls the job's handler method with the
payload's `args`, or with `{payload, message_id, raw}` in raw mode. It then
acknowledges or negatively acknowledges each message, and may first republish it to
a dead-letter topic. Three process-wide pools sit underneath:
- the shared client, connected with retries over a shuffled broker list;
- consumers, keyed by topic and subscription;
- producers, keyed by topic.

`Async::Wrapper` builds on all of this to enqueue a method call on a class or a
record and perform it later.

The model keeps the source's shape, one module per source file:

| module | source |
|---|---|
| `Values` | Ruby values and hashes as the code sees them (truthiness, `present?`, `hash[k]`, `hash[k] = v`, the error classes) |
| `Settings` | `configuration.rb` |
| `JobContext`, `JobBase` | `context.rb`, `base.rb`; the job is a class `Job` whose fields are reset in place |
| `Payloads` | `process_payload`, `payload.try(:[], "args")`, `args.values`, the splat, the envelope and the `sent_at` stamp |
| `Pulsar` | the pulsar-client library, as a `Broker` object that records every request in a log |
| `ClientPools` | `pools/client.rb` |
| `ConsumerPools` | `pools/consumers.rb` |
| `Producers` | `produce.rb` and `pools/producers.rb`, which refer to each other |
| `LegacyProducer` | `producer.rb` |
| `Settlement`, `Consumes` | `consumes/base.rb`, `one.rb`, `batched.rb`; one class `Handler` with the constructors `One` and `Batched` |
| `Listening`, `Consume`, `LegacyConsumer` | the listen loops and `handle` of `consume.rb` and `consumer.rb` |
| `AsyncWrapper` | `async/wrapper.rb` |

The broker and the client library are modelled as follows:
- Every call to the library is a `Request` appended to `Broker.log`: connect, subscribe, create a producer, receive, acknowledge, send, close.
- Its answer is read from an `Oracle` at the request's log position, so "any sequence of broker answers" is a universally quantified oracle.
- `Delivered(log)` keeps only the calls that settle or publish a message.
- Properties such as "exactly one acknowledgement or negative acknowledgement per message, in order" are statements about that view of the log.

JSON is a `Codec`, a pair of a parser and a serializer. Its round trip is assumed only as a `requires RoundTrips(codec)`.

Where the project's documented design and its code disagree, the model follows the code. The one exception is the configuration settings that the code reads but `configuration.rb` does not define. The model reads them as configured values (see "## Left out"). Otherwise:
- **Dead-letter routing.** The routing condition ignores the redelivery count, and the dead letter goes to the job's own topic (both under "## Findings").
- **Exhausted retries.** The retry loop ends with `InvalidClientConfigirationError` ("Unable to connect to any broker after N retries"), not a dedicated broker-unavailable error.
- **Client caching.** The client is not reused: every `instance_exec` opens a new connection and makes it the global client.

## Model

| member | source | states |
|---|---|---|
| Values.HashValues | lib/pulsar-job-rails/consumes/one.rb:35 | `args.values` keeps every value and drops the keys, in insertion order |
| Values.PutThenLookup | lib/pulsar-job-rails/produce.rb:39 | after `payload[:sent_at] = t` the key reads back as `t` |
| Values.PutAbsent | lib/pulsar-job-rails/produce.rb:39 | assigning a key not yet present appends the pair at the end |
| Values.PutKeepsOthers | lib/pulsar-job-rails/produce.rb:39 | assigning one key leaves every other key's value unchanged |
| Values.PutKeys | lib/pulsar-job-rails/produce.rb:39 | assignment keeps existing keys in order and appends only a missing key |
| Settings.Default | lib/pulsar-job-rails/configuration.rb:14-20 | the defaults are the broker URL `pulsar://localhost:6650` and a 10-second shutdown wait; no default topic, subscription or consumer type |
| JobContext.AutoSubscription | lib/pulsar-job-rails/context.rb:59-66 | the generated subscription is the fixed prefix followed by the host identity |
| JobContext.Subscription | lib/pulsar-job-rails/context.rb:43-45 | an explicit subscription wins, then the configured default, then the generated one; the result is never nil |
| JobContext.Topic | lib/pulsar-job-rails/context.rb:47-49 | an explicit topic wins, else the configured default; nil exactly when both are nil |
| JobContext.ContextValidIffTopic | lib/pulsar-job-rails/context.rb:51-66 | `context_valid?` holds exactly when a topic is set on the job or configured, because the subscription fallback never yields nil |
| JobContext.Reset | lib/pulsar-job-rails/context.rb:36-41 | `args`, `payload`, `created_at` and `result` become nil and every other field is unchanged |
| JobContext.ResetIdempotent | lib/pulsar-job-rails/context.rb:36-41 | a second reset changes nothing |
| JobBase.PayloadAsArgsByDefault | lib/pulsar-job-rails/base.rb:53-60 | `payload_as_args?` is true with the inherited `use_raw_payload` and with any falsy one, and false exactly for a literal `true` |
| JobBase.JobTopic | lib/pulsar-job-rails/base.rb:49-51 | a class override of `topic` answers by itself, nil included; the inherited method answers `@topic`, else the configured default, and is nil exactly when both are |
| JobBase.JobSubscription | lib/pulsar-job-rails/base.rb:45-47 | a class override of `subscription` answers by itself, nil included; the inherited method answers `@subscription` when set and is never nil |
| JobBase.InheritedContextValid | lib/pulsar-job-rails/base.rb:73-77 | for a class that overrides neither name, `context_valid?` is the context mixin's and holds exactly when a topic is set on the job or configured |
| JobBase.OverriddenNames | spec/pulsar-job-rails/consume_spec.rb:8-16 | a class that overrides both names is valid with exactly those names whatever the job's fields and the configuration, and never valid when either override answers nil |
| JobBase.ConsumerTypeOf | lib/pulsar-job-rails/base.rb:68-71 | the class's own `consumer_type` when it overrides it, else the configured consumer type, else `:shared` |
| JobBase.ConsumerOptionsOf | lib/pulsar-job-rails/base.rb:62-66 | the consumer options carry exactly the job class's consumer type |
| JobBase.Perform | lib/pulsar-job-rails/base.rb:37-39 | the inherited `perform` always raises, with an error outside `StandardError` (`NotImplementedError`) |
| JobBase.Job.constructor | lib/pulsar-job-rails/base.rb:32-35 | a new job has handler method `perform` and every other field nil |
| JobBase.Job.Bare | lib/pulsar-job-rails/async/wrapper.rb:11-14 | a subclass whose `initialize` skips `super` leaves every inherited field nil, the handler method included |
| JobBase.Job.ResetJobContext | lib/pulsar-job-rails/context.rb:36-41 | the job's state afterwards is `Reset` of its state before |
| Payloads.ProcessPayload | lib/pulsar-job-rails/consumes/base.rb:54-57 | the result is always truthy; when parsing succeeds with a truthy value the result is exactly that value, and otherwise (no parse, or `null`/`false`) it is exactly the raw string |
| Payloads.ProcessPayloadFallback | lib/pulsar-job-rails/consumes/base.rb:54-57 | a body that does not parse, or parses to `null`/`false`, reaches the job as the raw string |
| Payloads.ProcessPayloadOfSerialized | lib/pulsar-job-rails/consumes/base.rb:54-57 | a body serialized from a truthy value decodes back to that value |
| Payloads.Field | lib/pulsar-job-rails/consumes/one.rb:34 | `payload.try(:[], "args")`: a hash looks the key up, a string answers the key only when it contains it, nil and booleans answer nil, lists and integers raise a standard `TypeError` |
| Payloads.Flatten | lib/pulsar-job-rails/consumes/one.rb:35 | a hash of args becomes the list of its values, in order; anything else is unchanged; the result is never a hash |
| Payloads.PositionalArgs | lib/pulsar-job-rails/consumes/one.rb:34-36 | the job's args in args mode: the flattened `args` field of a hash payload; fails exactly on list and integer payloads |
| Payloads.HashPairs | lib/pulsar-job-rails/consumes/one.rb:37 | splatting a hash passes its entries as `[key, value]` pairs, in order |
| Payloads.Splat | lib/pulsar-job-rails/consumes/one.rb:37 | `*args`: nil passes nothing, a list its elements, a hash one pair per entry, any other value itself |
| Payloads.MethodValue | lib/pulsar-job-rails/produce.rb:15 | a missing method name becomes JSON `null`, and only then |
| Payloads.EnvelopeFields | lib/pulsar-job-rails/produce.rb:13-17 | the envelope has exactly the keys `job`, `method`, `args`, in that order, holding the class name, the method and the arguments |
| Payloads.Stamp | lib/pulsar-job-rails/produce.rb:39 | `sent_at` reads back as the send time and every other key is unchanged |
| Payloads.StampedEnvelope | lib/pulsar-job-rails/produce.rb:12-18 | a stamped envelope is exactly the four pairs `job`, `method`, `args`, `sent_at` |
| Payloads.StampedEnvelopeKeys | lib/pulsar-job-rails/producer.rb:37-47 | a stamped envelope's keys are `job`, `method`, `args`, `sent_at`, in that order |
| Payloads.StampedEnvelopeLookups | lib/pulsar-job-rails/producer.rb:37-47 | each of the four keys of a stamped envelope holds its intended value |
| Payloads.PublishedArgsReachHandler | lib/pulsar-job-rails/produce.rb:12-18 | publish/consume round trip: the `args` a producer sends are exactly the args a consumer in args mode extracts |
| Pulsar.DeliveredAppend | lib/pulsar-job-rails/consumes/batched.rb:22-28 | the delivery view of a log distributes over concatenation, so calls made in sequence are seen in sequence |
| Pulsar.DeliveredAll | lib/pulsar-job-rails/consumes/batched.rb:22-28 | a log of only settlements and sends is its own delivery view |
| Pulsar.DeliveredNone | lib/pulsar-job-rails/consume.rb:46-55 | a log of only receives, connects, opens and closes delivers nothing |
| Pulsar.Broker.Connect | lib/pulsar-job-rails/pools/client.rb:15-20 | one connect request to the URL is logged; the answer is the broker's |
| Pulsar.Broker.Open | lib/pulsar-job-rails/pools/client.rb:36 | one subscribe or create-producer request is logged; the answer is the broker's |
| Pulsar.Broker.Receive | lib/pulsar-job-rails/consumes/one.rb:13-15 | one receive with the given timeout is logged; the answer is the broker's |
| Pulsar.Broker.BatchReceive | lib/pulsar-job-rails/consumes/batched.rb:13-16 | one batch receive is logged; the answer is the broker's |
| Pulsar.Broker.Send | lib/pulsar-job-rails/produce.rb:49-51 | one send of exactly the given body and options is logged |
| Pulsar.Broker.Tell | lib/pulsar-job-rails/consumes/one.rb:21-27 | an acknowledge, negative acknowledge or close is logged once |
| ClientPools.UnableMessage | lib/pulsar-job-rails/pools/client.rb:45 | the exhaustion message starts with "Unable to connect to any broker after " |
| ClientPools.Line | lib/pulsar-job-rails/pools/client.rb:73 | what `.+` covers: the longest prefix without a line break |
| ClientPools.MatchHosts | lib/pulsar-job-rails/pools/client.rb:73 | group 1 of `pulsar://(.+)`, when it matches, is non-empty and holds no line break |
| ClientPools.MatchOfScheme | lib/pulsar-job-rails/pools/client.rb:73 | a one-line URL starting with `pulsar://` matches with everything after the scheme |
| ClientPools.LineOfLine | lib/pulsar-job-rails/pools/client.rb:73 | a string without a line break is all matched by `.+` |
| ClientPools.Fields | lib/pulsar-job-rails/pools/client.rb:75 | splitting on commas gives at least one field and no field holds a comma |
| ClientPools.DropTrailingEmpty | lib/pulsar-job-rails/pools/client.rb:75 | `split` drops exactly the empty fields at the end, keeping a prefix whose last field is non-empty |
| ClientPools.Split | lib/pulsar-job-rails/pools/client.rb:75 | `split(",")` is a prefix of the comma fields, none holding a comma |
| ClientPools.JoinFields | lib/pulsar-job-rails/pools/client.rb:75 | splitting loses nothing: the fields joined with commas give the string back |
| ClientPools.FieldsOfField | lib/pulsar-job-rails/pools/client.rb:75 | a string without a comma is one field |
| ClientPools.FieldsCons | lib/pulsar-job-rails/pools/client.rb:75 | the fields of `a,rest` are `a` followed by the fields of `rest` |
| ClientPools.FieldsJoin | lib/pulsar-job-rails/pools/client.rb:75 | host names without commas, joined with commas, split back into the same list |
| ClientPools.ParseHosts | lib/pulsar-job-rails/pools/client.rb:71-76 | fails exactly when the URL does not match, with `NoMethodError` (from `nil.length`); otherwise hosts without commas or line breaks |
| ClientPools.NoNewlineInFields | lib/pulsar-job-rails/pools/client.rb:75 | the fields of a one-line string hold no line break |
| ClientPools.ParseHostsOfJoin | lib/pulsar-job-rails/pools/client.rb:71-76 | a well-formed `pulsar://h1,h2,...` URL is parsed back to exactly its host list |
| ClientPools.JoinHasNoNewline | lib/pulsar-job-rails/pools/client.rb:75 | joining one-line hosts gives one line |
| ClientPools.JoinNotEmpty | lib/pulsar-job-rails/pools/client.rb:75 | a host list ending in a non-empty host joins to a non-empty string |
| ClientPools.DefaultHosts | lib/pulsar-job-rails/pools/client.rb:71-76 | the default URL names the single broker `localhost:6650` |
| ClientPools.Apply | lib/pulsar-job-rails/pools/client.rb:36 | the block given to `instance_exec` subscribes or creates a producer on the new client |
| ClientPools.Try | lib/pulsar-job-rails/pools/client.rb:34-36 | an attempt connects once, to `pulsar://` plus the first broker; on success it then runs the block on that new client and nothing else |
| ClientPools.RetryCases | lib/pulsar-job-rails/pools/client.rb:30-59 | one pass ends the loop on success or on a non-`ConnectError` error (propagated unchanged); a `ConnectError` either exhausts the budget with the "Unable to connect" error or retries with the budget one less and the list shifted or refilled |
| ClientPools.ConnectCount | lib/pulsar-job-rails/pools/client.rb:35 | the number of connection attempts is at most the number of requests |
| ClientPools.ConnectCountAppend | lib/pulsar-job-rails/pools/client.rb:35 | attempts made in sequence add up |
| ClientPools.RetryBounded | lib/pulsar-job-rails/pools/client.rb:43-46 | with budget N the loop makes at most `max(N, 1)` connection attempts |
| ClientPools.RetryExhausts | lib/pulsar-job-rails/pools/client.rb:43-52 | when every connection is refused, exactly `max(N, 1)` attempts are made (a refill always leaves a candidate), then "Unable to connect" is raised |
| ClientPools.AllToHostsAppend | lib/pulsar-job-rails/pools/client.rb:35 | connections only to configured hosts stay so when concatenated |
| ClientPools.NextWithinHosts | lib/pulsar-job-rails/pools/client.rb:49-52 | shifting the list or refilling it from `broker_hosts` keeps every candidate a configured host |
| ClientPools.RetryConnectsToHosts | lib/pulsar-job-rails/pools/client.rb:30-56 | every connection the loop makes goes to `pulsar://` followed by a configured host |
| ClientPools.ConnectsToHostsStep | lib/pulsar-job-rails/pools/client.rb:30-56 | the inductive step: an attempt on a configured host followed by a retry run that connects only to configured hosts |
| ClientPools.TryToHosts | lib/pulsar-job-rails/pools/client.rb:34-35 | an attempt on a configured host connects only to that host |
| ClientPools.RetrySucceeds | lib/pulsar-job-rails/pools/client.rb:33-38 | a successful run ends by connecting to a host and running the block on that new client, and the block's result is returned |
| ClientPools.SucceedsAfterRefused | lib/pulsar-job-rails/pools/client.rb:39-56 | a refused attempt followed by a run that ends connected ends connected |
| ClientPools.RetryDeliversNothing | lib/pulsar-job-rails/pools/client.rb:24-62 | the retry loop neither settles nor publishes any message |
| ClientPools.TryDeliversNothing | lib/pulsar-job-rails/pools/client.rb:34-36 | one attempt neither settles nor publishes any message |
| ClientPools.ExecDeliversNothing | lib/pulsar-job-rails/pools/client.rb:24-62 | one `instance_exec` neither settles nor publishes any message |
| ClientPools.ExecBounded | lib/pulsar-job-rails/pools/client.rb:24-62 | for any configuration and broker answers, at most `max(N, 1)` attempts, every connection to a host of the parsed (or memoized) list, and a success ends with the block's call on the client just connected |
| ClientPools.ExecConnectsToHosts | lib/pulsar-job-rails/pools/client.rb:24-62 | every connection of one `instance_exec` goes to a host of the parsed (or memoized) list, whatever order the shuffle picks |
| ClientPools.ClientPool.constructor | lib/pulsar-job-rails/pools/client.rb:11-13 | no global client and no memoized host list at start |
| ClientPools.ClientPool.BrokerHosts | lib/pulsar-job-rails/pools/client.rb:71-78 | the host list is parsed once and memoized; each call returns a permutation of it, and a failed parse raises `NoMethodError` and memoizes nothing |
| ClientPools.ClientPool.InstanceExec | lib/pulsar-job-rails/pools/client.rb:24-62 | pool and broker log move exactly as one `Exec` of the block prescribes; on success the new client becomes the global one |
| ClientPools.ClientPool.RetryLoop | lib/pulsar-job-rails/pools/client.rb:30-59 | the `begin ... retry` loop does exactly what `Retry` prescribes from the first shuffled list and the full budget |
| ClientPools.ClientPool.Pass | lib/pulsar-job-rails/pools/client.rb:30-56 | one pass either ends the loop as `Retry` says or retries with a strictly smaller positive budget and the same remaining run |
| ClientPools.ClientPool.TryHost | lib/pulsar-job-rails/pools/client.rb:34-36 | one attempt logs exactly what `Try` prescribes |
| ClientPools.ClientPool.Shutdown | lib/pulsar-job-rails/pools/client.rb:64-67 | the global client is closed once when there is one; nothing otherwise |
| ConsumerPools.Find | lib/pulsar-job-rails/pools/consumers.rb:21 | the consumer stored under a key, exactly when one is stored |
| ConsumerPools.FindAppend | lib/pulsar-job-rails/pools/consumers.rb:26-27 | storing under a new key answers that key and leaves every other key alone |
| ConsumerPools.InspectList | lib/pulsar-job-rails/pools/consumers.rb:18 | the inspected topic list is bracketed |
| ConsumerPools.Key | lib/pulsar-job-rails/pools/consumers.rb:18 | the key is the topics' `inspect`, a dash, then the subscription |
| ConsumerPools.FirstQuoteAfter | lib/pulsar-job-rails/pools/consumers.rb:18 | the first double quote after a quote-free topic is found at the topic's end |
| ConsumerPools.KeyInjective | lib/pulsar-job-rails/pools/consumers.rb:18 | for quote-free topics, two keys are equal only when topic and subscription both agree |
| ConsumerPools.Closes | lib/pulsar-job-rails/pools/consumers.rb:35-37 | one close per cached consumer, in insertion order |
| ConsumerPools.ConsumerPool.constructor | lib/pulsar-job-rails/pools/consumers.rb:11 | the cache starts nil |
| ConsumerPools.ConsumerPool.Get | lib/pulsar-job-rails/pools/consumers.rb:9-14 | reads the entry without creating one; a nil map becomes empty |
| ConsumerPools.ConsumerPool.Subscribe | lib/pulsar-job-rails/pools/consumers.rb:16-30 | a hit returns the cached consumer with no broker call; a miss runs one `instance_exec` and stores its consumer under the key; other keys are never touched |
| ConsumerPools.SubscribeTwice | lib/pulsar-job-rails/pools/consumers.rb:16-30 | after a successful `subscribe`, a second one with the same topics and subscription, whatever its options, answers the same consumer and makes no broker call |
| ConsumerPools.ConsumerPool.Shutdown | lib/pulsar-job-rails/pools/consumers.rb:32-39 | every cached consumer is closed once, in order; nothing for a nil or empty cache; the cache is kept |
| Producers.ProducerName | lib/pulsar-job-rails/pools/producers.rb:45-52 | `pulsar-job-producer-` followed by the host identity |
| Producers.PoolProducerOptions | lib/pulsar-job-rails/pools/producers.rb:38-43 | the configured send timeout and a name with the producer prefix |
| Producers.Outgoing | lib/pulsar-job-rails/produce.rb:33-39 | a hash payload is stamped; nil or false becomes the default envelope with `args` = `job.args` or `{}`, stamped; any other value raises a standard error |
| Producers.OutgoingFields | lib/pulsar-job-rails/produce.rb:33-39 | a caller's hash keeps every key but `sent_at`; the default envelope carries the class name, method and args; `sent_at` is always the send time |
| Producers.Produce.constructor | lib/pulsar-job-rails/produce.rb:21-23 | the job and broker are set; no producer yet |
| Producers.Produce.PublishBang | lib/pulsar-job-rails/produce.rb:33-43 | exactly one send of the stamped payload as JSON with empty options; nothing is sent when the payload cannot be stamped or there is no producer |
| Producers.Produce.PublishRaw | lib/pulsar-job-rails/produce.rb:49-51 | the bytes are sent unchanged, once, with empty options |
| Producers.Produce.Shutdown | lib/pulsar-job-rails/produce.rb:45-47 | the producer is closed only when present |
| Producers.CloseOf | lib/pulsar-job-rails/produce.rb:46 | no close without a producer, one close with one |
| Producers.FindOwner | lib/pulsar-job-rails/pools/producers.rb:14 | the object registered under a topic, exactly when one is |
| Producers.PutSlotFind | lib/pulsar-job-rails/pools/producers.rb:17 | storing under a topic answers that topic and leaves every other topic alone |
| Producers.PutSlotThrough | lib/pulsar-job-rails/pools/producers.rb:17 | storing an owner that publishes through the pool's broker leaves every registered owner publishing through it |
| Producers.ProducersOf | lib/pulsar-job-rails/pools/producers.rb:32-34 | each registered object's `producer` field, in insertion order |
| Producers.Shutdowns | lib/pulsar-job-rails/pools/producers.rb:32-34 | at most one close per registered object |
| Producers.ProducerPool.constructor | lib/pulsar-job-rails/pools/producers.rb:13 | the registry starts nil |
| Producers.ProducerPool.Stored | lib/pulsar-job-rails/pools/producers.rb:14 | `pool[topic].try(:producer)`: the registered object's producer, or nil |
| Producers.ProducerPool.Create | lib/pulsar-job-rails/pools/producers.rb:23-27 | one `instance_exec` that creates a producer for the topic with the pool's options |
| Producers.ProducerPool.Get | lib/pulsar-job-rails/pools/producers.rb:11-21 | a hit returns the stored producer without creating; a miss calls `create` once and registers the owner under the topic; other topics are untouched; registering an owner that publishes through the pool's broker keeps the pool valid |
| Producers.ProducerPool.Shutdown | lib/pulsar-job-rails/pools/producers.rb:29-36 | `shutdown` on every registered object once, in order, on a valid pool (every owner publishes through the pool's broker) |
| Producers.Open | lib/pulsar-job-rails/produce.rb:28-30 | the new object takes the topic's producer from the pool, registering itself on a miss; the broker log only grows and the setup traffic delivers nothing; a valid pool stays valid |
| Producers.OpenTwice | lib/pulsar-job-rails/pools/producers.rb:11-21 | after a successful `Produce.new` on a topic, a second one on that topic, for any job, shares the same producer and makes no broker call |
| Producers.New | lib/pulsar-job-rails/produce.rb:21-31 | a given job wins, else a new job of the class, else `JobClassNotDefinedError` "Job class is not defined" with no pool call; on success the pool holds the object's producer under the job's topic, and the setup traffic delivers nothing; a valid pool stays valid |
| Producers.PublishFor | lib/pulsar-job-rails/produce.rb:21-43 | `Produce.new(job:).publish!(payload)`: on success the call's only delivery event is the stamped payload, sent with empty options by the producer the pool holds for the job's topic; on failure nothing is delivered, unless the failure is the broker's answer to the send itself |
| Producers.Publish | lib/pulsar-job-rails/produce.rb:12-18 | on success the last send is the stamped `{job, method, args}` envelope with empty options, made by the producer the pool holds for the job's topic, and it is the only delivery event of the call; on failure nothing is delivered, unless the failure is the broker's answer to the send itself |
| LegacyProducer.Options | lib/pulsar-job-rails/producer.rb:20-35 | a 3000 ms send timeout and the prefixed producer name |
| LegacyProducer.ArgsOf | lib/pulsar-job-rails/producer.rb:41 | `args` is `data` if truthy, else `job.args` if truthy, else `{}` |
| LegacyProducer.PayloadFields | lib/pulsar-job-rails/producer.rb:37-47 | the payload has exactly the keys `job`, `method`, `args`, `sent_at`, in order, with their intended values |
| LegacyProducer.PublishedArgsReachPerform | lib/pulsar-job-rails/producer.rb:10-12 | `Producer.publish(job, *args)` reaches an args-mode handler with exactly those args |
| LegacyProducer.Producer.constructor | lib/pulsar-job-rails/producer.rb:15-18 | the job, broker and producer are kept |
| LegacyProducer.Producer.PublishBang | lib/pulsar-job-rails/producer.rb:37-47 | one send of the JSON payload with `deliver_after` 5000 ms |
| LegacyProducer.Producer.Shutdown | lib/pulsar-job-rails/producer.rb:49-52 | the producer is closed once |
| LegacyProducer.New | lib/pulsar-job-rails/producer.rb:15-18 | a new job of the class, and one create-producer request on the shared client for the topic a new job of that class answers (the class's override, else the configured default) |
| LegacyProducer.Publish | lib/pulsar-job-rails/producer.rb:10-12 | a create-producer request, then one send whose `args` are exactly the given arguments |
| Settlement.Items | lib/pulsar-job-rails/consumes/batched.rb:22-28 | the message slots a delivery settles: the single `msg`, or every message of the batch in order |
| Settlement.Acks | lib/pulsar-job-rails/consumes/batched.rb:22-24 | one acknowledge per message, in order; none for an empty batch |
| Settlement.Nacks | lib/pulsar-job-rails/consumes/batched.rb:26-28 | one negative acknowledge per message, in order |
| Settlement.Bodies | lib/pulsar-job-rails/consumes/batched.rb:45-47 | the raw data of each message, unchanged and in order |
| Settlement.DlqSends | lib/pulsar-job-rails/consumes/batched.rb:45-47 | one raw send per message on the dead-letter producer, with empty options |
| Settlement.SettlementsDelivered | lib/pulsar-job-rails/consumes/batched.rb:22-28 | acks, nacks and dead-letter sends are all seen by the broker, one per message, in order |
| Settlement.DlqPrefixDelivered | lib/pulsar-job-rails/consumes/batched.rb:45-47 | whatever prefix of the sends went out reached the broker |
| Settlement.DlqThenAck | lib/pulsar-job-rails/consumes/base.rb:32-34 | after a dead-letter send and the acknowledgement, every message is republished, in order, before any is acknowledged |
| Settlement.MaxCount | lib/pulsar-job-rails/consumes/batched.rb:34-38 | the batch's redelivery count bounds every message's and is one of them; 0 for an empty batch |
| Settlement.AsWrittenIgnoresRedeliveries | lib/pulsar-job-rails/consumes/base.rb:29 | as written, the redelivery count never changes the routing decision |
| Settlement.ExhaustedMessageNotRouted | lib/pulsar-job-rails/consumes/base.rb:29 | a non-`ArgumentError` on a message at its redelivery limit is not routed as written, and is routed under the intended rule |
| Settlement.AsWrittenRepublishesToJobTopic | lib/pulsar-job-rails/consumes/one.rb:56 | as written, a dead letter of a job on "orders" with dead-letter topic "orders-dlq" goes to "orders" |
| Settlement.ProcessAll | lib/pulsar-job-rails/consumes/batched.rb:31 | one processed payload per message, in order |
| Settlement.HashArgsBecomeValues | lib/pulsar-job-rails/consumes/one.rb:32-37 | in args mode, a hash of args reaches the handler as its values, in order |
| Settlement.RawModeCall | lib/pulsar-job-rails/consumes/one.rb:38-44 | in raw mode the handler gets exactly `{payload, message_id, raw}` |
| Settlement.BatchCall | lib/pulsar-job-rails/consumes/batched.rb:30-32 | a batch reaches the handler as one list of the same length and order, element i being message i's payload |
| Settlement.PublishedCallReachesHandler | lib/pulsar-job-rails/consumes/one.rb:29-44 | a message published by `Produce.publish(job, *args)` reaches an args-mode handler with exactly `args` |
| Settlement.Execute | lib/pulsar-job-rails/consumes/one.rb:29-45 | `payload`, `args` and `result` are set as `execute` does, nothing else in the job changes, and the raised error is `ExecError` |
| Settlement.HandleWithJobErrorHandler | lib/pulsar-job-rails/consumes/base.rb:43-52 | the job is always reset; what escapes is the error after the job's rescue |
| Settlement.DlqAfterSetup | lib/pulsar-job-rails/consumes/one.rb:51-58 | setup traffic that publishes nothing, then a prefix of the sends that is complete on success, is a dead-letter outcome |
| Settlement.Escapes | lib/pulsar-job-rails/consumes/base.rb:21-25 | only non-standard errors leave `handle`, unchanged; standard ones are logged |
| Consumes.Handler.One | lib/pulsar-job-rails/consumes/one.rb:8-11 | a new single-message handler holds no message |
| Consumes.Handler.Batched | lib/pulsar-job-rails/consumes/batched.rb:8-11 | a new batched handler holds an empty batch |
| Consumes.Handler.Receive | lib/pulsar-job-rails/consumes/one.rb:13-15 | one receive with the configured timeout, or one batch receive; the delivery is replaced by the answer, and kept when the receive raised |
| Consumes.Handler.Acknowledge | lib/pulsar-job-rails/consumes/one.rb:21-23 | one acknowledge per held message, in order |
| Consumes.Handler.NegativeAcknowledge | lib/pulsar-job-rails/consumes/one.rb:25-27 | one negative acknowledge per held message, in order |
| Consumes.Handler.OpenDlq | lib/pulsar-job-rails/consumes/one.rb:56 | `Produce.new(job:)` publishes nothing while setting up, and its producer is the pool's for the target topic |
| Consumes.Handler.Republish | lib/pulsar-job-rails/consumes/batched.rb:45-47 | the raw bodies are sent in order, stopping at the first error; all of them on success |
| Consumes.Handler.SendToDlq | lib/pulsar-job-rails/consumes/one.rb:51-58 | false and nothing sent without a dead-letter topic; otherwise every raw body is republished unchanged, in order, on the producer of the rule's target topic |
| Consumes.Handler.OnError | lib/pulsar-job-rails/consumes/base.rb:27-41 | an unrouted error ends in exactly the negative acknowledgements; a routed one sends to the dead-letter topic, then acknowledges on a truthy answer and negatively acknowledges on a falsy one; an error on the way is raised with nothing settled |
| Consumes.Handler.Reroute | lib/pulsar-job-rails/consumes/base.rb:29-37 | the routed branch: the dead-letter outcome followed by the verdict its answer selects |
| Consumes.Handler.SettleAfterDlq | lib/pulsar-job-rails/consumes/base.rb:32-40 | acknowledge after a truthy answer, negative acknowledge after a falsy one |
| Consumes.Handler.Handle | lib/pulsar-job-rails/consumes/base.rb:8-25 | `job.raw` is the delivery and the job is reset; success acknowledges every message; `SystemExit` settles nothing and escapes; any other error goes through `on_error` |
| Listening.RoundShape | lib/pulsar-job-rails/consume.rb:44-56 | every pass starts with one receive on its consumer and hands on at most one message |
| Listening.RoundsBounded | lib/pulsar-job-rails/consume.rb:40-64 | `rounds` passes handle at most `rounds` messages, and make no call exactly when there is no consumer or no pass |
| Listening.RoundsStep | lib/pulsar-job-rails/consume.rb:40-64 | an escaping pass ends the listen; otherwise the listen goes on from the next log position |
| Listening.ResumesStart | lib/pulsar-job-rails/consume.rb:40 | a listen starts with nothing done |
| Listening.ResumesEnd | lib/pulsar-job-rails/consume.rb:40 | with no pass left, the listen has done exactly what is behind it |
| Listening.ResumesIdle | lib/pulsar-job-rails/consume.rb:46-57 | a pass on a nil consumer does nothing |
| Listening.ResumesStep | lib/pulsar-job-rails/consume.rb:40-64 | one pass at the next log position either continues the listen or ends it with what it let out |
| Listening.TimeoutsHandleNothing | lib/pulsar-job-rails/consume.rb:46-56 | a broker that only times out or reports the consumer closed makes every pass one receive; nothing is handled, delivered or let out |
| Listening.TimeoutRound | lib/pulsar-job-rails/consume.rb:49-57 | a pass whose receive raises a standard error asks once and the listen goes on |
| Listening.Settle | lib/pulsar-job-rails/consume.rb:72-85 | exactly one settlement of the message, an acknowledge exactly on success or `ArgumentError`; none on a nil consumer |
| Listening.PrependPrepend | lib/pulsar-job-rails/consume.rb:40-64 | work done pass after pass accumulates in order |
| Listening.SettledCons | lib/pulsar-job-rails/consume.rb:40-64 | one settled message in front of an in-order settlement is in order |
| Listening.EachReceivedSettledOnce | lib/pulsar-job-rails/consume.rb:40-64 | when `handle` settles each message once, the broker sees exactly one ack or nack per received message, in arrival order |
| Listening.SettledAfterRound | lib/pulsar-job-rails/consume.rb:40-64 | the inductive step: one pass followed by an in-order listen is in order |
| Listening.ReceivedRound | lib/pulsar-job-rails/consume.rb:44-56 | a pass that receives a message hands it to `handle` and goes on |
| Listening.SleepsBounded | lib/pulsar-job-rails/consume.rb:118-127 | the shutdown wait takes at most `max + 1` one-second steps, each while running, and ends when not running or out of budget |
| Consume.HandlingSettlesOnce | lib/pulsar-job-rails/consume.rb:67-91 | with a consumer, `handle` settles every message exactly once and never raises |
| Consume.ListenSettlesEachMessage | lib/pulsar-job-rails/consume.rb:38-91 | over any rounds and broker answers, each received message is settled exactly once, in order, and only a non-standard receive error ends the listen |
| Consume.OnlyFatalEscapes | lib/pulsar-job-rails/consume.rb:57-60 | with a `handle` that never raises, only a non-standard error ends `listen` |
| Consume.SubscribeError | lib/pulsar-job-rails/consume.rb:31-35 | `TopicNotFound` becomes `JobTopicNotFoundError`; anything else is re-raised unchanged |
| Consume.Consume.constructor | lib/pulsar-job-rails/consume.rb:13-19 | no consumer, no listener, not running |
| Consume.Consume.Handle | lib/pulsar-job-rails/consume.rb:67-114 | the job is reset and exactly the settlement `Handling` prescribes reaches the broker |
| Consume.Consume.Pass | lib/pulsar-job-rails/consume.rb:41-63 | one pass logs exactly one `Round`; the job is reset exactly when a message was handled |
| Consume.Consume.Turn | lib/pulsar-job-rails/consume.rb:40-64 | one turn advances the listen by one pass |
| Consume.Consume.Listen | lib/pulsar-job-rails/consume.rb:38-65 | the log grows by exactly `Rounds` with this listener's `handle`; what escapes is its error |
| Consume.Consume.Loop | lib/pulsar-job-rails/consume.rb:40-64 | the loop runs until its passes are done or an error escapes |
| Consume.Consume.SubscribeBang | lib/pulsar-job-rails/consume.rb:21-36 | without topic or subscription, `InvalidJobConsumerOptionsError` with no broker call and the pool untouched; otherwise the pool answers (the cached consumer with no broker call, or one `instance_exec` with the job class's consumer type), its error is mapped by `SubscribeError`, and on success the consumer is stored under the key and the log grows by exactly the listen's `Rounds`, whose escaping error is mapped the same way |
| Consume.Consume.Shutdown | lib/pulsar-job-rails/consume.rb:116-130 | the listener is finished, the wait is `Sleeps`, then the consumer is closed exactly once |
| Consume.New | lib/pulsar-job-rails/consume.rb:13-19 | `JobClassNotConfiguredError` exactly when both are nil; a given job wins over a new one of the class |
| LegacyConsumer.LegacyHandlingSettles | lib/pulsar-job-rails/consumer.rb:64-98 | exactly one settlement, an acknowledge exactly on success or `ArgumentError`; a non-standard error settles nothing and escapes |
| LegacyConsumer.LegacyListenSettlesEachMessage | lib/pulsar-job-rails/consumer.rb:38-98 | when `perform` raises only standard errors, each received message is settled once, in order |
| LegacyConsumer.InheritedPerformEndsListen | lib/pulsar-job-rails/consumer.rb:55-62 | with the inherited `perform`, the first received message ends the listen unsettled |
| LegacyConsumer.Consumer.constructor | lib/pulsar-job-rails/consumer.rb:13-19 | no consumer, no listener, not running |
| LegacyConsumer.Consumer.Handle | lib/pulsar-job-rails/consumer.rb:64-98 | the log grows by exactly `LegacyHandling`'s settlement and only its fatal error escapes |
| LegacyConsumer.Consumer.Pass | lib/pulsar-job-rails/consumer.rb:40-60 | one pass logs exactly one `Round` |
| LegacyConsumer.Consumer.Turn | lib/pulsar-job-rails/consumer.rb:40-61 | one turn advances the listen by one pass |
| LegacyConsumer.Consumer.Listen | lib/pulsar-job-rails/consumer.rb:38-62 | the log grows by exactly `Rounds` with `LegacyHandling` |
| LegacyConsumer.Consumer.Loop | lib/pulsar-job-rails/consumer.rb:40-61 | the loop runs until its passes are done or an error escapes |
| LegacyConsumer.Consumer.SubscribeBang | lib/pulsar-job-rails/consumer.rb:21-36 | without topic or subscription, `InvalidJobConsumerOptionsError` with no broker call; otherwise one subscribe on the shared client, errors mapped by `SubscribeError`, then the listen |
| LegacyConsumer.Consumer.Shutdown | lib/pulsar-job-rails/consumer.rb:100-114 | the listener is finished, the wait is `Sleeps`, then the consumer is closed exactly once |
| LegacyConsumer.New | lib/pulsar-job-rails/consumer.rb:13-19 | `JobClassNotConfiguredError` exactly when both are nil; a given job wins |
| AsyncWrapper.Constantize | lib/pulsar-job-rails/async/wrapper.rb:29 | succeeds exactly for a string naming a known class; otherwise a `NameError` |
| AsyncWrapper.ToSym | lib/pulsar-job-rails/async/wrapper.rb:35-37 | succeeds exactly on strings, with the same name; otherwise a `NameError` (`NoMethodError`) |
| AsyncWrapper.CallArgs | lib/pulsar-job-rails/async/wrapper.rb:35-37 | missing or falsy `args` means no arguments; a list passes its elements |
| AsyncWrapper.Rescue | lib/pulsar-job-rails/async/wrapper.rb:39-40 | a `NameError` becomes `AsyncInvalidContextError`; any other error is unchanged |
| AsyncWrapper.RescueOutcome | lib/pulsar-job-rails/async/wrapper.rb:39-40 | a return is kept, a raise goes through `Rescue` |
| AsyncWrapper.PerformRaisesNoNameError | lib/pulsar-job-rails/async/wrapper.rb:28-41 | no `NameError` leaves `perform` |
| AsyncWrapper.UnknownClassIsInvalidContext | lib/pulsar-job-rails/async/wrapper.rb:29-30 | `klass` fails to resolve exactly when it is not a known class name; then `AsyncInvalidContextError` is raised and `@instance` is kept |
| AsyncWrapper.PerformDispatches | lib/pulsar-job-rails/async/wrapper.rb:28-41 | a present and found `id` calls the record, otherwise the class; missing `args` means none; a failing `find` raises its rescued error |
| AsyncWrapper.EnqueuePayload | lib/pulsar-job-rails/async/wrapper.rb:55-62 | the enqueued payload is a hash |
| AsyncWrapper.EnqueuePayloadFields | lib/pulsar-job-rails/async/wrapper.rb:55-62 | exactly `klass`, `method`, `args`, then `id` only for a record that responds to `id`, each with its value |
| AsyncWrapper.EnqueuePayloadKeys | lib/pulsar-job-rails/async/wrapper.rb:55-62 | the key order of the enqueued payload |
| AsyncWrapper.EnqueuePayloadLookups | lib/pulsar-job-rails/async/wrapper.rb:55-62 | the value under each key of the enqueued payload |
| AsyncWrapper.StampedEnqueueLookups | lib/pulsar-job-rails/async/wrapper.rb:66-67 | stamping keeps the enqueued payload's fields |
| AsyncWrapper.EnqueuedCallIsPerformed | lib/pulsar-job-rails/async/wrapper.rb:28-67 | enqueue/perform round trip: the published payload makes `perform` call the same method with the same args, on the class or on the record `find` returns for the enqueued `id` |
| AsyncWrapper.Assigned | lib/pulsar-job-rails/async/wrapper.rb:18-20 | assigning `instance` sets only the record; any other key leaves the record unchanged, and only `klass` changes the class |
| AsyncWrapper.LastInstanceWins | lib/pulsar-job-rails/async/wrapper.rb:16-22 | after `set`, the record is the one from the last `instance` key |
| AsyncWrapper.InstanceKeptWithoutKey | lib/pulsar-job-rails/async/wrapper.rb:16-22 | without an `instance` key, `set` keeps the record |
| AsyncWrapper.AssignedIdempotent | lib/pulsar-job-rails/async/wrapper.rb:18-20 | assigning the same key twice in a row is assigning it once |
| AsyncWrapper.Wrapper.constructor | lib/pulsar-job-rails/async/wrapper.rb:11-14 | the given `klass`, a nil `instance`, and inherited fields all nil |
| AsyncWrapper.Wrapper.Perform | lib/pulsar-job-rails/async/wrapper.rb:28-41 | returns `PerformOutcome` and leaves `@instance` as `InstanceAfter` |
| AsyncWrapper.Wrapper.Enqueue | lib/pulsar-job-rails/async/wrapper.rb:48-81 | method and args are stored first; the caller check comes before the context check, each raising before any publish; a success ends with the stamped enqueue payload sent with empty options by the pool's producer for the job's topic, the only delivery event of the call |
| AsyncWrapper.Wrapper.MethodMissing | lib/pulsar-job-rails/async/wrapper.rb:43-46 | enqueues the call and passes up what `enqueue` raised; with no error, the stamped enqueue payload was the call's one send, by the pool's producer for the job's topic |
| AsyncWrapper.Wrapper.Assign | lib/pulsar-job-rails/async/wrapper.rb:19 | the state moves as `Assigned`; a key with a writer makes no broker call |
| AsyncWrapper.Wrapper.Set | lib/pulsar-job-rails/async/wrapper.rb:16-22 | a non-hash changes nothing; a hash assigns every key in order, stopping only at an enqueue that raised |

## Left out

- Threads in `listen` (`Thread.new ... join`) and the `ListenerToken`: the loop is run sequentially for a given number of passes (`rounds`). An unbounded loop is not modelled; `@is_running` is modelled at the end of the passes.
- The mutexes of the three pools: each pool operation is atomic.
- ActiveSupport callbacks: `run_callbacks(:perform) { body }` is just `body`.
- Logging and the `puts` debug lines of `consumer.rb`.
- `sleep` (the retry backoff and the one-second shutdown steps): the shutdown wait is counted in steps (`Sleeps`), and what the listener reports at each check is a parameter.
- `DateTime.now`: the `sent_at` value is a parameter.
- `Socket.gethostname` / `SecureRandom.hex`: the host identity is a configuration field.
- `shuffle` randomness: a `Shuffler` parameter, a function whose type requires it to return a permutation of its input.
- The JSON grammar: `Codec` is abstract, and the parse-after-serialize round trip is a precondition.
- The pulsar-client library: handles are opaque. `acknowledge`, `negative_acknowledge` and `close` are modelled as never raising; connect, subscribe, create-producer, receive and send answer from the oracle.
- Ruby reflection: `constantize`, `find`, `respond_to?` and `send` in `async/wrapper.rb` are function fields of the `Target` and `Instance` datatypes. The job's handler method and `rescue_with_handler` are function fields of `JobClass`.
- The job's `handlerMethod` stands for the single `@method` field. Base's `method` accessor (`base.rb:12`) reads and writes it: it is set to `perform` at `base.rb:34`, read at `producer.rb:40` and written at `async/wrapper.rb:49`. The model also takes `_method` (`produce.rb:15`, `produce.rb:36`, `consume.rb:96`, `consumes/base.rb:45`) to read that same field, as the `perform` that `JobBase.Job.constructor` sets. `_method` is not defined by `base.rb`, so this holds only for a job class that defines it that way.
- `dlq_topic` and `max_redelivery_count` are not defined by `base.rb`. They are fields of `JobClass`.
- Settings.Default: `configuration.rb:4-20` defines only the broker URL, the default subscription, topic and consumer type, the logger and the shutdown wait. As written, each of the following reads therefore raises `NoMethodError`:
  - `pulsar_broker_operation_timeout_seconds` and `pulsar_broker_connection_timeout_ms` (`pools/client.rb:17-18`);
  - `pulsar_broker_max_retries` (`pools/client.rb:25`);
  - `pulsar_broker_retry_interval_seconds` (`pools/client.rb:54`);
  - `consumer_receive_timeout_millis` (`consumes/one.rb:14`);
  - `producer_send_timeout_millis` (`pools/producers.rb:40`).
  So as written, every pool `instance_exec`, and with it every pooled subscribe and producer creation, fails before it reaches the broker, and so does every `Consumes::One#receive`. The model does not capture that failure. It reads the retry budget, the receive timeout and the send timeout as configured values (`Settings.Configuration` fields, parameters of `Settings.Default`). The two connection timeouts and the retry interval are not modelled.
- JobBase.JobTopic, JobBase.JobSubscription, JobBase.ConsumerTypeOf: a class's override of `topic`, `subscription` or `consumer_type` is a fixed answer that the class declares; `topic` and `subscription` overrides may answer nil. An override that computes its answer from the job's fields or the configuration is not modelled, and neither is a `consumer_type` override that answers nil.
- The job model assumes a job class that includes the `Context` module of `context.rb` (`args`, `args=`, `reset_job_context`) and defines `raw=`, `_method`, `dlq_topic`, `max_redelivery_count` and `rescue_with_handler`. `base.rb` itself defines none of these. For a job that only subclasses `Base`, `job.raw = raw_payload` (`consumes/base.rb:10`) raises `NoMethodError` outside the rescue, so the message is neither acknowledged nor nacked. That path is not modelled.
- Exception messages other than the ones named in contracts.
- `present?` on a record or message object is modelled as "not nil".
- `Client.instance` in `producer.rb` and `consumer.rb`: the shared client, or the error its connection raised, is a parameter.
- ConsumerPools.Key: `Quote` wraps the topic in double quotes without escaping, while Ruby's `inspect` escapes `"`, `\` and control characters. The key is exact only for topics without those characters, and `KeyInjective` is stated only for quote-free topics.
- Payloads.Stamp: keys are strings, where Ruby's envelope uses symbol keys (`:job`, `:method`, `:args`, `:sent_at`). A payload that already holds the string key `"sent_at"` keeps it in Ruby beside the new symbol key, and `to_json` writes the name twice; `Stamp` replaces the value instead.
- Ruby 3 keyword-argument conversion of the raw-mode hash: the handler receives the hash as one argument.
- AsyncWrapper.Wrapper.Set: a non-string value assigned to `topic`, `subscription` or `method` is read as nil. Nothing is stated about the broker effects of an enqueue reached through an unknown key. Writers that the model keeps no field for change nothing.
- The async wrapper is not connected to the consumers in the model: its `perform` is modelled on the decoded payload directly.
- `async_job.rb`, `asyncable.rb`, `consumable.rb`, `wrapper.rb`, `client.rb`, `cli.rb`, `pools.rb` and `callbacks.rb` are not part of this model (unused, reflection-only or glue code).
- `perform_later` in `base.rb` calls an undefined `args` and is not modelled.

## Findings

| source | as written | input that shows it | evidently intended | confidence | as-written member | corrected member |
|---|---|---|---|---|---|---|
| lib/pulsar-job-rails/consumes/base.rb:29 | `ex.is_a? ArgumentError \|\| redelivery_count >= job.max_redelivery_count` parses as `ex.is_a?(ArgumentError \|\| ...)`, so only `ArgumentError` routes to the dead-letter topic | a `RuntimeError` on a message with redelivery count 3 and maximum 3 is negatively acknowledged again | route when the error is an `ArgumentError` or the redelivery count reached the maximum | not executed | Settlement.ExhaustedMessageNotRouted | Consumes.Handler.OnError |
| lib/pulsar-job-rails/consumes/one.rb:56 | `Produce.new(job: job)` publishes to the job's own topic, so the dead letter goes back to the topic it came from; lib/pulsar-job-rails/consumes/batched.rb:44 does the same | a job on "orders" with `dlq_topic` "orders-dlq" republishes its failed message to "orders" | publish the raw bytes to `dlq_topic` | not executed | Settlement.AsWrittenRepublishesToJobTopic | Consumes.Handler.SendToDlq |

Both findings are modelled by the handler's `rule` field:
- `AsWritten` reproduces the code.
- `Intended` routes on the redelivery count too, and sends the dead letter to `dlq_topic`.

`Consumes.Handler.OnError` and `Consumes.Handler.SendToDlq` are proved for either rule. `Settlement.RoutesToDlq` and `Settlement.DlqTarget` give the decision and the target topic under each.

/** `PulsarJob::Pools::Consumers`: the process-wide cache of subscribed consumers, keyed
    by the interpolated `"#{topic}-#{subscription}"`. */
module ConsumerPools {
  import opened Wrappers
  import opened Values
  import opened Pulsar
  import opened ClientPools

  /** One cached consumer under the key it was subscribed with. */
  datatype Slot = Slot(key: string, consumer: Handle)

  /** `hash[key]`: the consumer stored under `key`, if any. */
  function Find(es: seq<Slot>, key: string): (r: Option<Handle>)
    ensures r.Some? <==> exists i :: 0 <= i < |es| && es[i].key == key
    ensures r.Some? ==> exists i :: 0 <= i < |es| && es[i] == Slot(key, r.value)
  {
    if |es| == 0 then None
    else if es[0].key == key then Some(es[0].consumer)
    else
      var r := Find(es[1..], key);
      assert forall i :: 0 < i < |es| ==> es[i] == es[1..][i - 1];
      r
  }

  /** Appending a slot for a new key answers that key and leaves every other key alone. */
  lemma {:induction false} FindAppend(es: seq<Slot>, key: string, c: Handle, other: string)
    requires Find(es, key).None?
    ensures Find(es + [Slot(key, c)], key) == Some(c)
    ensures other != key ==> Find(es + [Slot(key, c)], other) == Find(es, other)
  {
    if |es| > 0 {
      assert (es + [Slot(key, c)])[1..] == es[1..] + [Slot(key, c)];
      FindAppend(es[1..], key, c, other);
    }
  }

  /** `s.inspect` for a string without quotes or escapes in it. */
  function Quote(s: string): string {
    "\"" + s + "\""
  }

  /** `topics.inspect` for a list of strings: `["a", "b"]`. */
  function InspectList(ts: seq<string>): (r: string)
    ensures |r| >= 2 && r[0] == '[' && r[|r| - 1] == ']'
  {
    "[" + InspectItems(ts) + "]"
  }

  function InspectItems(ts: seq<string>): string {
    if |ts| == 0 then ""
    else if |ts| == 1 then Quote(ts[0])
    else Quote(ts[0]) + ", " + InspectItems(ts[1..])
  }

  /** The cache key `"#{topic}-#{subscription}"`, for the list of topics the listener
      passes. */
  function Key(topics: seq<string>, subscription: string): (k: string)
    ensures InspectList(topics) <= k
    ensures |k| == |InspectList(topics)| + 1 + |subscription|
    ensures k[|InspectList(topics)|..] == "-" + subscription
  {
    InspectList(topics) + "-" + subscription
  }

  /** The position of the first double quote in `s`, or its length. */
  function FirstQuote(s: string): (n: nat)
    ensures n <= |s|
  {
    if |s| == 0 || s[0] == '"' then 0 else 1 + FirstQuote(s[1..])
  }

  lemma {:induction false} FirstQuoteAfter(t: string, rest: string)
    requires '"' !in t
    ensures FirstQuote(t + "\"" + rest) == |t|
  {
    if |t| > 0 {
      assert (t + "\"" + rest)[1..] == t[1..] + "\"" + rest;
      FirstQuoteAfter(t[1..], rest);
    }
  }

  /** For one topic without a double quote in it, the key names the topic and the
      subscription unambiguously: two subscriptions share a consumer only when both
      agree. */
  lemma KeyInjective(t1: string, s1: string, t2: string, s2: string)
    requires '"' !in t1 && '"' !in t2
    requires Key([t1], s1) == Key([t2], s2)
    ensures t1 == t2 && s1 == s2
  {
    var k := Key([t1], s1);
    assert k[2..] == t1 + "\"" + ("]-" + s1);
    assert k[2..] == t2 + "\"" + ("]-" + s2);
    FirstQuoteAfter(t1, "]-" + s1);
    FirstQuoteAfter(t2, "]-" + s2);
    assert t1 == k[2..2 + |t1|] == t2;
    assert s1 == k[|t1| + 5..] == s2;
  }

  /** One `consumer.close` per cached consumer, in insertion order. */
  function Closes(es: seq<Slot>): (r: seq<Request>)
    ensures |r| == |es|
    ensures forall i :: 0 <= i < |es| ==> r[i] == CloseConsumer(es[i].consumer)
  {
    if |es| == 0 then [] else Closes(es[..|es| - 1]) + [CloseConsumer(es[|es| - 1].consumer)]
  }

  class ConsumerPool {
    const clients: ClientPool
    /** `$pulsar_job_pool_consumers`: nil until first used. */
    var slots: Option<seq<Slot>>

    constructor (clients: ClientPool)
      ensures this.clients == clients && slots == None
    {
      this.clients := clients;
      slots := None;
    }

    function Entries(): seq<Slot>
      reads this
    {
      slots.GetOr([])
    }

    /** `get(topic)`: read the entry stored under `topic`, creating an empty map first
        if there is none. */
    method Get(topic: string) returns (r: Option<Handle>)
      modifies this
      ensures slots == Some(old(Entries()))
      ensures r == Find(Entries(), topic)
    {
      if slots.None? {
        slots := Some([]);
      }
      r := Find(slots.value, topic);
    }

    /** `subscribe(topics, subscription, consumer_type:)`: the cached consumer under the
        key when there is one, without any call to the broker; otherwise one
        `instance_exec` that subscribes, whose consumer is stored under the key. */
    method Subscribe(topics: seq<string>, subscription: string, consumerType: ConsumerType)
      returns (r: Result<Handle, Error>)
      modifies this, clients, clients.broker
      ensures var key := Key(topics, subscription);
              old(Find(Entries(), key)).Some? ==>
                r == Success(old(Find(Entries(), key)).value) && slots == Some(old(Entries())) &&
                unchanged(clients, clients.broker)
      ensures var key := Key(topics, subscription);
              old(Find(Entries(), key)).None? ==>
                clients.Executed(SubscribeTo(topics, subscription, consumerType), r) &&
                slots == Some(if r.Success? then old(Entries()) + [Slot(key, r.value)] else old(Entries()))
      ensures r.Success? ==> Find(Entries(), Key(topics, subscription)) == Some(r.value)
      ensures forall k :: k != Key(topics, subscription) ==> Find(Entries(), k) == old(Find(Entries(), k))
    {
      var key := Key(topics, subscription);
      var es := Entries();
      slots := Some(es);
      var hit := Find(es, key);
      if hit.Some? {
        return Success(hit.value);
      }
      r := clients.InstanceExec(SubscribeTo(topics, subscription, consumerType));
      if r.Success? {
        slots := Some(es + [Slot(key, r.value)]);
        FindAppend(es, key, r.value, key);
        forall k | k != key ensures Find(Entries(), k) == Find(es, k) {
          FindAppend(es, key, r.value, k);
        }
      }
    }

    /** `shutdown`: close every cached consumer once, in insertion order; the cache is
        kept as it is. */
    method Shutdown()
      modifies clients.broker
      ensures clients.broker.log == old(clients.broker.log) + Closes(Entries())
    {
      var es := Entries();
      var i := 0;
      while i < |es|
        invariant 0 <= i <= |es|
        invariant clients.broker.log == old(clients.broker.log) + Closes(es[..i])
      {
        assert es[..i + 1][..i] == es[..i];
        clients.broker.Tell(CloseConsumer(es[i].consumer));
        i := i + 1;
      }
      assert es[..i] == es;
    }
  }

  /** The cache at work: a second `subscribe` with the same topics and subscription
      answers the consumer the first one opened, whatever options it passes, and makes
      no call to the broker. `mid` is the broker log between the two calls. */
  method SubscribeTwice(pool: ConsumerPool, topics: seq<string>, subscription: string,
                        firstType: ConsumerType, secondType: ConsumerType)
    returns (first: Result<Handle, Error>, second: Result<Handle, Error>, ghost mid: seq<Request>)
    modifies pool, pool.clients, pool.clients.broker
    ensures first.Success? ==> second == first && pool.clients.broker.log == mid
  {
    first := pool.Subscribe(topics, subscription, firstType);
    mid := pool.clients.broker.log;
    second := pool.Subscribe(topics, subscription, secondType);
  }
}

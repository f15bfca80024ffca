/** How message bodies become the values a job sees, and how the publishers build the
    envelopes they send: `process_payload`, the `args` extraction and splat shared by the
    consumers, and the `{job, method, args, sent_at}` envelope of the producers. */
module Payloads {
  import opened Wrappers
  import opened Values

  const ArgsKey: string := "args"
  const JobKey: string := "job"
  const MethodKey: string := "method"
  const SentAtKey: string := "sent_at"

  /** `JSON.parse(msg.data) rescue nil`, then `data || msg.data`. */
  function ProcessPayload(codec: Codec, data: string): (r: Value)
    ensures Truthy(r)
    ensures r == Str(data) || codec.parse(data) == Some(r)
    ensures codec.parse(data).Some? && Truthy(codec.parse(data).value) ==> r == codec.parse(data).value
    ensures codec.parse(data).None? || !Truthy(codec.parse(data).value) ==> r == Str(data)
  {
    match codec.parse(data)
    case Some(v) => if Truthy(v) then v else Str(data)
    case None => Str(data)
  }

  /** A body that does not parse, or parses to `null` or `false`, reaches the job as the
      raw string. */
  lemma ProcessPayloadFallback(codec: Codec, data: string)
    requires codec.parse(data).None? || !Truthy(codec.parse(data).value)
    ensures ProcessPayload(codec, data) == Str(data)
  {
  }

  /** A body that the publishers serialized from a truthy value reaches the job as that
      value. */
  lemma ProcessPayloadOfSerialized(codec: Codec, v: Value)
    requires RoundTrips(codec)
    requires Truthy(v)
    ensures ProcessPayload(codec, codec.serialize(v)) == v
  {
    assert codec.parse(codec.serialize(v)) == Some(v);
  }

  /** `t` occurs in `s`. */
  predicate IsSubstring(t: string, s: string)
    decreases |s|
  {
    t <= s || (|s| > 0 && IsSubstring(t, s[1..]))
  }

  /** `payload.try(:[], key)` for a string key: a hash looks the key up; a string
      answers the key when it contains it (`String#[]` with a string argument); `nil` and
      booleans answer nil (`try` on an object without `[]`); lists and integers raise
      `TypeError` because their `[]` wants an integer index. */
  function Field(payload: Value, key: string): (r: Result<Value, Error>)
    ensures r.Failure? <==> payload.List? || payload.Int?
    ensures r.Failure? ==> IsStandardError(r.error) && !IsNameError(r.error)
    ensures payload.Hash? ==> r == Success(Lookup(payload.entries, key).GetOr(Nil))
    ensures payload.Str? ==> r.Success? && (r.value == Str(key) <==> IsSubstring(key, payload.s))
    ensures payload.Str? ==> r.value == Str(key) || r.value == Nil
    ensures payload.Nil? || payload.Bool? ==> r == Success(Nil)
  {
    match payload
    case Hash(es) => Success(Lookup(es, key).GetOr(Nil))
    case Str(s) => Success(if IsSubstring(key, s) then Str(key) else Nil)
    case List(_) => Failure(OtherStandardError("TypeError"))
    case Int(_) => Failure(OtherStandardError("TypeError"))
    case Nil => Success(Nil)
    case Bool(_) => Success(Nil)
  }

  /** `args = args.values if args.is_a?(Hash)`: hash keys are dropped, values kept in
      insertion order; anything else is left alone. */
  function Flatten(args: Value): (r: Value)
    ensures !r.Hash?
    ensures args.Hash? ==> r.List? && |r.items| == |args.entries|
    ensures args.Hash? ==> forall i :: 0 <= i < |args.entries| ==> r.items[i] == args.entries[i].val
    ensures !args.Hash? ==> r == args
  {
    if args.Hash? then List(HashValues(args.entries)) else args
  }

  /** The job's `args` in args mode: the `args` field of the payload, flattened. */
  function PositionalArgs(payload: Value): (r: Result<Value, Error>)
    ensures r.Success? ==> !r.value.Hash?
    ensures r.Failure? <==> payload.List? || payload.Int?
    ensures payload.Hash? ==> r == Success(Flatten(Lookup(payload.entries, ArgsKey).GetOr(Nil)))
  {
    match Field(payload, ArgsKey)
    case Success(a) => Success(Flatten(a))
    case Failure(e) => Failure(e)
  }

  /** `hash.to_a`: each entry as a two-element list. */
  function HashPairs(es: seq<Pair>): (r: seq<Value>)
    ensures |r| == |es|
    ensures forall i :: 0 <= i < |es| ==> r[i] == List([Str(es[i].key), es[i].val])
  {
    if |es| == 0 then [] else [List([Str(es[0].key), es[0].val])] + HashPairs(es[1..])
  }

  /** `*args` in a call: nil passes nothing, a list passes its elements, a hash its
      pairs, anything else passes itself. */
  function Splat(v: Value): (r: seq<Value>)
    ensures v.Nil? ==> r == []
    ensures v.List? ==> r == v.items
    ensures v.Hash? ==> |r| == |v.entries|
    ensures !(v.Nil? || v.List? || v.Hash?) ==> r == [v]
  {
    match v
    case Nil => []
    case List(xs) => xs
    case Hash(es) => HashPairs(es)
    case _ => [v]
  }

  /** A method name as it appears in a JSON envelope. */
  function MethodValue(m: Option<string>): (r: Value)
    ensures m.None? <==> r.Nil?
  {
    match m
    case Some(name) => Str(name)
    case None => Nil
  }

  /** `{job: <class name>, method: <method>, args: <args>}`. */
  function Envelope(jobName: string, m: Option<string>, args: Value): (r: Value)
    ensures r.Hash? && |r.entries| == 3
  {
    Hash([Pair(JobKey, Str(jobName)), Pair(MethodKey, MethodValue(m)), Pair(ArgsKey, args)])
  }

  /** The envelope holds exactly the keys `job`, `method` and `args`, in that order, with
      the class name, the method and the arguments. */
  lemma EnvelopeFields(jobName: string, m: Option<string>, args: Value)
    ensures var r := Envelope(jobName, m, args);
            Keys(r.entries) == [JobKey, MethodKey, ArgsKey] &&
            Lookup(r.entries, JobKey) == Some(Str(jobName)) &&
            Lookup(r.entries, MethodKey) == Some(MethodValue(m)) &&
            Lookup(r.entries, ArgsKey) == Some(args)
  {
    var es := Envelope(jobName, m, args).entries;
    assert JobKey[0] != ArgsKey[0] && MethodKey[0] != ArgsKey[0] && JobKey[0] != MethodKey[0];
    assert Lookup(es[2..], ArgsKey) == Some(args);
    assert Lookup(es[1..], ArgsKey) == Some(args);
    assert Lookup(es[1..], MethodKey) == Some(MethodValue(m));
  }

  /** `payload[:sent_at] = now`, on a hash payload. */
  function Stamp(payload: Value, sentAt: string): (r: Value)
    requires payload.Hash?
    ensures r.Hash?
    ensures Lookup(r.entries, SentAtKey) == Some(Str(sentAt))
    ensures forall k :: k != SentAtKey ==> Lookup(r.entries, k) == Lookup(payload.entries, k)
  {
    PutThenLookup(payload.entries, SentAtKey, Str(sentAt));
    forall k | k != SentAtKey
      ensures Lookup(Put(payload.entries, SentAtKey, Str(sentAt)), k) == Lookup(payload.entries, k)
    {
      PutKeepsOthers(payload.entries, SentAtKey, Str(sentAt), k);
    }
    Hash(Put(payload.entries, SentAtKey, Str(sentAt)))
  }

  /** A stamped envelope holds exactly its three fields and then `sent_at`, in that
      order. */
  lemma StampedEnvelope(jobName: string, m: Option<string>, args: Value, sentAt: string)
    ensures Stamp(Envelope(jobName, m, args), sentAt).entries ==
            [Pair(JobKey, Str(jobName)), Pair(MethodKey, MethodValue(m)), Pair(ArgsKey, args), Pair(SentAtKey, Str(sentAt))]
  {
    var es := [Pair(JobKey, Str(jobName)), Pair(MethodKey, MethodValue(m)), Pair(ArgsKey, args)];
    var last := Pair(SentAtKey, Str(sentAt));
    assert Envelope(jobName, m, args).entries == es;
    assert Stamp(Envelope(jobName, m, args), sentAt).entries == Put(es, SentAtKey, Str(sentAt));
    assert es[0].key != SentAtKey && es[1].key != SentAtKey && es[2].key != SentAtKey by {
      assert SentAtKey[0] != JobKey[0] && SentAtKey[0] != MethodKey[0] && SentAtKey[0] != ArgsKey[0];
    }
    PutAbsent(es, SentAtKey, Str(sentAt));
    assert es + [last] == [Pair(JobKey, Str(jobName)), Pair(MethodKey, MethodValue(m)), Pair(ArgsKey, args), last];
  }

  /** A stamped envelope's keys: `job`, `method`, `args`, `sent_at`, in that order. */
  lemma StampedEnvelopeKeys(jobName: string, m: Option<string>, args: Value, sentAt: string)
    ensures Keys(Stamp(Envelope(jobName, m, args), sentAt).entries) == [JobKey, MethodKey, ArgsKey, SentAtKey]
  {
    StampedEnvelope(jobName, m, args, sentAt);
    var es := Stamp(Envelope(jobName, m, args), sentAt).entries;
    var want := [JobKey, MethodKey, ArgsKey, SentAtKey];
    assert forall i :: 0 <= i < 4 ==> Keys(es)[i] == want[i];
  }

  /** What a stamped envelope holds under each of its keys. */
  lemma StampedEnvelopeLookups(jobName: string, m: Option<string>, args: Value, sentAt: string)
    ensures var es := Stamp(Envelope(jobName, m, args), sentAt).entries;
            Lookup(es, JobKey) == Some(Str(jobName)) && Lookup(es, MethodKey) == Some(MethodValue(m)) &&
            Lookup(es, ArgsKey) == Some(args) && Lookup(es, SentAtKey) == Some(Str(sentAt))
  {
    EnvelopeFields(jobName, m, args);
    assert JobKey != SentAtKey && MethodKey != SentAtKey && ArgsKey != SentAtKey by {
      assert SentAtKey[0] != JobKey[0] && SentAtKey[0] != MethodKey[0] && SentAtKey[0] != ArgsKey[0];
    }
  }

  /** The publish/consume round trip: what a producer sends as the `args` of a stamped
      envelope is exactly what a consumer in args mode stores as the job's `args`, and
      the splat passes the same arguments, in the same order, to the handler. */
  lemma PublishedArgsReachHandler(codec: Codec, jobName: string, m: Option<string>, args: seq<Value>, sentAt: string)
    requires RoundTrips(codec)
    ensures var body := codec.serialize(Stamp(Envelope(jobName, m, List(args)), sentAt));
            PositionalArgs(ProcessPayload(codec, body)) == Success(List(args))
  {
    var sent := Stamp(Envelope(jobName, m, List(args)), sentAt);
    ProcessPayloadOfSerialized(codec, sent);
    EnvelopeFields(jobName, m, List(args));
    assert Lookup(sent.entries, ArgsKey) == Some(List(args));
  }
}

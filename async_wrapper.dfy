/** `PulsarJob::Async::Wrapper`: a job that stands in for a class (or one of its
    records). A call the wrapper does not define is enqueued as `{klass, method, args}`,
    plus the record's `id`; `perform` later looks the class up by name, finds the record
    again and makes the call. Ruby's reflection (`constantize`, `find`, `respond_to?`,
    `send`) is given as functions of the wrapped class and its records. */
module AsyncWrapper {
  import opened Wrappers
  import opened Values
  import opened Pulsar
  import opened Settings
  import opened Payloads
  import opened JobBase
  import opened JobContext
  import opened Producers

  const KlassKey: string := "klass"
  const IdKey: string := "id"

  /** A record of the wrapped class: the methods it responds to, its `id`, and what a
      call of each of its methods does. */
  datatype Instance = Instance(respondsTo: string -> bool, id: Value, call: (string, seq<Value>) -> Outcome)

  /** A wrapped class: its name, the class methods it responds to, `find` (a record, nil,
      or the error it raises) and what a call of each class method does. */
  datatype Target = Target(
    name: string,
    respondsTo: string -> bool,
    find: Value -> Result<Option<Instance>, Error>,
    call: (string, seq<Value>) -> Outcome)

  /** The classes `constantize` can reach, by name. */
  type Constants = string -> Option<Target>

  /** `value.constantize`: a string names a class or raises `NameError`; no other value
      has `constantize`. */
  function Constantize(constants: Constants, v: Value): (r: Result<Target, Error>)
    ensures r.Failure? ==> IsNameError(r.error)
    ensures r.Success? <==> v.Str? && constants(v.s).Some?
    ensures r.Success? ==> constants(v.s) == Some(r.value)
  {
    if !v.Str? then Failure(NoMethodError)
    else match constants(v.s)
      case Some(t) => Success(t)
      case None => Failure(NameError)
  }

  /** `value.to_sym`: only strings (and symbols, which JSON turns into strings) have it. */
  function ToSym(v: Value): (r: Result<string, Error>)
    ensures r.Success? <==> v.Str?
    ensures r.Success? ==> r.value == v.s
    ensures r.Failure? ==> IsNameError(r.error)
  {
    if v.Str? then Success(v.s) else Failure(NoMethodError)
  }

  /** `*(args || [])`. */
  function CallArgs(v: Value): (r: seq<Value>)
    ensures !Truthy(v) ==> r == []
    ensures v.List? ==> r == v.items
  {
    if Truthy(v) then Splat(v) else []
  }

  /** `rescue NameError => raise AsyncInvalidContextError`: a `NameError` (a
      `NoMethodError` included) is replaced, anything else escapes as it is. */
  function Rescue(e: Error): (r: Error)
    ensures !IsNameError(r)
    ensures IsNameError(e) ==> r == AsyncInvalidContext
    ensures !IsNameError(e) ==> r == e
  {
    if IsNameError(e) then AsyncInvalidContext else e
  }

  function RescueOutcome(o: Outcome): (r: Outcome)
    ensures o.Returned? ==> r == o
    ensures o.Raised? ==> r == Raised(Rescue(o.e))
  {
    match o
    case Returned(_) => o
    case Raised(e) => Raised(Rescue(e))
  }

  /** `payload["klass"].constantize`. */
  function Resolve(constants: Constants, payload: Value): Result<Target, Error> {
    match Field(payload, KlassKey)
    case Failure(e) => Failure(e)
    case Success(v) => Constantize(constants, v)
  }

  /** The record `perform` looks up: `klass.find(payload["id"])` when the id is present,
      nil otherwise. */
  function Found(t: Target, payload: Value): Result<Option<Instance>, Error> {
    match Field(payload, IdKey)
    case Failure(e) => Failure(e)
    case Success(v) => if Present(v) then t.find(v) else Success(None)
  }

  /** `receiver.send(payload["method"].to_sym, *(payload["args"] || []))`, sent to the
      record when there is one and to the class otherwise. */
  function Invoke(t: Target, found: Option<Instance>, payload: Value): Outcome {
    match Field(payload, MethodKey)
    case Failure(e) => Raised(e)
    case Success(mv) =>
      match ToSym(mv)
      case Failure(e) => Raised(e)
      case Success(m) =>
        match Field(payload, ArgsKey)
        case Failure(e) => Raised(e)
        case Success(a) =>
          if found.Some? then found.value.call(m, CallArgs(a)) else t.call(m, CallArgs(a))
  }

  /** What `perform(payload:)` returns or raises. */
  function PerformOutcome(constants: Constants, payload: Value): Outcome {
    match Resolve(constants, payload)
    case Failure(e) => Raised(Rescue(e))
    case Success(t) =>
      match Found(t, payload)
      case Failure(e) => Raised(Rescue(e))
      case Success(found) => RescueOutcome(Invoke(t, found, payload))
  }

  /** What `perform` leaves in `@instance`: untouched when the class does not resolve
      (the reset comes after `constantize`), nil when `find` raises or is not asked,
      the found record otherwise. */
  function InstanceAfter(constants: Constants, payload: Value, before: Option<Instance>): Option<Instance> {
    match Resolve(constants, payload)
    case Failure(_) => before
    case Success(t) =>
      match Found(t, payload)
      case Failure(_) => None
      case Success(found) => found
  }

  /** No `NameError` leaves `perform`: whatever it raises is `AsyncInvalidContextError`
      or an error that is not a `NameError`. */
  lemma PerformRaisesNoNameError(constants: Constants, payload: Value)
    ensures var r := PerformOutcome(constants, payload);
            r.Raised? ==> !IsNameError(r.e)
  {
  }

  /** A hash payload whose `klass` names no class (a missing key, a non-string or an
      unknown name) raises `AsyncInvalidContextError` and leaves `@instance` as it was;
      a known class never leaves it as it was unless the lookup gives it back. */
  lemma UnknownClassIsInvalidContext(constants: Constants, payload: Value, before: Option<Instance>)
    requires payload.Hash?
    ensures var k := Lookup(payload.entries, KlassKey).GetOr(Nil);
            !(k.Str? && constants(k.s).Some?) <==> Resolve(constants, payload).Failure?
    ensures Resolve(constants, payload).Failure? ==>
              PerformOutcome(constants, payload) == Raised(AsyncInvalidContext) &&
              InstanceAfter(constants, payload, before) == before
  {
  }

  /** Dispatch on a hash payload naming a known class and a method: with a present `id`
      that `find` resolves to a record, the record is called; with no present `id`, or
      one `find` maps to nil, the class is called; either way with the splatted `args`,
      and no `args` at all means no arguments. */
  lemma PerformDispatches(constants: Constants, payload: Value, t: Target, m: string)
    requires payload.Hash?
    requires Lookup(payload.entries, KlassKey) == Some(Str(t.name)) && constants(t.name) == Some(t)
    requires Lookup(payload.entries, MethodKey) == Some(Str(m))
    ensures var id := Lookup(payload.entries, IdKey).GetOr(Nil);
            var args := CallArgs(Lookup(payload.entries, ArgsKey).GetOr(Nil));
            var r := PerformOutcome(constants, payload);
            (Lookup(payload.entries, ArgsKey).None? ==> args == []) &&
            (!Present(id) ==> r == RescueOutcome(t.call(m, args)) &&
                              InstanceAfter(constants, payload, None) == None) &&
            (Present(id) && t.find(id).Success? ==>
               var f := t.find(id).value;
               InstanceAfter(constants, payload, None) == f &&
               r == RescueOutcome(if f.Some? then f.value.call(m, args) else t.call(m, args))) &&
            (Present(id) && t.find(id).Failure? ==> r == Raised(Rescue(t.find(id).error)))
  {
  }

  /** `validate_caller!`: the record, when there is one, or else the class must respond
      to the method. */
  predicate CallerMissing(t: Target, instance: Option<Instance>, m: string) {
    (instance.Some? && !instance.value.respondsTo(m)) || (instance.None? && !t.respondsTo(m))
  }

  /** The hash `enqueue` publishes: `{klass, method, args}`, then `id` when there is a
      record that responds to `id`. */
  function EnqueuePayload(t: Target, m: string, args: seq<Value>, instance: Option<Instance>): (r: Value)
    ensures r.Hash?
  {
    Hash([Pair(KlassKey, Str(t.name)), Pair(MethodKey, Str(m)), Pair(ArgsKey, List(args))] +
         (if instance.Some? && instance.value.respondsTo(IdKey) then [Pair(IdKey, instance.value.id)] else []))
  }

  /** The keys of the enqueued payload, in order, and what each holds. */
  lemma EnqueuePayloadFields(t: Target, m: string, args: seq<Value>, instance: Option<Instance>)
    ensures var p := EnqueuePayload(t, m, args, instance);
            var withId := instance.Some? && instance.value.respondsTo(IdKey);
            Keys(p.entries) == [KlassKey, MethodKey, ArgsKey] + (if withId then [IdKey] else []) &&
            Lookup(p.entries, KlassKey) == Some(Str(t.name)) &&
            Lookup(p.entries, MethodKey) == Some(Str(m)) &&
            Lookup(p.entries, ArgsKey) == Some(List(args)) &&
            Lookup(p.entries, IdKey) == (if withId then Some(instance.value.id) else None)
  {
    EnqueuePayloadKeys(t, m, args, instance);
    EnqueuePayloadLookups(t, m, args, instance);
  }

  lemma EnqueuePayloadKeys(t: Target, m: string, args: seq<Value>, instance: Option<Instance>)
    ensures var withId := instance.Some? && instance.value.respondsTo(IdKey);
            Keys(EnqueuePayload(t, m, args, instance).entries) ==
            [KlassKey, MethodKey, ArgsKey] + (if withId then [IdKey] else [])
  {
    var p := EnqueuePayload(t, m, args, instance);
    var keys := [KlassKey, MethodKey, ArgsKey] + (if instance.Some? && instance.value.respondsTo(IdKey) then [IdKey] else []);
    assert forall i :: 0 <= i < |keys| ==> Keys(p.entries)[i] == keys[i];
  }

  lemma EnqueuePayloadLookups(t: Target, m: string, args: seq<Value>, instance: Option<Instance>)
    ensures var p := EnqueuePayload(t, m, args, instance);
            var withId := instance.Some? && instance.value.respondsTo(IdKey);
            Lookup(p.entries, KlassKey) == Some(Str(t.name)) &&
            Lookup(p.entries, MethodKey) == Some(Str(m)) &&
            Lookup(p.entries, ArgsKey) == Some(List(args)) &&
            Lookup(p.entries, IdKey) == (if withId then Some(instance.value.id) else None)
  {
    var p := EnqueuePayload(t, m, args, instance);
    assert KlassKey[0] != MethodKey[0] && KlassKey[0] != ArgsKey[0] && KlassKey[0] != IdKey[0];
    assert MethodKey[0] != ArgsKey[0] && MethodKey[0] != IdKey[0] && ArgsKey[0] != IdKey[0];
    assert Lookup(p.entries[2..], ArgsKey) == Some(List(args));
    assert Lookup(p.entries[1..], ArgsKey) == Some(List(args));
    assert Lookup(p.entries[1..], MethodKey) == Some(Str(m));
    if instance.Some? && instance.value.respondsTo(IdKey) {
      assert Lookup(p.entries[3..], IdKey) == Some(instance.value.id);
      assert Lookup(p.entries[2..], IdKey) == Some(instance.value.id);
      assert Lookup(p.entries[1..], IdKey) == Some(instance.value.id);
    } else {
      assert Lookup(p.entries[3..], IdKey) == None;
      assert Lookup(p.entries[2..], IdKey) == None;
      assert Lookup(p.entries[1..], IdKey) == None;
    }
  }

  /** Stamping keeps what the enqueued payload holds under its own keys. */
  lemma StampedEnqueueLookups(t: Target, m: string, args: seq<Value>, instance: Option<Instance>, sentAt: string)
    ensures var p := Stamp(EnqueuePayload(t, m, args, instance), sentAt);
            var withId := instance.Some? && instance.value.respondsTo(IdKey);
            p.Hash? &&
            Lookup(p.entries, KlassKey) == Some(Str(t.name)) &&
            Lookup(p.entries, MethodKey) == Some(Str(m)) &&
            Lookup(p.entries, ArgsKey) == Some(List(args)) &&
            Lookup(p.entries, IdKey) == (if withId then Some(instance.value.id) else None)
  {
    EnqueuePayloadLookups(t, m, args, instance);
    assert KlassKey != SentAtKey && MethodKey != SentAtKey && ArgsKey != SentAtKey && IdKey != SentAtKey by {
      assert KlassKey[0] != SentAtKey[0] && MethodKey[0] != SentAtKey[0];
      assert ArgsKey[0] != SentAtKey[0] && IdKey[0] != SentAtKey[0];
    }
  }

  /** The enqueue/perform round trip: the payload `enqueue` publishes, once decoded,
      makes `perform` call the same method with the same arguments: on the class, or on
      the record `find` returns for the enqueued `id` when that id is present. */
  lemma EnqueuedCallIsPerformed(codec: Codec, constants: Constants, t: Target, m: string, args: seq<Value>,
                                instance: Option<Instance>, sentAt: string)
    requires RoundTrips(codec) && constants(t.name) == Some(t)
    ensures var body := codec.serialize(Stamp(EnqueuePayload(t, m, args, instance), sentAt));
            var payload := codec.parse(body).value;
            var id := if instance.Some? && instance.value.respondsTo(IdKey) then instance.value.id else Nil;
            var r := PerformOutcome(constants, payload);
            codec.parse(body).Some? &&
            (!Present(id) ==> r == RescueOutcome(t.call(m, args))) &&
            (Present(id) && t.find(id) == Success(None) ==> r == RescueOutcome(t.call(m, args))) &&
            (Present(id) && t.find(id).Success? && t.find(id).value.Some? ==>
               r == RescueOutcome(t.find(id).value.value.call(m, args))) &&
            (Present(id) && t.find(id).Failure? ==> r == Raised(Rescue(t.find(id).error)))
  {
    var payload := Stamp(EnqueuePayload(t, m, args, instance), sentAt);
    assert codec.parse(codec.serialize(payload)) == Some(payload);
    StampedEnqueueLookups(t, m, args, instance, sentAt);
    PerformDispatches(constants, payload, t, m);
  }

  /** One `key => value` of the hash given to `set`: a record for `instance`, a class for
      `klass`, or a plain value under any other key. */
  datatype Assignment =
    | AssignInstance(instance: Option<Instance>)
    | AssignKlass(klass: Target)
    | AssignField(key: string, value: Value)

  /** The writers a wrapper has: its own two accessors and those of `PulsarJob::Base`. */
  const Writers: set<string> := {"instance", "klass", "topic", "subscription", "method", "use_raw_payload",
                                 "payload", "created_at", "consumer_options", "backoff", "deliver_after",
                                 "deliver_at", "locale", "timezone", "result"}

  predicate HasWriter(a: Assignment) {
    a.AssignInstance? || a.AssignKlass? || a.key in Writers
  }

  /** The state `set` works on: the job's fields, `@klass` and `@instance`. */
  datatype WrapperState = WrapperState(job: JobState, klass: Target, instance: Option<Instance>)

  /** A string-valued writer given a value: a string, or nil for anything else. */
  function StringOf(v: Value): Option<string> {
    if v.Str? then Some(v.s) else None
  }

  /** `send("#{key}=", value)` on the state: the named field takes the value; a writer
      the model keeps no field for changes nothing; a key without a writer reaches
      `method_missing`, whose `enqueue` stores `key=` as the method and `[value]` as the
      args. */
  function Assigned(w: WrapperState, a: Assignment): (r: WrapperState)
    ensures a.AssignInstance? ==> r.instance == a.instance && r.job == w.job
    ensures !a.AssignInstance? ==> r.instance == w.instance
    ensures !a.AssignKlass? ==> r.klass == w.klass
  {
    match a
    case AssignInstance(i) => w.(instance := i)
    case AssignKlass(k) => w.(klass := k)
    case AssignField(key, v) =>
      var j := w.job;
      if key == "topic" then w.(job := j.(topic := StringOf(v)))
      else if key == "subscription" then w.(job := j.(subscription := StringOf(v)))
      else if key == "method" then w.(job := j.(handlerMethod := StringOf(v)))
      else if key == "payload" then w.(job := j.(payload := v))
      else if key == "created_at" then w.(job := j.(createdAt := v))
      else if key == "consumer_options" then w.(job := j.(consumerOptions := v))
      else if key == "locale" then w.(job := j.(locale := v))
      else if key == "timezone" then w.(job := j.(timezone := v))
      else if key == "result" then w.(job := j.(result := v))
      else if key in Writers then w
      else w.(job := j.(handlerMethod := Some(key + "="), args := List([v])))
  }

  /** The state after the first `|assigns|` assignments, in the hash's order. */
  function AssignedAll(w: WrapperState, assigns: seq<Assignment>): WrapperState
    decreases |assigns|
  {
    if |assigns| == 0 then w else Assigned(AssignedAll(w, assigns[..|assigns| - 1]), assigns[|assigns| - 1])
  }

  /** `set(instance: i)` and later keys that are not `instance`: the wrapper ends with
      the record of the last `instance` key. */
  lemma {:induction false} LastInstanceWins(w: WrapperState, assigns: seq<Assignment>, j: int)
    requires 0 <= j < |assigns| && assigns[j].AssignInstance?
    requires forall k :: j < k < |assigns| ==> !assigns[k].AssignInstance?
    ensures AssignedAll(w, assigns).instance == assigns[j].instance
    decreases |assigns|
  {
    if j < |assigns| - 1 {
      LastInstanceWins(w, assigns[..|assigns| - 1], j);
    }
  }

  /** Without an `instance` key, `set` keeps the record the wrapper had. */
  lemma {:induction false} InstanceKeptWithoutKey(w: WrapperState, assigns: seq<Assignment>)
    requires forall k :: 0 <= k < |assigns| ==> !assigns[k].AssignInstance?
    ensures AssignedAll(w, assigns).instance == w.instance
    decreases |assigns|
  {
    if |assigns| > 0 {
      InstanceKeptWithoutKey(w, assigns[..|assigns| - 1]);
    }
  }

  /** Assigning the same key twice in a row is assigning it once. */
  lemma AssignedIdempotent(w: WrapperState, a: Assignment)
    ensures Assigned(Assigned(w, a), a) == Assigned(w, a)
  {
  }

  /** The wrapper object; `job` holds the fields it inherits from `PulsarJob::Base`. */
  class Wrapper {
    const job: Job
    var klass: Target
    var instance: Option<Instance>

    /** `Wrapper.new(klass)`: `initialize` does not call `super`, so the inherited
        fields, the handler method included, are all nil. */
    constructor (jobClass: JobClass, klass: Target)
      ensures fresh(job) && job.klass == jobClass
      ensures job.State() == JobState(None, None, None, Nil, Nil, Nil, Nil, None, Nil, Nil, Nil)
      ensures this.klass == klass && instance == None
    {
      job := new Job.Bare(jobClass);
      this.klass := klass;
      instance := None;
    }

    function State(): WrapperState
      reads this, job
    {
      WrapperState(job.State(), klass, instance)
    }

    /** `payload_as_args?`: a wrapper is always called with the whole payload. */
    predicate PayloadAsArgs() {
      false
    }

    /** `perform(payload:, message_id:, raw:)`. */
    method Perform(constants: Constants, payload: Value) returns (r: Outcome)
      modifies this
      ensures klass == old(klass)
      ensures instance == InstanceAfter(constants, payload, old(instance))
      ensures r == PerformOutcome(constants, payload)
    {
      var resolved := Resolve(constants, payload);
      if resolved.Failure? {
        return Raised(Rescue(resolved.error));
      }
      var t := resolved.value;
      instance := None;
      var found := Found(t, payload);
      if found.Failure? {
        return Raised(Rescue(found.error));
      }
      instance := found.value;
      r := RescueOutcome(Invoke(t, instance, payload));
    }

    /** `enqueue(method_name, args)`: the method and args are stored first; then the
        caller is checked, then the context, and only then is the payload published on
        the job's topic through the producer pool. */
    method Enqueue(m: string, args: seq<Value>, pool: ProducerPool, codec: Codec, sentAt: string)
      returns (r: Result<bool, Error>)
      modifies job, pool, pool.clients, pool.clients.broker
      ensures klass == old(klass) && instance == old(instance)
      ensures job.State() == old(job.State()).(handlerMethod := Some(m), args := List(args))
      ensures CallerMissing(klass, instance, m) ==>
                r == Failure(AsyncMethodMissing) && unchanged(pool, pool.clients, pool.clients.broker)
      ensures !CallerMissing(klass, instance, m) && !job.ContextValid(pool.clients.cfg) ==>
                r == Failure(AsyncInvalidContext) && unchanged(pool, pool.clients, pool.clients.broker)
      ensures r.Success? ==>
                var log := pool.clients.broker.log;
                !CallerMissing(klass, instance, m) && job.ContextValid(pool.clients.cfg) &&
                |log| > 0 && log[|log| - 1].Send? && log[|log| - 1].sendOptions == NoOptions &&
                log[|log| - 1].body == codec.serialize(Stamp(EnqueuePayload(klass, m, args, instance), sentAt)) &&
                Some(log[|log| - 1].producer) == pool.Stored(TopicOf(job, pool.clients.cfg)) &&
                old(pool.clients.broker.log) <= log &&
                Delivered(log[|old(pool.clients.broker.log)|..]) == [log[|log| - 1]]
    {
      job.handlerMethod := Some(m);
      job.args := List(args);
      if CallerMissing(klass, instance, m) {
        return Failure(AsyncMethodMissing);
      }
      if !job.ContextValid(pool.clients.cfg) {
        return Failure(AsyncInvalidContext);
      }
      var payloads := EnqueuePayload(klass, m, args, instance);
      assert Outgoing(job.klass.name, job.handlerMethod, job.args, payloads, sentAt) == Success(Stamp(payloads, sentAt));
      r := PublishFor(pool, codec, job, payloads, sentAt);
    }

    /** `method_missing(name, *args)`: enqueue the call and return the wrapper itself
        (none here), or raise what `enqueue` raised. */
    method MethodMissing(m: string, args: seq<Value>, pool: ProducerPool, codec: Codec, sentAt: string)
      returns (err: Option<Error>)
      modifies job, pool, pool.clients, pool.clients.broker
      ensures klass == old(klass) && instance == old(instance)
      ensures job.State() == old(job.State()).(handlerMethod := Some(m), args := List(args))
      ensures CallerMissing(klass, instance, m) ==>
                err == Some(AsyncMethodMissing) && unchanged(pool, pool.clients, pool.clients.broker)
      ensures !CallerMissing(klass, instance, m) && !job.ContextValid(pool.clients.cfg) ==>
                err == Some(AsyncInvalidContext) && unchanged(pool, pool.clients, pool.clients.broker)
      ensures err.None? ==>
                var log := pool.clients.broker.log;
                |log| > 0 && log[|log| - 1].Send? && log[|log| - 1].sendOptions == NoOptions &&
                log[|log| - 1].body == codec.serialize(Stamp(EnqueuePayload(klass, m, args, instance), sentAt)) &&
                Some(log[|log| - 1].producer) == pool.Stored(TopicOf(job, pool.clients.cfg)) &&
                old(pool.clients.broker.log) <= log &&
                Delivered(log[|old(pool.clients.broker.log)|..]) == [log[|log| - 1]]
    {
      var r := Enqueue(m, args, pool, codec, sentAt);
      err := if r.Failure? then Some(r.error) else None;
    }

    /** `send("#{key}=", value)` for one key of the hash given to `set`. */
    method Assign(a: Assignment, pool: ProducerPool, codec: Codec, sentAt: string) returns (err: Option<Error>)
      modifies this, job, pool, pool.clients, pool.clients.broker
      ensures State() == Assigned(old(State()), a)
      ensures HasWriter(a) ==> err.None? && unchanged(pool, pool.clients, pool.clients.broker)
    {
      err := None;
      match a {
        case AssignInstance(x) =>
          instance := x;
        case AssignKlass(x) =>
          klass := x;
        case AssignField(key, v) =>
          if key == "topic" {
            job.topic := StringOf(v);
          } else if key == "subscription" {
            job.subscription := StringOf(v);
          } else if key == "method" {
            job.handlerMethod := StringOf(v);
          } else if key == "payload" {
            job.payload := v;
          } else if key == "created_at" {
            job.createdAt := v;
          } else if key == "consumer_options" {
            job.consumerOptions := v;
          } else if key == "locale" {
            job.locale := v;
          } else if key == "timezone" {
            job.timezone := v;
          } else if key == "result" {
            job.result := v;
          } else if key !in Writers {
            err := MethodMissing(key + "=", [v], pool, codec, sentAt);
          }
      }
    }

    /** `set(options)`: nothing for a value that is not a hash; otherwise each key's
        writer in turn, a key without a writer going through `method_missing`. The
        wrapper is returned (none here) unless such an enqueue raised. */
    method Set(options: Option<seq<Assignment>>, pool: ProducerPool, codec: Codec, sentAt: string)
      returns (err: Option<Error>)
      modifies this, job, pool, pool.clients, pool.clients.broker
      ensures options.None? ==> err.None? && State() == old(State()) &&
                                unchanged(pool, pool.clients, pool.clients.broker)
      ensures options.Some? && err.None? ==> State() == AssignedAll(old(State()), options.value)
      ensures options.Some? && (forall k :: 0 <= k < |options.value| ==> HasWriter(options.value[k])) ==>
                err.None? && unchanged(pool, pool.clients, pool.clients.broker)
      ensures options.Some? && err.Some? ==>
                exists n :: 0 <= n < |options.value| && !HasWriter(options.value[n]) &&
                            State() == AssignedAll(old(State()), options.value[..n + 1])
    {
      if options.None? {
        return None;
      }
      var assigns := options.value;
      var i := 0;
      err := None;
      while i < |assigns|
        invariant 0 <= i <= |assigns| && err.None?
        invariant State() == AssignedAll(old(State()), assigns[..i])
        invariant (forall k :: 0 <= k < i ==> HasWriter(assigns[k])) ==> unchanged(pool, pool.clients, pool.clients.broker)
      {
        assert assigns[..i + 1][..i] == assigns[..i];
        err := Assign(assigns[i], pool, codec, sentAt);
        if err.Some? {
          assert !HasWriter(assigns[i]) && State() == AssignedAll(old(State()), assigns[..i + 1]);
          return;
        }
        i := i + 1;
      }
      assert assigns[..|assigns|] == assigns;
    }
  }
}

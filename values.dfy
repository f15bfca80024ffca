/** Ruby values as the job runtime sees them: decoded JSON payloads and hashes, broker
    messages, and the exception classes the runtime raises or rescues. */
module Values {
  import opened Wrappers

  /** A decoded JSON value. `Hash` keeps Ruby's insertion order of its entries. */
  datatype Value =
    | Nil
    | Bool(b: bool)
    | Int(i: int)
    | Str(s: string)
    | List(items: seq<Value>)
    | Hash(entries: seq<Pair>)

  datatype Pair = Pair(key: string, val: Value)

  /** Ruby truthiness: only `nil` and `false` are falsy. */
  predicate Truthy(v: Value) {
    !(v.Nil? || v == Bool(false))
  }

  predicate IsSpace(c: char) {
    c == ' ' || c == '\t' || c == '\n' || c == '\r' || c == '\U{0B}' || c == '\U{0C}'
  }

  /** ActiveSupport's `present?` on a string: it holds a character that is not white space. */
  predicate PresentString(s: string) {
    exists i :: 0 <= i < |s| && !IsSpace(s[i])
  }

  /** ActiveSupport's `present?` on a value: not nil, not false, not a blank string,
      not an empty list or hash. */
  predicate Present(v: Value) {
    match v
    case Nil => false
    case Bool(b) => b
    case Int(_) => true
    case Str(s) => PresentString(s)
    case List(xs) => |xs| > 0
    case Hash(es) => |es| > 0
  }

  predicate PresentOption(o: Option<string>) {
    o.Some? && PresentString(o.value)
  }

  /** `hash[key]`: the value stored under `key`, or none. */
  function Lookup(es: seq<Pair>, key: string): (r: Option<Value>)
    ensures r.Some? <==> exists i :: 0 <= i < |es| && es[i].key == key
    ensures r.Some? ==> exists i :: 0 <= i < |es| && es[i].key == key && es[i].val == r.value
  {
    if |es| == 0 then None
    else if es[0].key == key then Some(es[0].val)
    else
      var r := Lookup(es[1..], key);
      assert forall i :: 0 < i < |es| ==> es[i] == es[1..][i - 1];
      r
  }

  function Keys(es: seq<Pair>): (ks: seq<string>)
    ensures |ks| == |es|
    ensures forall i :: 0 <= i < |es| ==> ks[i] == es[i].key
  {
    if |es| == 0 then [] else [es[0].key] + Keys(es[1..])
  }

  /** `hash.values`: the stored values in insertion order, keys dropped. */
  function HashValues(es: seq<Pair>): (vs: seq<Value>)
    ensures |vs| == |es|
    ensures forall i :: 0 <= i < |es| ==> vs[i] == es[i].val
  {
    if |es| == 0 then [] else [es[0].val] + HashValues(es[1..])
  }

  /** `hash[key] = v`: an existing key keeps its position and gets the new value; a new
      key is appended at the end. */
  function Put(es: seq<Pair>, key: string, v: Value): (r: seq<Pair>)
  {
    if |es| == 0 then [Pair(key, v)]
    else if es[0].key == key then [Pair(key, v)] + es[1..]
    else [es[0]] + Put(es[1..], key, v)
  }

  /** After `hash[key] = v` the key reads back as `v`. */
  lemma {:induction false} PutThenLookup(es: seq<Pair>, key: string, v: Value)
    ensures Lookup(Put(es, key, v), key) == Some(v)
  {
    if |es| > 0 && es[0].key != key {
      PutThenLookup(es[1..], key, v);
      assert Put(es, key, v)[1..] == Put(es[1..], key, v);
    }
  }

  /** `hash[key] = v` for a key not yet present appends the pair. */
  lemma {:induction false} PutAbsent(es: seq<Pair>, key: string, v: Value)
    requires forall i :: 0 <= i < |es| ==> es[i].key != key
    ensures Put(es, key, v) == es + [Pair(key, v)]
  {
    if |es| > 0 {
      PutAbsent(es[1..], key, v);
      assert es == [es[0]] + es[1..];
    }
  }

  /** `hash[key] = v` leaves every other key's value as it was. */
  lemma {:induction false} PutKeepsOthers(es: seq<Pair>, key: string, v: Value, other: string)
    requires other != key
    ensures Lookup(Put(es, key, v), other) == Lookup(es, other)
  {
    if |es| > 0 {
      if es[0].key == key {
        assert Put(es, key, v)[1..] == es[1..];
      } else if es[0].key != other {
        PutKeepsOthers(es[1..], key, v, other);
        assert Put(es, key, v)[1..] == Put(es[1..], key, v);
      }
    }
  }

  /** `hash[key] = v` keeps the keys already present, in their order, and appends `key`
      only when it was missing. */
  lemma {:induction false} PutKeys(es: seq<Pair>, key: string, v: Value)
    ensures Keys(Put(es, key, v)) ==
            if key in Keys(es) then Keys(es) else Keys(es) + [key]
  {
    if |es| > 0 && es[0].key != key {
      PutKeys(es[1..], key, v);
      assert Put(es, key, v) == [es[0]] + Put(es[1..], key, v);
      assert Keys(es) == [es[0].key] + Keys(es[1..]);
      assert Keys(Put(es, key, v)) == [es[0].key] + Keys(Put(es[1..], key, v));
      assert key in Keys(es) <==> key in Keys(es[1..]);
    }
  }

  /** A broker message: its id, its raw body and how often the broker has resent it. */
  datatype Message = Message(id: nat, data: string, redeliveryCount: nat)

  /** What one receive handed over: one message (or none yet) or a batch. */
  datatype Delivery = Single(msg: Option<Message>) | Batch(msgs: seq<Message>)

  /** Ruby exception classes met by the runtime. `NoMethodError` is a `NameError`;
      `NotImplementedError` and `SystemExit` are not `StandardError`s. */
  datatype Error =
    | ArgumentError
    | NameError
    | NoMethodError
    | NotImplementedError
    | SystemExit
    | OtherException(name: string)
    | OtherStandardError(name: string)
    | TopicNotFound
    | ConnectError
    | Timeout
    | AlreadyClosed
    | JobClassNotConfigured
    | InvalidJobConsumerOptions
    | JobTopicNotFound
    | InvalidClientConfiguration(message: string)
    | JobClassNotDefined(message: string)
    | AsyncMethodMissing
    | AsyncInvalidContext

  /** `ex.is_a?(StandardError)`. */
  predicate IsStandardError(e: Error) {
    !(e.NotImplementedError? || e.SystemExit? || e.OtherException?)
  }

  /** `ex.is_a?(NameError)`. */
  predicate IsNameError(e: Error) {
    e.NameError? || e.NoMethodError?
  }

  /** What a call into user code did: returned a value or raised. */
  datatype Outcome = Returned(v: Value) | Raised(e: Error)

  /** `JSON.parse` (none when it raises) and `to_json`. */
  datatype Codec = Codec(parse: string -> Option<Value>, serialize: Value -> string)

  /** The one fact the model assumes of the JSON library: parsing what it serialized gives
      the value back. It is only ever a precondition. */
  ghost predicate RoundTrips(c: Codec) {
    forall v :: c.parse(c.serialize(v)) == Some(v)
  }

  const Digits := "0123456789"

  /** `n.to_s` for an integer. */
  function IntToString(n: int): (s: string)
    ensures |s| > 0
  {
    if n < 0 then "-" + NatToString(-n) else NatToString(n)
  }

  function NatToString(n: nat): (s: string)
    ensures |s| > 0
    ensures forall i :: 0 <= i < |s| ==> s[i] in Digits
  {
    if n < 10 then [Digits[n]] else NatToString(n / 10) + [Digits[n % 10]]
  }
}

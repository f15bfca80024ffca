/** The receive loop and the shutdown wait shared by the two single-class listeners,
    `Consume` and the older `Consumer`, stated over the broker's answers. One round is
    one pass of `while @listener.active?`; how many rounds run before another thread
    finishes the listener is a parameter. */
module Listening {
  import opened Wrappers
  import opened Values
  import opened Pulsar

  /** `consumer.receive(5000)`. */
  const ReceiveTimeoutMillis: nat := 5000

  /** What one `handle(msg)` call did: its broker calls, and the error it let out. */
  datatype Handled = Handled(events: seq<Request>, escaped: Option<Error>)

  /** What `listen` did over its rounds: its broker calls, the messages it handled, in
      order, and the error that ended it, if any. */
  datatype Listened = Listened(events: seq<Request>, received: seq<Message>, escaped: Option<Error>)

  /** Work done before the rest of a listen. */
  function Prepend(events: seq<Request>, received: seq<Message>, rest: Listened): Listened {
    Listened(events + rest.events, received + rest.received, rest.escaped)
  }

  /** One pass of the listen loop on consumer `c`, its receive answered at log position
      `pos`. A receive that raises a standard error (a timeout, a closed consumer,
      anything else the receiving thread re-raises) is logged and the pass ends; a
      non-standard one escapes. A received message is handed to `handle`. */
  function Round(o: Oracle, c: Handle, pos: nat, handle: Message -> Handled): Listened
  {
    var ask := [Request.Receive(c, ReceiveTimeoutMillis)];
    match o.receive(pos)
    case Failure(e) => Listened(ask, [], if IsStandardError(e) then None else Some(e))
    case Success(m) =>
      var h := handle(m);
      Listened(ask + h.events, [m], h.escaped)
  }

  /** `rounds` passes of the listen loop with the consumer `c`, the first receive being
      answered at log position `pos`; an escaping error ends `listen`. A nil consumer
      fails every receive with a logged `NoMethodError`. */
  function Rounds(o: Oracle, c: Option<Handle>, pos: nat, rounds: nat, handle: Message -> Handled): Listened
    decreases rounds
  {
    if rounds == 0 || c.None? then Listened([], [], None)
    else
      var one := Round(o, c.value, pos, handle);
      if one.escaped.Some? then one
      else Prepend(one.events, one.received, Rounds(o, c, pos + |one.events|, rounds - 1, handle))
  }

  /** Every pass starts with one receive on its consumer, and hands at most one message on. */
  lemma RoundShape(o: Oracle, c: Handle, pos: nat, handle: Message -> Handled)
    ensures var r := Round(o, c, pos, handle);
            |r.events| >= 1 && r.events[0] == Request.Receive(c, ReceiveTimeoutMillis) && |r.received| <= 1
  {
  }

  /** A listen of `rounds` passes handles at most `rounds` messages, and with a consumer
      it asks the broker at least once per pass until one ends it. */
  lemma {:induction false} RoundsBounded(o: Oracle, c: Option<Handle>, pos: nat, rounds: nat, handle: Message -> Handled)
    ensures var r := Rounds(o, c, pos, rounds, handle);
            |r.received| <= rounds && (c.None? || rounds == 0 <==> r.events == [])
    decreases rounds
  {
    if rounds > 0 && c.Some? {
      var one := Round(o, c.value, pos, handle);
      RoundShape(o, c.value, pos, handle);
      if one.escaped.None? {
        RoundsBounded(o, c, pos + |one.events|, rounds - 1, handle);
      }
    }
  }

  /** After one pass that let nothing out, the listen goes on from the next position. */
  lemma RoundsStep(o: Oracle, c: Handle, pos: nat, rounds: nat, handle: Message -> Handled, one: Listened)
    requires rounds > 0 && one == Round(o, c, pos, handle)
    ensures one.escaped.Some? ==> Rounds(o, Some(c), pos, rounds, handle) == one
    ensures one.escaped.None? ==>
              Rounds(o, Some(c), pos, rounds, handle) ==
              Prepend(one.events, one.received, Rounds(o, Some(c), pos + |one.events|, rounds - 1, handle))
  {
  }

  /** `l` is a listen of which the calls `done` and the messages `got` are behind, and
      `rounds` passes answered from log position `pos + |done|` on are still to come. */
  ghost predicate Resumes(o: Oracle, c: Option<Handle>, pos: nat, rounds: nat, handle: Message -> Handled,
                          l: Listened, done: seq<Request>, got: seq<Message>)
  {
    l == Prepend(done, got, Rounds(o, c, pos + |done|, rounds, handle))
  }

  lemma ResumesStart(o: Oracle, c: Option<Handle>, pos: nat, rounds: nat, handle: Message -> Handled)
    ensures Resumes(o, c, pos, rounds, handle, Rounds(o, c, pos, rounds, handle), [], [])
  {
    var l := Rounds(o, c, pos, rounds, handle);
    assert [] + l.events == l.events && [] + l.received == l.received;
  }

  /** A listen with no passes left has done all it will. */
  lemma ResumesEnd(o: Oracle, c: Option<Handle>, pos: nat, handle: Message -> Handled,
                   l: Listened, done: seq<Request>, got: seq<Message>)
    requires Resumes(o, c, pos, 0, handle, l, done, got)
    ensures l == Listened(done, got, None)
  {
    assert done + [] == done && got + [] == got;
  }

  /** A pass without a consumer does nothing. */
  lemma ResumesIdle(o: Oracle, pos: nat, rounds: nat, handle: Message -> Handled,
                    l: Listened, done: seq<Request>, got: seq<Message>)
    requires rounds > 0 && Resumes(o, None, pos, rounds, handle, l, done, got)
    ensures Resumes(o, None, pos, rounds - 1, handle, l, done, got)
  {
  }

  /** One more pass at the next log position: either the listen goes on from there or
      that pass ends it. */
  lemma ResumesStep(o: Oracle, c: Handle, pos: nat, rounds: nat, handle: Message -> Handled,
                    l: Listened, done: seq<Request>, got: seq<Message>, one: Listened)
    requires rounds > 0 && Resumes(o, Some(c), pos, rounds, handle, l, done, got)
    requires one == Round(o, c, pos + |done|, handle)
    ensures one.escaped.None? ==>
              Resumes(o, Some(c), pos, rounds - 1, handle, l, done + one.events, got + one.received)
    ensures one.escaped.Some? ==> l == Listened(done + one.events, got + one.received, one.escaped)
  {
    RoundsStep(o, c, pos + |done|, rounds, handle, one);
    var rest := Rounds(o, Some(c), pos + |done| + |one.events|, rounds - 1, handle);
    PrependPrepend(done, got, one.events, one.received, rest);
  }

  /** A broker that only times out or reports the consumer closed: nothing is handled,
      nothing escapes, and every round asks once. */
  lemma {:induction false} TimeoutsHandleNothing(o: Oracle, c: Handle, pos: nat, rounds: nat, handle: Message -> Handled)
    requires forall i :: pos <= i ==> o.receive(i) == Failure(Timeout) || o.receive(i) == Failure(AlreadyClosed)
    ensures var r := Rounds(o, Some(c), pos, rounds, handle);
            r.received == [] && r.escaped.None? && |r.events| == rounds &&
            (forall i :: 0 <= i < |r.events| ==> r.events[i] == Request.Receive(c, ReceiveTimeoutMillis))
    ensures Delivered(Rounds(o, Some(c), pos, rounds, handle).events) == []
    decreases rounds
  {
    var r := Rounds(o, Some(c), pos, rounds, handle);
    if rounds > 0 {
      TimeoutRound(o, c, pos, rounds, handle);
      TimeoutsHandleNothing(o, c, pos + 1, rounds - 1, handle);
      var rest := Rounds(o, Some(c), pos + 1, rounds - 1, handle);
      assert r.events == [Request.Receive(c, ReceiveTimeoutMillis)] + rest.events;
    }
    DeliveredNone(r.events);
  }

  /** A pass whose receive raises a standard error asks once and lets the listen go on
      from the next position. */
  lemma TimeoutRound(o: Oracle, c: Handle, pos: nat, rounds: nat, handle: Message -> Handled)
    requires rounds > 0 && o.receive(pos).Failure? && IsStandardError(o.receive(pos).error)
    ensures Rounds(o, Some(c), pos, rounds, handle) ==
            Prepend([Request.Receive(c, ReceiveTimeoutMillis)], [], Rounds(o, Some(c), pos + 1, rounds - 1, handle))
  {
    RoundsStep(o, c, pos, rounds, handle, Round(o, c, pos, handle));
  }

  /** `q` acknowledges or negatively acknowledges `m` on consumer `c`. */
  predicate Settles(q: Request, c: Handle, m: Message) {
    (q.Acknowledge? || q.NegativeAcknowledge?) && q.consumer == c && q.msg == Some(m)
  }

  /** The settlement both listeners' `handle` chooses for `m` once the job ran with
      error `e`: acknowledge on success or an `ArgumentError`, negatively acknowledge on
      anything else. With a nil consumer both calls raise and nothing reaches the
      broker. */
  function Settle(c: Option<Handle>, e: Option<Error>, m: Message): (r: seq<Request>)
    ensures c.None? ==> r == []
    ensures c.Some? ==> |r| == 1 && Settles(r[0], c.value, m)
    ensures c.Some? ==> (r[0].Acknowledge? <==> e.None? || e == Some(ArgumentError))
  {
    if c.None? then []
    else if e.None? || e == Some(ArgumentError) then [Acknowledge(c.value, Some(m))]
    else [NegativeAcknowledge(c.value, Some(m))]
  }

  /** Concatenating what was done with what a later `Prepend` adds. */
  lemma PrependPrepend(e1: seq<Request>, r1: seq<Message>, e2: seq<Request>, r2: seq<Message>, rest: Listened)
    ensures Prepend(e1, r1, Prepend(e2, r2, rest)) == Prepend(e1 + e2, r1 + r2, rest)
  {
    assert e1 + (e2 + rest.events) == e1 + e2 + rest.events;
    assert r1 + (r2 + rest.received) == r1 + r2 + rest.received;
  }

  /** `handle` settles every message exactly once, on `c`, and lets nothing out. */
  ghost predicate SettlesOnce(handle: Message -> Handled, c: Handle) {
    forall m :: handle(m).escaped.None? && |handle(m).events| == 1 && Settles(handle(m).events[0], c, m)
  }

  /** The settlements `ds` answer the messages `ms` one to one, in order. */
  predicate SettledInOrder(ds: seq<Request>, ms: seq<Message>, c: Handle) {
    |ds| == |ms| && forall i :: 0 <= i < |ms| ==> Settles(ds[i], c, ms[i])
  }

  lemma SettledCons(q: Request, m: Message, ds: seq<Request>, ms: seq<Message>, c: Handle)
    requires Settles(q, c, m) && SettledInOrder(ds, ms, c)
    ensures SettledInOrder([q] + ds, [m] + ms, c)
  {
    assert forall i :: 0 < i <= |ms| ==> ([q] + ds)[i] == ds[i - 1] && ([m] + ms)[i] == ms[i - 1];
  }

  /** When `handle` settles each message once, the broker sees exactly one
      acknowledgement or negative acknowledgement per received message, in the order
      the messages arrived. */
  lemma {:induction false} EachReceivedSettledOnce(o: Oracle, c: Handle, pos: nat, rounds: nat, handle: Message -> Handled)
    requires SettlesOnce(handle, c)
    ensures var r := Rounds(o, Some(c), pos, rounds, handle);
            SettledInOrder(Delivered(r.events), r.received, c)
    decreases rounds
  {
    if rounds > 0 {
      var next := if o.receive(pos).Success? then pos + 2 else pos + 1;
      EachReceivedSettledOnce(o, c, next, rounds - 1, handle);
      SettledAfterRound(o, c, pos, rounds, handle);
    }
  }

  /** The inductive step of `EachReceivedSettledOnce`: one pass followed by a listen that
      settles in order settles in order. */
  lemma SettledAfterRound(o: Oracle, c: Handle, pos: nat, rounds: nat, handle: Message -> Handled)
    requires SettlesOnce(handle, c) && rounds > 0
    requires var rest := Rounds(o, Some(c), if o.receive(pos).Success? then pos + 2 else pos + 1, rounds - 1, handle);
             SettledInOrder(Delivered(rest.events), rest.received, c)
    ensures var r := Rounds(o, Some(c), pos, rounds, handle);
            SettledInOrder(Delivered(r.events), r.received, c)
  {
    var ask := [Request.Receive(c, ReceiveTimeoutMillis)];
    assert Delivered(ask) == [];
    match o.receive(pos)
    case Failure(e) =>
      if IsStandardError(e) {
        TimeoutRound(o, c, pos, rounds, handle);
        var rest := Rounds(o, Some(c), pos + 1, rounds - 1, handle);
        DeliveredAppend(ask, rest.events);
        assert [] + rest.received == rest.received;
      }
    case Success(m) =>
      var h := handle(m);
      ReceivedRound(o, c, pos, rounds, handle, m);
      var rest := Rounds(o, Some(c), pos + 2, rounds - 1, handle);
      DeliveredAppend(ask, h.events);
      DeliveredAppend(ask + h.events, rest.events);
      assert Delivered(h.events) == h.events;
      SettledCons(h.events[0], m, Delivered(rest.events), rest.received, c);
  }

  /** A pass that receives `m` and whose handling lets nothing out asks once, does what
      the handling did, and lets the listen go on from the next position. */
  lemma ReceivedRound(o: Oracle, c: Handle, pos: nat, rounds: nat, handle: Message -> Handled, m: Message)
    requires rounds > 0 && o.receive(pos) == Success(m) && handle(m).escaped.None?
    ensures var events := [Request.Receive(c, ReceiveTimeoutMillis)] + handle(m).events;
            Rounds(o, Some(c), pos, rounds, handle) ==
            Prepend(events, [m], Rounds(o, Some(c), pos + |events|, rounds - 1, handle))
  {
    RoundsStep(o, c, pos, rounds, handle, Round(o, c, pos, handle));
  }

  /** The one-second steps `shutdown` sleeps from the `count`-th check of `@is_running`
      on: it stops when the listener reports it is no longer running, or once `count`
      exceeds the allowed wait. `running(i)` is what the i-th check reads. */
  function Sleeps(running: nat -> bool, max: int, count: nat): nat
    decreases if count <= max then max - count + 1 else 0
  {
    if !running(count) || count > max then 0 else 1 + Sleeps(running, max, count + 1)
  }

  /** The wait is bounded by `max + 1` steps, every step was taken while the listener was
      running, and it ends on a check that reads not running or finds the budget spent. */
  lemma {:induction false} SleepsBounded(running: nat -> bool, max: int, count: nat)
    ensures var n := Sleeps(running, max, count);
            n <= (if count <= max then max - count + 1 else 0) &&
            (forall i :: count <= i < count + n ==> running(i) && i <= max) &&
            (!running(count + n) || count + n > max)
    decreases if count <= max then max - count + 1 else 0
  {
    if running(count) && count <= max {
      SleepsBounded(running, max, count + 1);
    }
  }
}

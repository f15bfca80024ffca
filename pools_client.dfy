/** `PulsarJob::Pools::Client`: the process-wide client, opened by trying the brokers
    of the configured URL one after another with a retry budget. */
module ClientPools {
  import opened Wrappers
  import opened Values
  import opened Pulsar
  import opened Settings

  const Scheme: string := "pulsar://"
  const NoBrokerMessage: string := "No connectable broker available"

  const UnablePrefix: string := "Unable to connect to any broker after "

  function UnableMessage(maxRetries: int): (s: string)
    ensures UnablePrefix <= s
  {
    UnablePrefix + IntToString(maxRetries) + " retries"
  }

  /** The longest prefix of `s` without a line break (what `.+` can cover). */
  function Line(s: string): (r: string)
    ensures r <= s && '\n' !in r
    ensures |r| < |s| ==> s[|r|] == '\n'
  {
    if |s| == 0 || s[0] == '\n' then "" else [s[0]] + Line(s[1..])
  }

  /** Group 1 of the first match of the unanchored pattern `pulsar://(.+)`, if any: the
      rest of the line after the first `pulsar://` that is followed by at least one
      character on the same line. */
  function MatchHosts(url: string): (r: Option<string>)
    ensures r.Some? ==> |r.value| > 0 && '\n' !in r.value
    decreases |url|
  {
    if Scheme <= url && |url| > |Scheme| && url[|Scheme|] != '\n' then Some(Line(url[|Scheme|..]))
    else if |url| == 0 then None
    else MatchHosts(url[1..])
  }

  /** A URL that starts with the scheme and holds one line matches with that line. */
  lemma MatchOfScheme(hosts: string)
    requires |hosts| > 0 && '\n' !in hosts
    ensures MatchHosts(Scheme + hosts) == Some(hosts)
  {
    var url := Scheme + hosts;
    assert url[..|Scheme|] == Scheme;
    assert url[|Scheme|..] == hosts;
    assert url[|Scheme|] == hosts[0];
    LineOfLine(hosts);
  }

  lemma LineOfLine(s: string)
    requires '\n' !in s
    ensures Line(s) == s
  {
  }

  /** `s.split(",", -1)`: every comma-separated field, empty ones included. */
  function Fields(s: string): (r: seq<string>)
    ensures |r| >= 1
    ensures forall i :: 0 <= i < |r| ==> ',' !in r[i]
    decreases |s|
  {
    if |s| == 0 then [""]
    else
      var rest := Fields(s[1..]);
      if s[0] == ',' then [""] + rest
      else [[s[0]] + rest[0]] + rest[1..]
  }

  /** Fields separated by commas. */
  function Join(fs: seq<string>): string
    requires |fs| >= 1
  {
    if |fs| == 1 then fs[0] else fs[0] + "," + Join(fs[1..])
  }

  /** Ruby's `split` drops the empty fields at the end. */
  function DropTrailingEmpty(fs: seq<string>): (r: seq<string>)
    ensures r <= fs
    ensures |r| > 0 ==> r[|r| - 1] != ""
    ensures forall i :: |r| <= i < |fs| ==> fs[i] == ""
    decreases |fs|
  {
    if |fs| == 0 then []
    else if fs[|fs| - 1] == "" then DropTrailingEmpty(fs[..|fs| - 1])
    else fs
  }

  /** `s.split(",")`. */
  function Split(s: string): (r: seq<string>)
    ensures forall i :: 0 <= i < |r| ==> ',' !in r[i]
    ensures r <= Fields(s)
  {
    DropTrailingEmpty(Fields(s))
  }

  /** Splitting loses nothing: the fields joined back with commas are the string. */
  lemma {:induction false} JoinFields(s: string)
    ensures Join(Fields(s)) == s
    decreases |s|
  {
    if |s| > 0 {
      var rest := Fields(s[1..]);
      JoinFields(s[1..]);
      if s[0] == ',' {
        assert Fields(s) == [""] + rest;
        assert ([""] + rest)[1..] == rest;
        assert s == [','] + s[1..];
      } else if |rest| == 1 {
        assert Fields(s) == [[s[0]] + rest[0]];
        assert s == [s[0]] + s[1..];
      } else {
        var fs := Fields(s);
        assert fs == [[s[0]] + rest[0]] + rest[1..];
        assert fs[1..] == rest[1..];
        assert Join(rest) == rest[0] + "," + Join(rest[1..]);
        assert s == [s[0]] + s[1..];
      }
    }
  }

  lemma {:induction false} FieldsOfField(a: string)
    requires ',' !in a
    ensures Fields(a) == [a]
    decreases |a|
  {
    if |a| > 0 {
      FieldsOfField(a[1..]);
      assert [a[0]] + a[1..] == a;
    }
  }

  lemma {:induction false} FieldsCons(a: string, rest: string)
    requires ',' !in a
    ensures Fields(a + "," + rest) == [a] + Fields(rest)
    decreases |a|
  {
    var s := a + "," + rest;
    if |a| == 0 {
      assert s[1..] == rest;
    } else {
      FieldsCons(a[1..], rest);
      assert s[1..] == a[1..] + "," + rest;
      assert [a[0]] + a[1..] == a;
    }
  }

  lemma {:induction false} FieldsJoin(hosts: seq<string>)
    requires |hosts| >= 1
    requires forall i :: 0 <= i < |hosts| ==> ',' !in hosts[i]
    ensures Fields(Join(hosts)) == hosts
    decreases |hosts|
  {
    if |hosts| == 1 {
      FieldsOfField(hosts[0]);
    } else {
      FieldsJoin(hosts[1..]);
      FieldsCons(hosts[0], Join(hosts[1..]));
      assert [hosts[0]] + hosts[1..] == hosts;
    }
  }

  /** `broker_hosts` before the shuffle: the comma-separated list after `pulsar://`. A
      URL without a match makes `matches` nil, and `nil.length` raises `NoMethodError`
      (the `InvalidClientConfigirationError` guard can never fire, as a match always has
      two elements). */
  function ParseHosts(url: string): (r: Result<seq<string>, Error>)
    ensures r.Failure? <==> MatchHosts(url).None?
    ensures r.Failure? ==> r.error == NoMethodError
    ensures r.Success? ==> forall i :: 0 <= i < |r.value| ==> ',' !in r.value[i] && '\n' !in r.value[i]
  {
    match MatchHosts(url)
    case None => Failure(NoMethodError)
    case Some(g) =>
      var r := Split(g);
      NoNewlineInFields(g);
      Success(r)
  }

  lemma {:induction false} NoNewlineInFields(s: string)
    requires '\n' !in s
    ensures forall i :: 0 <= i < |Fields(s)| ==> '\n' !in Fields(s)[i]
    decreases |s|
  {
    if |s| > 0 {
      NoNewlineInFields(s[1..]);
      assert s[0] in s;
    }
  }

  /** The broker list of a well-formed URL is read back exactly: host names without
      commas, the last one non-empty, written after the scheme and joined with commas. */
  lemma ParseHostsOfJoin(hosts: seq<string>)
    requires |hosts| >= 1 && hosts[|hosts| - 1] != ""
    requires forall i :: 0 <= i < |hosts| ==> ',' !in hosts[i] && '\n' !in hosts[i]
    ensures ParseHosts(Scheme + Join(hosts)) == Success(hosts)
  {
    JoinHasNoNewline(hosts);
    JoinNotEmpty(hosts);
    MatchOfScheme(Join(hosts));
    FieldsJoin(hosts);
  }

  lemma {:induction false} JoinHasNoNewline(hosts: seq<string>)
    requires |hosts| >= 1
    requires forall i :: 0 <= i < |hosts| ==> '\n' !in hosts[i]
    ensures '\n' !in Join(hosts)
    decreases |hosts|
  {
    if |hosts| > 1 {
      JoinHasNoNewline(hosts[1..]);
    }
  }

  lemma {:induction false} JoinNotEmpty(hosts: seq<string>)
    requires |hosts| >= 1 && hosts[|hosts| - 1] != ""
    ensures |Join(hosts)| > 0
    decreases |hosts|
  {
    if |hosts| > 1 {
      JoinNotEmpty(hosts[1..]);
    }
  }

  /** The default URL names one broker. */
  lemma DefaultHosts()
    ensures ParseHosts(DefaultBrokerUrl) == Success(["localhost:6650"])
  {
    assert DefaultBrokerUrl == Scheme + Join(["localhost:6650"]);
    ParseHostsOfJoin(["localhost:6650"]);
  }

  /** `shuffle`: some permutation, chosen by the index of the call. */
  type Shuffler = f: (nat, seq<string>) -> seq<string> | forall k, s :: multiset(f(k, s)) == multiset(s)
    witness (k: nat, s: seq<string>) => s

  /** The block given to `instance_exec`: what to open on the freshly connected client. */
  datatype Block =
    | SubscribeTo(topics: seq<string>, subscription: string, consumerType: ConsumerType)
    | CreateProducerFor(topic: Option<string>, options: ProducerOptions)

  function Apply(b: Block, client: Handle): (q: Request)
    ensures q.Subscribe? || q.CreateProducer?
  {
    match b
    case SubscribeTo(ts, s, t) => Subscribe(client, ts, s, t)
    case CreateProducerFor(t, o) => CreateProducer(client, t, o)
  }

  /** One attempt: connect to `pulsar://host`, then open the block's resource on the new
      client. */
  datatype Attempt = Attempt(res: Result<Handle, Error>, events: seq<Request>, connected: Option<Handle>)

  function Try(o: Oracle, block: Block, pos: nat, host: string): (a: Attempt)
    ensures |a.events| >= 1 && a.events[0] == Request.Connect(Scheme + host)
    ensures a.res.Success? ==> a.connected.Some? && a.events == [Request.Connect(Scheme + host), Apply(block, a.connected.value)]
    ensures ConnectCount(a.events) == 1
  {
    var c := o.connect(pos);
    var connect := Request.Connect(Scheme + host);
    if c.Success? then
      var a := Attempt(o.open(pos + 1), [connect, Apply(block, c.value)], Some(c.value));
      assert a.events[1..] == [Apply(block, c.value)];
      a
    else
      var a := Attempt(Failure(c.error), [connect], None);
      assert a.events[1..] == [];
      a
  }

  /** Everything the retry loop depends on besides its own variables. */
  datatype Setup = Setup(oracle: Oracle, block: Block, hosts: seq<string>, shuffle: Shuffler, maxRetries: int)

  /** What the retry loop did: its result, the calls it made, the shuffle counter after
      it, and the client it connected, if it succeeded. */
  datatype Run = Run(r: Result<Handle, Error>, events: seq<Request>, shuffles: nat, connected: Option<Handle>)

  function After(events: seq<Request>, run: Run): Run {
    run.(events := events + run.events)
  }

  function Max1(n: int): nat {
    if n < 1 then 1 else n
  }

  /** `brokers.shift`, refilled from `broker_hosts` when that empties the list. */
  function Next(st: Setup, brokers: seq<string>, k: nat): seq<string>
    requires |brokers| > 0
  {
    if |brokers| == 1 then st.shuffle(k, st.hosts) else brokers[1..]
  }

  /** The shuffle counter after `Next`. */
  function NextK(brokers: seq<string>, k: nat): nat {
    if |brokers| == 1 then k + 1 else k
  }

  /** The `begin ... rescue ConnectError ... retry` loop of `instance_exec`, from a log
      position `pos`, a current broker list and a remaining budget. */
  function Retry(st: Setup, pos: nat, brokers: seq<string>, retries: int, k: nat): Run
    decreases if retries <= 0 then 0 else retries
  {
    if |brokers| == 0 then Run(Failure(InvalidClientConfiguration(NoBrokerMessage)), [], k, None)
    else
      var a := Try(st.oracle, st.block, pos, brokers[0]);
      var ev := a.events;
      if a.res.Success? then Run(a.res, ev, k, a.connected)
      else if a.res.error != ConnectError then Run(a.res, ev, k, None)
      else if retries - 1 <= 0 then Run(Failure(InvalidClientConfiguration(UnableMessage(st.maxRetries))), ev, k, None)
      else After(ev, Retry(st, pos + |ev|, Next(st, brokers, k), retries - 1, NextK(brokers, k)))
  }

  /** The four ways one pass of the loop body can end. */
  lemma RetryCases(st: Setup, pos: nat, brokers: seq<string>, retries: int, k: nat, a: Attempt)
    requires |brokers| > 0 && a == Try(st.oracle, st.block, pos, brokers[0])
    ensures a.res.Success? ==> Retry(st, pos, brokers, retries, k) == Run(a.res, a.events, k, a.connected)
    ensures a.res.Failure? && a.res.error != ConnectError ==>
              Retry(st, pos, brokers, retries, k) == Run(a.res, a.events, k, None)
    ensures a.res.Failure? && a.res.error == ConnectError && retries - 1 <= 0 ==>
              Retry(st, pos, brokers, retries, k) ==
              Run(Failure(InvalidClientConfiguration(UnableMessage(st.maxRetries))), a.events, k, None)
    ensures a.res.Failure? && a.res.error == ConnectError && retries - 1 > 0 ==>
              Retry(st, pos, brokers, retries, k) ==
              After(a.events, Retry(st, pos + |a.events|, Next(st, brokers, k), retries - 1, NextK(brokers, k)))
  {
  }

  function ConnectCount(events: seq<Request>): (n: nat)
    ensures n <= |events|
  {
    if |events| == 0 then 0 else (if events[0].Connect? then 1 else 0) + ConnectCount(events[1..])
  }

  lemma {:induction false} ConnectCountAppend(a: seq<Request>, b: seq<Request>)
    ensures ConnectCount(a + b) == ConnectCount(a) + ConnectCount(b)
    decreases |a|
  {
    if |a| > 0 {
      ConnectCountAppend(a[1..], b);
      assert (a + b)[1..] == a[1..] + b;
    } else {
      assert a + b == b;
    }
  }

  /** The budget bounds the attempts: at most `max(retries, 1)` connections are tried. */
  lemma {:induction false} RetryBounded(st: Setup, pos: nat, brokers: seq<string>, retries: int, k: nat)
    ensures ConnectCount(Retry(st, pos, brokers, retries, k).events) <= Max1(retries)
    decreases if retries <= 0 then 0 else retries
  {
    if |brokers| > 0 {
      var a := Try(st.oracle, st.block, pos, brokers[0]);
      if a.res.Failure? && a.res.error == ConnectError && retries - 1 > 0 {
        var next := Next(st, brokers, k);
        var k' := NextK(brokers, k);
        var tail := Retry(st, pos + |a.events|, next, retries - 1, k');
        RetryCases(st, pos, brokers, retries, k, a);
        RetryBounded(st, pos + |a.events|, next, retries - 1, k');
        ConnectCountAppend(a.events, tail.events);
      }
    }
  }

  /** When every connection is refused with `ConnectError`, the loop makes exactly
      `max(retries, 1)` attempts (a refill keeps a candidate for each) and then gives
      up with the "Unable to connect" error. */
  lemma {:induction false} RetryExhausts(st: Setup, pos: nat, brokers: seq<string>, retries: int, k: nat)
    requires forall p :: st.oracle.connect(p) == Failure(ConnectError)
    requires |brokers| > 0 && |st.hosts| > 0
    ensures Retry(st, pos, brokers, retries, k).r == Failure(InvalidClientConfiguration(UnableMessage(st.maxRetries)))
    ensures ConnectCount(Retry(st, pos, brokers, retries, k).events) == Max1(retries)
    ensures |Retry(st, pos, brokers, retries, k).events| == Max1(retries)
    decreases if retries <= 0 then 0 else retries
  {
    var a := Try(st.oracle, st.block, pos, brokers[0]);
    assert a.events == [Request.Connect(Scheme + brokers[0])] && a.res == Failure(ConnectError);
    if retries - 1 > 0 {
      var next := Next(st, brokers, k);
      var k' := NextK(brokers, k);
      assert |next| > 0 by {
        if |brokers| == 1 {
          assert multiset(st.shuffle(k, st.hosts)) == multiset(st.hosts);
        }
      }
      var tail := Retry(st, pos + 1, next, retries - 1, k');
      RetryCases(st, pos, brokers, retries, k, a);
      RetryExhausts(st, pos + 1, next, retries - 1, k');
      ConnectCountAppend(a.events, tail.events);
    }
  }

  /** A connection request goes to `pulsar://` followed by one of `hosts`. */
  predicate ToHost(q: Request, hosts: seq<string>) {
    q.Connect? ==> Scheme <= q.url && q.url[|Scheme|..] in hosts
  }

  predicate AllToHosts(ev: seq<Request>, hosts: seq<string>) {
    forall i :: 0 <= i < |ev| ==> ToHost(ev[i], hosts)
  }

  lemma AllToHostsAppend(a: seq<Request>, b: seq<Request>, hosts: seq<string>)
    requires AllToHosts(a, hosts) && AllToHosts(b, hosts)
    ensures AllToHosts(a + b, hosts)
  {
    forall i | 0 <= i < |a + b| ensures ToHost((a + b)[i], hosts) {
      if i < |a| {
        assert (a + b)[i] == a[i];
      } else {
        assert (a + b)[i] == b[i - |a|];
      }
    }
  }

  /** Shifting or refilling the list keeps it within the configured hosts. */
  lemma NextWithinHosts(st: Setup, brokers: seq<string>, k: nat)
    requires |brokers| > 0
    requires forall i :: 0 <= i < |brokers| ==> brokers[i] in st.hosts
    ensures var next := Next(st, brokers, k); forall i :: 0 <= i < |next| ==> next[i] in st.hosts
  {
    var next := Next(st, brokers, k);
    forall i | 0 <= i < |next| ensures next[i] in st.hosts {
      if |brokers| == 1 {
        assert next[i] in multiset(st.shuffle(k, st.hosts));
      } else {
        assert next[i] == brokers[i + 1];
      }
    }
  }

  /** Every connection goes to `pulsar://` followed by one of the configured hosts. */
  lemma {:induction false} RetryConnectsToHosts(st: Setup, pos: nat, brokers: seq<string>, retries: int, k: nat)
    requires forall i :: 0 <= i < |brokers| ==> brokers[i] in st.hosts
    ensures AllToHosts(Retry(st, pos, brokers, retries, k).events, st.hosts)
    decreases if retries <= 0 then 0 else retries
  {
    if |brokers| > 0 {
      var a := Try(st.oracle, st.block, pos, brokers[0]);
      if a.res.Failure? && a.res.error == ConnectError && retries - 1 > 0 {
        NextWithinHosts(st, brokers, k);
        RetryConnectsToHosts(st, pos + |a.events|, Next(st, brokers, k), retries - 1, NextK(brokers, k));
      }
      ConnectsToHostsStep(st, pos, brokers, retries, k);
    }
  }

  /** The inductive step of `RetryConnectsToHosts`: an attempt on a configured host,
      followed, when it is retried, by a run that connects only to configured hosts. */
  lemma ConnectsToHostsStep(st: Setup, pos: nat, brokers: seq<string>, retries: int, k: nat)
    requires |brokers| > 0 && brokers[0] in st.hosts
    requires var a := Try(st.oracle, st.block, pos, brokers[0]);
             a.res.Failure? && a.res.error == ConnectError && retries - 1 > 0 ==>
               AllToHosts(Retry(st, pos + |a.events|, Next(st, brokers, k), retries - 1, NextK(brokers, k)).events,
                          st.hosts)
    ensures AllToHosts(Retry(st, pos, brokers, retries, k).events, st.hosts)
  {
    var a := Try(st.oracle, st.block, pos, brokers[0]);
    TryToHosts(st.oracle, st.block, pos, brokers[0], st.hosts);
    RetryCases(st, pos, brokers, retries, k, a);
    if a.res.Failure? && a.res.error == ConnectError && retries - 1 > 0 {
      var tail := Retry(st, pos + |a.events|, Next(st, brokers, k), retries - 1, NextK(brokers, k));
      AllToHostsAppend(a.events, tail.events, st.hosts);
    }
  }

  /** An attempt on a configured host connects only to that host. */
  lemma TryToHosts(o: Oracle, block: Block, pos: nat, host: string, hosts: seq<string>)
    requires host in hosts
    ensures AllToHosts(Try(o, block, pos, host).events, hosts)
  {
    var a := Try(o, block, pos, host);
    assert (Scheme + host)[|Scheme|..] == host;
    assert forall i :: 1 <= i < |a.events| ==> !a.events[i].Connect?;
  }

  /** A run ends its work on success: its last two calls connect to a host and open
      the block's resource on that new client, and the reply to that open is the
      result. */
  predicate EndsConnected(st: Setup, pos: nat, run: Run) {
    run.r.Success? ==>
      run.connected.Some? && |run.events| >= 2 && run.events[|run.events| - 2].Connect? &&
      run.events[|run.events| - 1] == Apply(st.block, run.connected.value) &&
      run.r == st.oracle.open(pos + |run.events| - 1)
  }

  /** A successful run ends by connecting to some host and opening the block's
      resource on that new client, and the reply to that open is the result. */
  lemma {:induction false} RetrySucceeds(st: Setup, pos: nat, brokers: seq<string>, retries: int, k: nat)
    ensures EndsConnected(st, pos, Retry(st, pos, brokers, retries, k))
    decreases if retries <= 0 then 0 else retries
  {
    if |brokers| > 0 {
      var a := Try(st.oracle, st.block, pos, brokers[0]);
      RetryCases(st, pos, brokers, retries, k, a);
      if a.res.Failure? && a.res.error == ConnectError && retries - 1 > 0 {
        var tail := Retry(st, pos + |a.events|, Next(st, brokers, k), retries - 1, NextK(brokers, k));
        RetrySucceeds(st, pos + |a.events|, Next(st, brokers, k), retries - 1, NextK(brokers, k));
        SucceedsAfterRefused(st, pos, brokers, retries, k, a, tail);
      }
    }
  }

  /** The inductive step of `RetrySucceeds`: a refused attempt `a` followed by a run
      `tail` that ends connected ends connected. */
  lemma SucceedsAfterRefused(st: Setup, pos: nat, brokers: seq<string>, retries: int, k: nat, a: Attempt, tail: Run)
    requires |brokers| > 0 && a == Try(st.oracle, st.block, pos, brokers[0])
    requires a.res.Failure? && a.res.error == ConnectError && retries - 1 > 0
    requires tail == Retry(st, pos + |a.events|, Next(st, brokers, k), retries - 1, NextK(brokers, k))
    requires EndsConnected(st, pos + |a.events|, tail)
    ensures EndsConnected(st, pos, Retry(st, pos, brokers, retries, k))
  {
    RetryCases(st, pos, brokers, retries, k, a);
    var run := After(a.events, tail);
    if run.r.Success? {
      var n := |run.events|;
      assert n == |a.events| + |tail.events|;
      assert run.events[n - 1] == tail.events[|tail.events| - 1];
      assert run.events[n - 2] == tail.events[|tail.events| - 2];
    }
  }

  /** Connecting and opening are not deliveries: the retry loop neither acknowledges
      nor sends anything. */
  lemma {:induction false} RetryDeliversNothing(st: Setup, pos: nat, brokers: seq<string>, retries: int, k: nat)
    ensures Delivered(Retry(st, pos, brokers, retries, k).events) == []
    decreases if retries <= 0 then 0 else retries
  {
    if |brokers| > 0 {
      var a := Try(st.oracle, st.block, pos, brokers[0]);
      TryDeliversNothing(st.oracle, st.block, pos, brokers[0]);
      if a.res.Failure? && a.res.error == ConnectError && retries - 1 > 0 {
        var next := Next(st, brokers, k);
        var k' := NextK(brokers, k);
        var tail := Retry(st, pos + |a.events|, next, retries - 1, k');
        RetryCases(st, pos, brokers, retries, k, a);
        RetryDeliversNothing(st, pos + |a.events|, next, retries - 1, k');
        DeliveredAppend(a.events, tail.events);
      }
    }
  }

  /** An attempt only connects and opens: it delivers nothing. */
  lemma TryDeliversNothing(o: Oracle, block: Block, pos: nat, host: string)
    ensures Delivered(Try(o, block, pos, host).events) == []
  {
    var a := Try(o, block, pos, host);
    assert forall i :: 0 <= i < |a.events| ==> !IsDeliveryEvent(a.events[i]);
    DeliveredNone(a.events);
  }

  /** One `instance_exec` makes no delivery calls. */
  lemma ExecDeliversNothing(oracle: Oracle, cfg: Configuration, shuffle: Shuffler, memo: Option<seq<string>>,
                            shuffles: nat, pos: nat, block: Block)
    ensures Delivered(Exec(oracle, cfg, shuffle, memo, shuffles, pos, block).events) == []
  {
    var m := MemoAfter(memo, cfg.pulsarBrokerUrl);
    if m.Some? {
      RetryDeliversNothing(Setup(oracle, block, m.value, shuffle, cfg.pulsarBrokerMaxRetries), pos,
                           shuffle(shuffles, m.value), cfg.pulsarBrokerMaxRetries, shuffles + 1);
    }
  }

  lemma AppendAssoc(a: seq<Request>, b: seq<Request>, c: seq<Request>)
    ensures a + (b + c) == (a + b) + c
  {
  }

  /** The memoized host list after a `broker_hosts` call: kept once parsed. */
  function MemoAfter(memo: Option<seq<string>>, url: string): Option<seq<string>> {
    if memo.Some? then memo else ParseHosts(url).ToOption()
  }

  /** One whole `instance_exec` from a given state of the pool: the host list is parsed
      (or reused), shuffled, and the retry loop run with the configured budget. */
  function Exec(oracle: Oracle, cfg: Configuration, shuffle: Shuffler, memo: Option<seq<string>>,
                shuffles: nat, pos: nat, block: Block): Run
  {
    var m := MemoAfter(memo, cfg.pulsarBrokerUrl);
    if m.None? then Run(Failure(NoMethodError), [], shuffles, None)
    else Retry(Setup(oracle, block, m.value, shuffle, cfg.pulsarBrokerMaxRetries), pos,
               shuffle(shuffles, m.value), cfg.pulsarBrokerMaxRetries, shuffles + 1)
  }

  /** Whatever the configuration and the broker's answers, one `instance_exec` makes at
      most `max(N, 1)` connection attempts, every one to a configured host, and a
      success ends with the block's call on the client it just connected. */
  lemma ExecBounded(oracle: Oracle, cfg: Configuration, shuffle: Shuffler, memo: Option<seq<string>>,
                    shuffles: nat, pos: nat, block: Block)
    ensures var run := Exec(oracle, cfg, shuffle, memo, shuffles, pos, block);
            ConnectCount(run.events) <= Max1(cfg.pulsarBrokerMaxRetries) &&
            AllToHosts(run.events, MemoAfter(memo, cfg.pulsarBrokerUrl).GetOr([])) &&
            (run.r.Success? ==> run.connected.Some? && |run.events| >= 2 &&
                                run.events[|run.events| - 1] == Apply(block, run.connected.value))
  {
    var m := MemoAfter(memo, cfg.pulsarBrokerUrl);
    if m.Some? {
      var st := Setup(oracle, block, m.value, shuffle, cfg.pulsarBrokerMaxRetries);
      var b := shuffle(shuffles, m.value);
      RetryBounded(st, pos, b, cfg.pulsarBrokerMaxRetries, shuffles + 1);
      var run := Retry(st, pos, b, cfg.pulsarBrokerMaxRetries, shuffles + 1);
      assert Exec(oracle, cfg, shuffle, memo, shuffles, pos, block) == run;
      RetrySucceeds(st, pos, b, cfg.pulsarBrokerMaxRetries, shuffles + 1);
    }
    ExecConnectsToHosts(oracle, cfg, shuffle, memo, shuffles, pos, block);
  }

  /** One `instance_exec` connects only to hosts of the parsed (or memoized) list. */
  lemma ExecConnectsToHosts(oracle: Oracle, cfg: Configuration, shuffle: Shuffler, memo: Option<seq<string>>,
                            shuffles: nat, pos: nat, block: Block)
    ensures AllToHosts(Exec(oracle, cfg, shuffle, memo, shuffles, pos, block).events,
                       MemoAfter(memo, cfg.pulsarBrokerUrl).GetOr([]))
  {
    var m := MemoAfter(memo, cfg.pulsarBrokerUrl);
    if m.Some? {
      var st := Setup(oracle, block, m.value, shuffle, cfg.pulsarBrokerMaxRetries);
      ShuffledWithinHosts(shuffle, shuffles, m.value);
      RetryConnectsToHosts(st, pos, shuffle(shuffles, m.value), cfg.pulsarBrokerMaxRetries, shuffles + 1);
    }
  }

  /** A shuffled copy of the host list holds only configured hosts. */
  lemma ShuffledWithinHosts(shuffle: Shuffler, k: nat, hosts: seq<string>)
    ensures forall i :: 0 <= i < |shuffle(k, hosts)| ==> shuffle(k, hosts)[i] in hosts
  {
    var b := shuffle(k, hosts);
    forall i | 0 <= i < |b| ensures b[i] in hosts {
      assert b[i] in multiset(b);
    }
  }

  /** The process-wide client pool: the global client and the memoized host list. */
  class ClientPool {
    const broker: Broker
    const cfg: Configuration
    const shuffle: Shuffler
    /** `$pulsar_job_pool_client`. */
    var client: Option<Handle>
    /** `@broker_hosts`. */
    var memo: Option<seq<string>>
    /** How many shuffles have been drawn. */
    var shuffles: nat

    constructor (broker: Broker, cfg: Configuration, shuffle: Shuffler)
      ensures this.broker == broker && this.cfg == cfg && this.shuffle == shuffle
      ensures client == None && memo == None && shuffles == 0
    {
      this.broker := broker;
      this.cfg := cfg;
      this.shuffle := shuffle;
      client := None;
      memo := None;
      shuffles := 0;
    }

    /** What `instance_exec` with `block` would do from the current state. */
    function Planned(block: Block): Run
      reads this, broker
    {
      Exec(broker.oracle, cfg, shuffle, memo, shuffles, |broker.log|, block)
    }

    /** The pool and the broker log went from the old state to this one by one
        `instance_exec` of `block` that answered `r`. */
    twostate predicate Executed(block: Block, new r: Result<Handle, Error>)
      reads this, broker
    {
      var run := old(Planned(block));
      r == run.r && memo == MemoAfter(old(memo), cfg.pulsarBrokerUrl) &&
      broker.log == old(broker.log) + run.events && shuffles == run.shuffles &&
      client == (if run.connected.Some? then run.connected else old(client))
    }

    /** `broker_hosts`: parse once and keep the list; hand out a shuffled copy each time. */
    method BrokerHosts() returns (r: Result<seq<string>, Error>)
      modifies this
      ensures client == old(client)
      ensures memo == if old(memo).Some? then old(memo) else ParseHosts(cfg.pulsarBrokerUrl).ToOption()
      ensures memo.None? ==> r == Failure(NoMethodError) && shuffles == old(shuffles)
      ensures memo.Some? ==> r == Success(shuffle(old(shuffles), memo.value)) && shuffles == old(shuffles) + 1
      ensures memo.Some? ==> multiset(r.value) == multiset(memo.value)
    {
      if memo.None? {
        var p := ParseHosts(cfg.pulsarBrokerUrl);
        if p.Failure? {
          return Failure(p.error);
        }
        memo := Some(p.value);
      }
      r := Success(shuffle(shuffles, memo.value));
      shuffles := shuffles + 1;
    }

    /** `instance_exec`: connect to a broker and open the block's resource on it,
        retrying on `ConnectError`; on success the new client becomes the global one. */
    method InstanceExec(block: Block) returns (r: Result<Handle, Error>)
      modifies this, broker
      ensures Executed(block, r)
    {
      var hosts := BrokerHosts();
      if hosts.Failure? {
        return Failure(hosts.error);
      }
      ghost var st := Setup(broker.oracle, block, memo.value, shuffle, cfg.pulsarBrokerMaxRetries);
      r := RetryLoop(st, block, hosts.value);
    }

    /** The `begin ... retry` loop, from the first shuffled list and the full budget. */
    method RetryLoop(ghost st: Setup, block: Block, brokers0: seq<string>) returns (r: Result<Handle, Error>)
      requires memo == Some(st.hosts)
      requires st.oracle == broker.oracle && st.block == block && st.shuffle == shuffle && st.maxRetries == cfg.pulsarBrokerMaxRetries
      modifies this, broker
      ensures memo == old(memo)
      ensures var run := Retry(st, |old(broker.log)|, brokers0, st.maxRetries, old(shuffles));
              r == run.r && broker.log == old(broker.log) + run.events && shuffles == run.shuffles &&
              client == (if run.connected.Some? then run.connected else old(client))
    {
      var brokers := brokers0;
      var retries := cfg.pulsarBrokerMaxRetries;
      ghost var whole := Retry(st, |broker.log|, brokers, retries, shuffles);
      ghost var done: seq<Request> := [];
      while true
        invariant memo == Some(st.hosts) && client == old(client)
        invariant broker.log == old(broker.log) + done
        invariant whole == After(done, Retry(st, |broker.log|, brokers, retries, shuffles))
        decreases if retries <= 0 then 0 else retries
      {
        ghost var log0 := broker.log;
        ghost var k0 := shuffles;
        var stop; ghost var ev;
        stop, r, brokers, retries, ev := Pass(st, block, brokers, retries);
        AppendAssoc(old(broker.log), done, ev);
        if stop {
          return;
        }
        AppendAssoc(done, ev, Retry(st, |broker.log|, brokers, retries, shuffles).events);
        done := done + ev;
      }
    }

    /** One pass of the `begin` block and, on `ConnectError`, of the `rescue` clause:
        either the loop ends with `r`, or it retries with a shorter budget. */
    method Pass(ghost st: Setup, block: Block, brokers: seq<string>, retries: int)
      returns (stop: bool, r: Result<Handle, Error>, brokers': seq<string>, retries': int, ghost ev: seq<Request>)
      requires memo == Some(st.hosts)
      requires st.oracle == broker.oracle && st.block == block && st.shuffle == shuffle && st.maxRetries == cfg.pulsarBrokerMaxRetries
      modifies this, broker
      ensures memo == old(memo)
      ensures broker.log == old(broker.log) + ev
      ensures var run := Retry(st, |old(broker.log)|, brokers, retries, old(shuffles));
              stop ==> r == run.r && ev == run.events && shuffles == run.shuffles &&
                       client == (if run.connected.Some? then run.connected else old(client))
      ensures !stop ==> client == old(client) && 0 < retries' < retries &&
                        Retry(st, |old(broker.log)|, brokers, retries, old(shuffles)) ==
                        After(ev, Retry(st, |broker.log|, brokers', retries', shuffles))
    {
      brokers', retries' := brokers, retries;
      if |brokers| == 0 {
        stop, r, ev := true, Failure(InvalidClientConfiguration(NoBrokerMessage)), [];
        return;
      }
      ghost var k := shuffles;
      var a := TryHost(brokers[0], block);
      RetryCases(st, |old(broker.log)|, brokers, retries, k, a);
      ev := a.events;
      if a.res.Success? {
        client := a.connected;
        stop, r := true, a.res;
        return;
      }
      if a.res.error != ConnectError {
        stop, r := true, a.res;
        return;
      }
      retries' := retries - 1;
      if retries' <= 0 {
        stop, r := true, Failure(InvalidClientConfiguration(UnableMessage(cfg.pulsarBrokerMaxRetries)));
        return;
      }
      stop, r := false, a.res;
      if |brokers| == 1 {
        var refill := BrokerHosts();
        brokers' := refill.value;
      } else {
        brokers' := brokers[1..];
      }
    }

    /** One attempt of the loop body: `connect(host)` and `yield instance`. */
    method TryHost(host: string, block: Block) returns (a: Attempt)
      modifies broker
      ensures a == Try(broker.oracle, block, |old(broker.log)|, host)
      ensures broker.log == old(broker.log) + a.events
    {
      var c := broker.Connect(Scheme + host);
      if c.Success? {
        var res := broker.Open(Apply(block, c.value));
        a := Attempt(res, [Request.Connect(Scheme + host), Apply(block, c.value)], Some(c.value));
      } else {
        a := Attempt(Failure(c.error), [Request.Connect(Scheme + host)], None);
      }
    }

    /** `shutdown`: close the global client when there is one; it stays recorded. */
    method Shutdown()
      modifies broker
      ensures client.Some? ==> broker.log == old(broker.log) + [CloseClient(client.value)]
      ensures client.None? ==> broker.log == old(broker.log)
    {
      if client.Some? {
        broker.Tell(CloseClient(client.value));
      }
    }
  }
}

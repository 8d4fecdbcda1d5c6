/**
  The request dispatcher of the Twitter API client (twitter.go), made sequential.

  A `TwitterApi` owns a FIFO queue of queries. Its dispatcher takes them one at a
  time, runs each through `ExecQuery` (which routes on the method code, calls the
  transport and classifies the HTTP response), hands exactly one response back on
  the query's own response channel, and then sleeps for what is left of the
  delay. Time is a logical clock in nanoseconds, the unit of Go's time.Duration.
  The transport and the JSON decoder are parameters of the model: they are the
  network, the remote service and encoding/json, none of which is modelled.
*/
module Twitter {
  import opened Base
  import opened Values
  import opened Strconv

  /** The method codes: `_GET` and `_POST` are iota constants 0 and 1. */
  const GET: int := 0
  const POST: int := 1
  /** `_DELETE` and `_PUT` are used by the webhook endpoints but are not defined in
      twitter.go; they are taken as the next two iota values. */
  const DELETE: int := 2
  const PUT: int := 3

  const Second: int := 1_000_000_000
  /** DEFAULT_DELAY, ten seconds. */
  const DefaultDelay: int := 10 * Second

  datatype Credentials = Credentials(token: string, secret: string)

  /** The Go type a response body is decoded into. */
  datatype Shape = AnyValue | DirectMessageRecord | DirectMessageList | DMEventListRecord

  /** The `data` pointer of a query: nil, or a location allocated by the caller. */
  datatype Target = NoTarget | Ref(id: nat, shape: Shape)

  /** What an endpoint wrapper hands to the dispatcher: URL, form, method code and,
      if the response is to be decoded, the shape it is decoded into. */
  datatype Request = Request(url: string, form: Form, methodCode: int, target: Option<Shape>)

  /** A `query` on the queue; `responseCh` identifies the caller's private channel. */
  datatype Query = Query(url: string, form: Form, data: Target, methodCode: int, responseCh: nat)

  datatype Error =
    | TransportFailure(reason: string)    // the error returned by the OAuth client
    | TwitterErrorResponse(body: string)  // a TwitterErrorResponse decoded from this body
    | Message(text: string)               // an error built by fmt.Errorf
    | DecodeFailure(body: string)         // the JSON decoder rejected this body

  /** A `response`: the query's `data` pointer, what the execution stored there, and `err`. */
  datatype Response = Response(data: Target, stored: Option<string>, err: Option<Error>)

  /** One send on a response channel. */
  datatype Delivery = Delivery(ch: nat, resp: Response)

  datatype Verb = HttpGet | HttpPost
  datatype HttpResponse = HttpResponse(status: int, requestUrl: string, body: string)
  datatype Reply = Failed(reason: string) | Received(resp: HttpResponse)
  /** The transport's answer to one call and how long the call took. */
  datatype Exchange = Exchange(reply: Reply, took: nat)

  /**
    The world outside the model: the signed HTTP transport, given the time of the
    call, and the two JSON questions the code asks: does this body decode into
    this target, and does it decode as a TwitterErrorResponse.
  */
  datatype Environment = Environment(
    transport: (int, Credentials, Verb, string, Form) -> Exchange,
    decodes: (Target, string) -> bool,
    parsesAsTwitterError: string -> bool)

  /** The outcome of one execution: what was stored in the target, and the error. */
  datatype Decoded = Decoded(stored: Option<string>, err: Option<Error>)
  datatype Execution = Execution(outcome: Decoded, took: nat)

  const NotSupported: string := "HTTP method not yet supported"

  /** `cleanValues`: a nil form becomes an empty one; any other form is kept. */
  function CleanValues(v: Form): (r: Form)
    ensures r.Values?
    ensures Entries(r) == Entries(v)
    ensures v.Values? ==> r == v
  {
    if v.Nil? then Empty else v
  }

  lemma CleanValuesIdempotent(v: Form)
    ensures CleanValues(CleanValues(v)) == CleanValues(v)
  {
  }

  /** The message of the error built when a failure body is not a TwitterErrorResponse. */
  function UnparsedError(url: string, status: int, body: string): (e: Error)
    ensures e.Message?
    ensures |e.text| > 32 + |url| + |body| + |FormatInt(status)|
    ensures e.text[..32 + |url|] == "Could not even parse error. Get " + url
    ensures e.text[|e.text| - |body|..] == body
  {
    Message("Could not even parse error. Get " + url + " returned status " + FormatInt(status) + ", " + body)
  }

  /** That message names the URL, the status code in decimal and the raw body. */
  lemma UnparsedErrorMentions(url: string, status: int, body: string)
    ensures Contains(UnparsedError(url, status, body).text, url)
    ensures Contains(UnparsedError(url, status, body).text, FormatInt(status))
    ensures Contains(UnparsedError(url, status, body).text, body)
  {
    var head := "Could not even parse error. Get ";
    var mid := " returned status ";
    var st := FormatInt(status);
    ContainsHalves(head, url);
    ContainsExtended(head + url, url, mid);
    ContainsExtended(head + url + mid, url, st);
    ContainsHalves(head + url + mid, st);
    ContainsExtended(head + url + mid + st, url, ", ");
    ContainsExtended(head + url + mid + st, st, ", ");
    ContainsExtended(head + url + mid + st + ", ", url, body);
    ContainsExtended(head + url + mid + st + ", ", st, body);
    ContainsHalves(head + url + mid + st + ", ", body);
  }

  /** A 503 answered with "not json" gives an error that mentions both. */
  lemma UnparsedErrorExample(url: string)
    ensures Contains(UnparsedError(url, 503, "not json").text, "503")
    ensures Contains(UnparsedError(url, 503, "not json").text, "not json")
  {
    assert Digits(50) == Digits(5) + ['0'];
    assert FormatInt(503) == Digits(50) + ['3'];
    assert FormatInt(503) == "503";
    UnparsedErrorMentions(url, 503, "not json");
  }

  /**
    `decodeResponse`: any status other than 200 is an error and stores nothing;
    that error is a TwitterErrorResponse when the body parses as one, else a
    message. A 200 body is decoded into the target.
  */
  function DecodeResponse(env: Environment, resp: HttpResponse, data: Target): (r: Decoded)
    ensures resp.status != 200 ==> r.stored.None? && r.err.Some?
    ensures resp.status != 200 ==>
      (r.err.value.TwitterErrorResponse? <==> env.parsesAsTwitterError(resp.body))
    ensures resp.status != 200 && !env.parsesAsTwitterError(resp.body) ==>
      r.err.value == UnparsedError(resp.requestUrl, resp.status, resp.body)
    ensures resp.status == 200 ==> (r.err.None? <==> data.Ref? && env.decodes(data, resp.body))
    ensures r.stored.Some? <==> resp.status == 200 && data.Ref? && env.decodes(data, resp.body)
    ensures r.stored.Some? ==> r.stored.value == resp.body
  {
    if resp.status != 200 then
      if env.parsesAsTwitterError(resp.body) then Decoded(None, Some(TwitterErrorResponse(resp.body)))
      else Decoded(None, Some(UnparsedError(resp.requestUrl, resp.status, resp.body)))
    else if data.Ref? && env.decodes(data, resp.body) then
      Decoded(Some(resp.body), None)
    else
      Decoded(None, Some(DecodeFailure(resp.body)))
  }

  /** `apiGet` / `apiPost`: one signed call; a transport error is returned as it is,
      otherwise the response is decoded. */
  function ApiCall(env: Environment, creds: Credentials, now: int, verb: Verb,
                   url: string, form: Form, data: Target): (r: Execution)
    ensures r.took == env.transport(now, creds, verb, url, form).took
    ensures env.transport(now, creds, verb, url, form).reply.Failed? ==>
      r.outcome == Decoded(None, Some(TransportFailure(env.transport(now, creds, verb, url, form).reply.reason)))
    ensures env.transport(now, creds, verb, url, form).reply.Received? ==>
      r.outcome == DecodeResponse(env, env.transport(now, creds, verb, url, form).reply.resp, data)
  {
    var x := env.transport(now, creds, verb, url, form);
    match x.reply
    case Failed(reason) => Execution(Decoded(None, Some(TransportFailure(reason))), x.took)
    case Received(resp) => Execution(DecodeResponse(env, resp, data), x.took)
  }

  /** `execQuery`: routes `_GET` and `_POST`; any other code is refused without a call. */
  function ExecQuery(env: Environment, creds: Credentials, now: int, q: Query): (x: Execution)
    ensures x.outcome.stored.Some? ==> q.data.Ref? && x.outcome.err.None?
    ensures x.outcome.stored.Some? <==> x.outcome.err.None?
  {
    if q.methodCode == GET then ApiCall(env, creds, now, HttpGet, q.url, q.form, q.data)
    else if q.methodCode == POST then ApiCall(env, creds, now, HttpPost, q.url, q.form, q.data)
    else Execution(Decoded(None, Some(Message(NotSupported))), 0)
  }

  lemma ExecQueryRoutes(env: Environment, creds: Credentials, now: int, q: Query)
    ensures q.methodCode == GET ==>
      ExecQuery(env, creds, now, q) == ApiCall(env, creds, now, HttpGet, q.url, q.form, q.data)
    ensures q.methodCode == POST ==>
      ExecQuery(env, creds, now, q) == ApiCall(env, creds, now, HttpPost, q.url, q.form, q.data)
  {
  }

  /** Any other method code yields "HTTP method not yet supported", takes no time,
      and does not depend on the transport: no request is issued. */
  lemma ExecQueryUnsupported(env: Environment, env': Environment, creds: Credentials, now: int, q: Query)
    requires q.methodCode != GET && q.methodCode != POST
    ensures ExecQuery(env, creds, now, q).outcome == Decoded(None, Some(Message(NotSupported)))
    ensures ExecQuery(env, creds, now, q) == ExecQuery(env', creds, now, q)
    ensures ExecQuery(env, creds, now, q).took == 0
  {
  }

  /** The response a query's caller receives: its own `data` and the execution's error. */
  function Deliver(q: Query, x: Execution): (d: Delivery)
    ensures d.ch == q.responseCh && d.resp.data == q.data
    ensures d.resp.stored == x.outcome.stored && d.resp.err == x.outcome.err
  {
    Delivery(q.responseCh, Response(q.data, x.outcome.stored, x.outcome.err))
  }

  /**
    `time.Sleep(delay - time.Since(start))` taken at time `now`: the clock after the
    sleep. A non-positive remainder does not sleep at all.
  */
  function SleepUntil(start: int, now: int, delay: int): (r: int)
    ensures r >= now && r >= start + delay
    ensures r == now || r == start + delay
  {
    if delay - (now - start) > 0 then now + (delay - (now - start)) else now
  }

  /** The query a wrapper's request becomes once it is given response channel `ch`;
      a decode target, if any, is a fresh location named after the channel. */
  function QueryFor(req: Request, ch: nat): (q: Query)
    ensures q.responseCh == ch
  {
    Query(req.url, req.form, if req.target.Some? then Ref(ch, req.target.value) else NoTarget, req.methodCode, ch)
  }

  /** The request a query carries. */
  function RequestOf(q: Query): Request {
    Request(q.url, q.form, q.methodCode, if q.data.Ref? then Some(q.data.shape) else None)
  }

  lemma RequestOfQueryFor(req: Request, ch: nat)
    ensures RequestOf(QueryFor(req, ch)) == req
  {
  }

  /** What the dispatcher loop produces for a queue: the deliveries in order, the
      start time of each execution, and the clock once the last sleep is over. */
  datatype Trace = Trace(log: seq<Delivery>, starts: seq<int>, clock: int)

  /**
    The dispatcher loop of `throttledQuery` over `queue` from time `clock`, with the
    delay left unchanged throughout: each query starts, executes, has its response
    delivered, and the loop sleeps until `delay` after the start.
  */
  function Run(env: Environment, creds: Credentials, queue: seq<Query>, delay: int, clock: int): (t: Trace)
    ensures |t.log| == |queue| && |t.starts| == |queue|
    ensures queue != [] ==> t.log[0].ch == queue[0].responseCh && t.starts[0] == clock
    ensures t.clock >= clock
    decreases |queue|
  {
    if queue == [] then Trace([], [], clock)
    else
      var x := ExecQuery(env, creds, clock, queue[0]);
      var rest := Run(env, creds, queue[1..], delay, SleepUntil(clock, clock + x.took, delay));
      Trace([Deliver(queue[0], x)] + rest.log, [clock] + rest.starts, rest.clock)
  }

  /**
    Every query is answered exactly once, in arrival order, on its own channel,
    with its own data and the outcome of its own execution, whether or not that
    execution failed.
  */
  lemma {:induction false} RunAnswersEachQueryInOrder(env: Environment, creds: Credentials,
                                                      queue: seq<Query>, delay: int, clock: int)
    ensures |Run(env, creds, queue, delay, clock).log| == |queue|
    ensures |Run(env, creds, queue, delay, clock).starts| == |queue|
    ensures forall i :: 0 <= i < |queue| ==>
      Run(env, creds, queue, delay, clock).log[i] ==
        Deliver(queue[i], ExecQuery(env, creds, Run(env, creds, queue, delay, clock).starts[i], queue[i]))
    decreases |queue|
  {
    if queue != [] {
      var x := ExecQuery(env, creds, clock, queue[0]);
      var next := SleepUntil(clock, clock + x.took, delay);
      RunAnswersEachQueryInOrder(env, creds, queue[1..], delay, next);
      var t := Run(env, creds, queue, delay, clock);
      var rest := Run(env, creds, queue[1..], delay, next);
      forall i | 1 <= i < |queue|
        ensures t.log[i] == Deliver(queue[i], ExecQuery(env, creds, t.starts[i], queue[i]))
      {
        assert t.log[i] == rest.log[i - 1] && t.starts[i] == rest.starts[i - 1];
        assert queue[i] == queue[1..][i - 1];
      }
    }
  }

  /** When the queue's channels are distinct, so are the channels answered: no
      response reaches another caller's channel. */
  lemma RunDeliversToDistinctChannels(env: Environment, creds: Credentials,
                                      queue: seq<Query>, delay: int, clock: int)
    requires forall i, j :: 0 <= i < j < |queue| ==> queue[i].responseCh != queue[j].responseCh
    ensures |Run(env, creds, queue, delay, clock).log| == |queue|
    ensures forall i, j :: 0 <= i < j < |queue| ==>
      Run(env, creds, queue, delay, clock).log[i].ch != Run(env, creds, queue, delay, clock).log[j].ch
  {
    RunAnswersEachQueryInOrder(env, creds, queue, delay, clock);
  }

  /** The first query starts at once, and the loop ends no sooner than `delay`
      after the last start. */
  lemma {:induction false} RunTiming(env: Environment, creds: Credentials,
                                     queue: seq<Query>, delay: int, clock: int)
    ensures var t := Run(env, creds, queue, delay, clock);
      && |t.starts| == |queue|
      && (|queue| > 0 ==> t.starts[0] == clock && t.clock >= Last(t.starts) + delay)
      && t.clock >= clock
    decreases |queue|
  {
    if queue != [] {
      var x := ExecQuery(env, creds, clock, queue[0]);
      var next := SleepUntil(clock, clock + x.took, delay);
      RunTiming(env, creds, queue[1..], delay, next);
      RunStep(env, creds, queue, delay, clock);
      var rest := Run(env, creds, queue[1..], delay, next);
      var t := Run(env, creds, queue, delay, clock);
      assert t.starts == [clock] + rest.starts;
      if rest.starts != [] {
        assert Last(t.starts) == Last(rest.starts);
      }
    }
  }

  /**
    Each query after the first starts no sooner than `delay` after the previous
    start and no sooner than the previous execution ended: executions never overlap.
  */
  lemma {:induction false} RunSpacing(env: Environment, creds: Credentials,
                                      queue: seq<Query>, delay: int, clock: int)
    ensures var t := Run(env, creds, queue, delay, clock);
      && |t.starts| == |queue|
      && (forall i, j :: 0 <= i && j == i + 1 && j < |queue| ==>
            t.starts[j] >= t.starts[i] + delay &&
            t.starts[j] >= t.starts[i] + ExecQuery(env, creds, t.starts[i], queue[i]).took)
    decreases |queue|
  {
    if queue != [] {
      var x := ExecQuery(env, creds, clock, queue[0]);
      var next := SleepUntil(clock, clock + x.took, delay);
      RunSpacing(env, creds, queue[1..], delay, next);
      RunTiming(env, creds, queue[1..], delay, next);
      RunStep(env, creds, queue, delay, clock);
      var t := Run(env, creds, queue, delay, clock);
      var rest := Run(env, creds, queue[1..], delay, next);
      assert t.starts == [clock] + rest.starts;
      forall i, j | 0 <= i && j == i + 1 && j < |queue|
        ensures t.starts[j] >= t.starts[i] + delay
        ensures t.starts[j] >= t.starts[i] + ExecQuery(env, creds, t.starts[i], queue[i]).took
      {
        if i == 0 {
          assert t.starts[0] == clock && t.starts[1] == rest.starts[0] == next;
        } else {
          assert t.starts[j] == rest.starts[i] && t.starts[i] == rest.starts[i - 1];
          assert queue[i] == queue[1..][i - 1];
        }
      }
    }
  }

  /** With a delay of zero or less the loop never sleeps: each query starts the
      moment the previous execution ends. */
  lemma {:induction false} RunWithoutDelay(env: Environment, creds: Credentials,
                                           queue: seq<Query>, delay: int, clock: int)
    requires delay <= 0
    ensures var t := Run(env, creds, queue, delay, clock);
      && |t.starts| == |queue|
      && (forall i, j :: 0 <= i && j == i + 1 && j < |queue| ==>
            t.starts[j] == t.starts[i] + ExecQuery(env, creds, t.starts[i], queue[i]).took)
    decreases |queue|
  {
    if queue != [] {
      var x := ExecQuery(env, creds, clock, queue[0]);
      var next := SleepUntil(clock, clock + x.took, delay);
      assert next == clock + x.took;
      RunWithoutDelay(env, creds, queue[1..], delay, next);
      RunTiming(env, creds, queue[1..], delay, next);
      RunStep(env, creds, queue, delay, clock);
      var t := Run(env, creds, queue, delay, clock);
      var rest := Run(env, creds, queue[1..], delay, next);
      assert t.starts == [clock] + rest.starts;
      forall i, j | 0 <= i && j == i + 1 && j < |queue|
        ensures t.starts[j] == t.starts[i] + ExecQuery(env, creds, t.starts[i], queue[i]).took
      {
        if i == 0 {
          assert t.starts[0] == clock && t.starts[1] == rest.starts[0] == next;
        } else {
          assert t.starts[j] == rest.starts[i] && t.starts[i] == rest.starts[i - 1];
          assert queue[i] == queue[1..][i - 1];
        }
      }
    }
  }

  lemma MulSucc(n: nat, d: int)
    ensures (n + 1) * d == d + n * d
  {
  }

  /** With a non-negative delay, `n` queries keep the loop busy for at least `n` delays. */
  lemma {:induction false} RunDuration(env: Environment, creds: Credentials,
                                       queue: seq<Query>, delay: int, clock: int)
    requires delay >= 0
    ensures Run(env, creds, queue, delay, clock).clock >= clock + |queue| * delay
    decreases |queue|
  {
    if queue != [] {
      var x := ExecQuery(env, creds, clock, queue[0]);
      var next := SleepUntil(clock, clock + x.took, delay);
      RunDuration(env, creds, queue[1..], delay, next);
      RunStep(env, creds, queue, delay, clock);
      MulSucc(|queue[1..]|, delay);
    }
  }

  /** One step of `Run`: the head is executed at `clock`, the rest follows from the
      end of its sleep. */
  lemma RunStep(env: Environment, creds: Credentials, queue: seq<Query>, delay: int, clock: int)
    requires queue != []
    ensures var x := ExecQuery(env, creds, clock, queue[0]);
      var rest := Run(env, creds, queue[1..], delay, SleepUntil(clock, clock + x.took, delay));
      Run(env, creds, queue, delay, clock) ==
        Trace([Deliver(queue[0], x)] + rest.log, [clock] + rest.starts, rest.clock)
  {
  }

  /** Taking one step of `Run` and appending its delivery and start to a history
      leaves the history followed by the rest of the run unchanged. */
  lemma RunStepAppended(env: Environment, creds: Credentials, queue: seq<Query>, delay: int, clock: int,
                        delivered: seq<Delivery>, starts: seq<int>)
    requires queue != []
    ensures var x := ExecQuery(env, creds, clock, queue[0]);
      var t := Run(env, creds, queue, delay, clock);
      var r := Run(env, creds, queue[1..], delay, SleepUntil(clock, clock + x.took, delay));
      && (delivered + [Deliver(queue[0], x)]) + r.log == delivered + t.log
      && (starts + [clock]) + r.starts == starts + t.starts
      && r.clock == t.clock
  {
    var x := ExecQuery(env, creds, clock, queue[0]);
    var r := Run(env, creds, queue[1..], delay, SleepUntil(clock, clock + x.took, delay));
    RunStep(env, creds, queue, delay, clock);
    AppendOne(delivered, Deliver(queue[0], x), r.log);
    AppendOne(starts, clock, r.starts);
  }

  /** Two runs in a row, the second starting when the first ends: the second run's
      first query starts at least `delay` after the first run's last one. */
  lemma {:induction false} ConsecutiveRunsSpaced(env: Environment, creds: Credentials,
                                                 first: seq<Query>, second: seq<Query>, delay: int, clock: int)
    requires first != [] && second != []
    ensures var t1 := Run(env, creds, first, delay, clock);
      var t2 := Run(env, creds, second, delay, t1.clock);
      t2.starts[0] >= Last(t1.starts) + delay
  {
    RunTiming(env, creds, first, delay, clock);
  }

  /** Queries are served in the order they were submitted, and the i-th query
      submitted owns channel i, the i-th channel made. */
  ghost predicate FifoOk(submitted: seq<Query>, served: seq<Query>, queue: seq<Query>, channels: nat) {
    && submitted == served + queue
    && channels == |submitted|
    && (forall i :: 0 <= i < |submitted| ==> submitted[i].responseCh == i)
  }

  /** One response per served query, sent on its channel, carrying the outcome of
      its own execution at its recorded start time. */
  ghost predicate AnsweredOk(env: Environment, creds: Credentials, served: seq<Query>, starts: seq<int>,
                             executions: seq<Execution>, delivered: seq<Delivery>) {
    && |served| == |starts| == |executions| == |delivered|
    && (forall i :: 0 <= i < |served| ==> executions[i] == ExecQuery(env, creds, starts[i], served[i]))
    && (forall i :: 0 <= i < |served| ==> delivered[i] == Deliver(served[i], executions[i]))
  }

  /**
    One execution at a time, and each start no sooner than the delay read after the
    previous execution. `sleeping` is Some(start) while the sleep of the last
    iteration is still to come; until then that iteration has read no delay.
  */
  ghost predicate SpacedOk(starts: seq<int>, executions: seq<Execution>, delaysRead: seq<int>,
                           clock: int, sleeping: Option<int>) {
    && |starts| == |executions|
    && (sleeping.Some? ==> |starts| > 0 && sleeping.value == Last(starts))
    && |delaysRead| == |starts| - (if sleeping.Some? then 1 else 0)
    && (forall i, j :: 0 <= i && j == i + 1 && j < |starts| ==> starts[j] >= starts[i] + executions[i].took)
    && (forall i, j :: 0 <= i && j == i + 1 && j < |starts| ==> starts[j] >= starts[i] + delaysRead[i])
    && (forall i :: 0 <= i < |starts| ==> starts[i] <= clock)
    && (|starts| > 0 ==> clock >= Last(starts) + Last(executions).took)
    && (sleeping.None? && |starts| > 0 ==> clock >= Last(starts) + Last(delaysRead))
  }

  /** Sending a query on a fresh channel keeps the queue FIFO. */
  lemma FifoEnqueue(submitted: seq<Query>, served: seq<Query>, queue: seq<Query>, channels: nat,
                    q: Query, submitted': seq<Query>, queue': seq<Query>)
    requires FifoOk(submitted, served, queue, channels) && q.responseCh == channels
    requires submitted' == submitted + [q] && queue' == queue + [q]
    ensures FifoOk(submitted', served, queue', channels + 1)
  {
  }

  /** Taking the head of the queue keeps it FIFO. */
  lemma FifoServe(submitted: seq<Query>, served: seq<Query>, queue: seq<Query>, channels: nat,
                  served': seq<Query>, queue': seq<Query>)
    requires FifoOk(submitted, served, queue, channels) && queue != []
    requires served' == served + [queue[0]] && queue' == queue[1..]
    ensures FifoOk(submitted, served', queue', channels)
  {
    assert served + queue == (served + [queue[0]]) + queue[1..];
  }

  /** Executing a query and sending its response keeps every query answered. */
  lemma AnsweredServe(env: Environment, creds: Credentials, served: seq<Query>, starts: seq<int>,
                      executions: seq<Execution>, delivered: seq<Delivery>, q: Query, start: int,
                      served': seq<Query>, starts': seq<int>, executions': seq<Execution>,
                      delivered': seq<Delivery>)
    requires AnsweredOk(env, creds, served, starts, executions, delivered)
    requires var x := ExecQuery(env, creds, start, q);
      served' == served + [q] && starts' == starts + [start] &&
      executions' == executions + [x] && delivered' == delivered + [Deliver(q, x)]
    ensures AnsweredOk(env, creds, served', starts', executions', delivered')
  {
  }

  /** An execution starting now keeps the starts spaced. */
  lemma SpacedExecute(starts: seq<int>, executions: seq<Execution>, delaysRead: seq<int>,
                      clock: int, x: Execution, starts': seq<int>, executions': seq<Execution>)
    requires SpacedOk(starts, executions, delaysRead, clock, None)
    requires starts' == starts + [clock] && executions' == executions + [x]
    ensures SpacedOk(starts', executions', delaysRead, clock + x.took, Some(clock))
  {
  }

  /** Sleeping until `delay` after the start keeps the starts spaced. */
  lemma SpacedSleep(starts: seq<int>, executions: seq<Execution>, delaysRead: seq<int>,
                    clock: int, start: int, delay: int, delaysRead': seq<int>, clock': int)
    requires SpacedOk(starts, executions, delaysRead, clock, Some(start))
    requires delaysRead' == delaysRead + [delay] && clock' == SleepUntil(start, clock, delay)
    ensures SpacedOk(starts, executions, delaysRead', clock', None)
  {
  }

  /** What the dispatcher has done so far: every query submitted and served, each
      execution and its start time, and the delay each sleep read. */
  datatype History = History(submitted: seq<Query>, served: seq<Query>, executions: seq<Execution>,
                             starts: seq<int>, delaysRead: seq<int>)

  /**
    The client. `queue` holds the queries sent but not yet taken by the dispatcher,
    `delivered` every response sent so far, `channels` the number of response
    channels made. `sleeping` is Some(start) between the delivery of a response and
    the sleep that follows it. The ghost fields record the history: every query
    submitted and served, each execution and its start time, and the delay each
    sleep read.
  */
  class TwitterApi {
    const credentials: Credentials
    const baseUrl: string
    const env: Environment
    var delay: int
    var clock: int
    var queue: seq<Query>
    var delivered: seq<Delivery>
    var channels: nat
    var sleeping: Option<int>
    ghost var hist: History

    ghost predicate Valid()
      reads this
    {
      && FifoOk(hist.submitted, hist.served, queue, channels)
      && AnsweredOk(env, credentials, hist.served, hist.starts, hist.executions, delivered)
      && SpacedOk(hist.starts, hist.executions, hist.delaysRead, clock, sleeping)
    }

    /** `NewTwitterApi`: no query yet, and the default delay. */
    constructor (accessToken: string, accessTokenSecret: string, baseUrl: string, env: Environment)
      ensures Valid()
      ensures credentials == Credentials(accessToken, accessTokenSecret)
      ensures this.baseUrl == baseUrl && this.env == env
      ensures delay == DefaultDelay
      ensures queue == [] && delivered == [] && hist.submitted == [] && sleeping == None
    {
      credentials := Credentials(accessToken, accessTokenSecret);
      this.baseUrl := baseUrl;
      this.env := env;
      delay := DefaultDelay;
      clock := 0;
      queue := [];
      delivered := [];
      channels := 0;
      sleeping := None;
      hist := History([], [], [], [], []);
    }

    /** `SetDelay`: only the delay changes. */
    method SetDelay(t: int)
      requires Valid()
      modifies this`delay
      ensures Valid() && delay == t
    {
      delay := t;
    }

    /** `GetDelay`. */
    method GetDelay() returns (t: int)
      ensures t == delay
    {
      t := delay;
    }

    /** A caller makes a fresh response channel and sends its query on the queue. */
    method Enqueue(req: Request) returns (ch: nat)
      requires Valid()
      modifies this
      ensures Valid()
      ensures ch == old(channels)
      ensures queue == old(queue) + [QueryFor(req, ch)]
      ensures hist.submitted == old(hist.submitted) + [QueryFor(req, ch)]
      ensures delivered == old(delivered) && hist.starts == old(hist.starts)
      ensures delay == old(delay) && clock == old(clock) && sleeping == old(sleeping)
    {
      ch := channels;
      var q := QueryFor(req, ch);
      FifoEnqueue(hist.submitted, hist.served, queue, ch, q, hist.submitted + [q], queue + [q]);
      channels := channels + 1;
      queue := queue + [q];
      hist := hist.(submitted := hist.submitted + [q]);
    }

    /** The first half of an iteration of `throttledQuery`: take the next query, note
        the start time, execute it and send its response. */
    method Execute()
      requires Valid() && queue != [] && sleeping.None?
      modifies this
      ensures Valid()
      ensures var x := ExecQuery(env, credentials, old(clock), old(queue)[0]);
        && queue == old(queue)[1..]
        && delivered == old(delivered) + [Deliver(old(queue)[0], x)]
        && clock == old(clock) + x.took
      ensures sleeping == Some(old(clock)) && hist.starts == old(hist.starts) + [old(clock)]
      ensures delay == old(delay) && hist.submitted == old(hist.submitted)
    {
      var q := queue[0];
      var start := clock;
      var x := ExecQuery(env, credentials, start, q);
      var queue', delivered' := queue[1..], delivered + [Deliver(q, x)];
      ghost var h' := hist.(served := hist.served + [q], executions := hist.executions + [x],
                            starts := hist.starts + [start]);
      FifoServe(hist.submitted, hist.served, queue, channels, h'.served, queue');
      AnsweredServe(env, credentials, hist.served, hist.starts, hist.executions, delivered, q, start,
                    h'.served, h'.starts, h'.executions, delivered');
      SpacedExecute(hist.starts, hist.executions, hist.delaysRead, clock, x, h'.starts, h'.executions);
      queue, delivered, hist := queue', delivered', h';
      clock := clock + x.took;
      sleeping := Some(start);
    }

    /** The second half: read the delay once and sleep what is left of it. */
    method Sleep()
      requires Valid() && sleeping.Some?
      modifies this
      ensures Valid()
      ensures clock == SleepUntil(old(sleeping).value, old(clock), old(delay))
      ensures sleeping == None && hist.delaysRead == old(hist.delaysRead) + [old(delay)]
      ensures queue == old(queue) && delivered == old(delivered) && delay == old(delay)
      ensures hist.submitted == old(hist.submitted) && hist.starts == old(hist.starts)
    {
      var start := sleeping.value;
      var d := delay;
      SpacedSleep(hist.starts, hist.executions, hist.delaysRead, clock, start, d,
                  hist.delaysRead + [d], SleepUntil(start, clock, d));
      hist := hist.(delaysRead := hist.delaysRead + [d]);
      var wait := d - (clock - start);
      if wait > 0 {
        clock := clock + wait;
      }
      sleeping := None;
    }

    /**
      What the deliveries, the start times and the clock will be once the queue is
      drained at the current delay: the history so far followed by `Run` on the queue.
    */
    ghost function Projected(): Trace
      reads this
    {
      var t := Run(env, credentials, queue, delay, clock);
      Trace(delivered + t.log, hist.starts + t.starts, t.clock)
    }

    /** One whole iteration of `throttledQuery`, with no change of delay inside it:
        it does the first step of `Run`, so the projected outcome is unchanged. */
    method Step()
      requires Valid() && queue != [] && sleeping.None?
      modifies this
      ensures Valid() && sleeping.None?
      ensures var x := ExecQuery(env, credentials, old(clock), old(queue)[0]);
        && queue == old(queue)[1..]
        && delivered == old(delivered) + [Deliver(old(queue)[0], x)]
        && hist.starts == old(hist.starts) + [old(clock)]
        && clock == SleepUntil(old(clock), old(clock) + x.took, delay)
      ensures Projected() == old(Projected())
      ensures delay == old(delay) && hist.submitted == old(hist.submitted)
    {
      RunStepAppended(env, credentials, queue, delay, clock, delivered, hist.starts);
      Execute();
      Sleep();
    }

    /** The clock at which the dispatcher is ready for the next query. */
    ghost function Ready(): int
      reads this
    {
      if sleeping.Some? then SleepUntil(sleeping.value, clock, delay) else clock
    }

    /** What `Run` predicts once `req` has joined the queue on the next channel and
        the dispatcher is ready. */
    ghost function Planned(req: Request): Trace
      reads this
    {
      Run(env, credentials, queue + [QueryFor(req, channels)], delay, Ready())
    }

    /** Run the dispatcher until the queue is empty, with the delay left alone. */
    method Drain()
      requires Valid()
      modifies this
      ensures Valid() && queue == [] && sleeping.None?
      ensures var t := Run(env, credentials, old(queue), old(delay), old(Ready()));
        && delivered == old(delivered) + t.log
        && hist.starts == old(hist.starts) + t.starts
        && clock == t.clock
      ensures delay == old(delay) && hist.submitted == old(hist.submitted)
    {
      if sleeping.Some? {
        Sleep();
      }
      ghost var p0 := Projected();
      while queue != []
        invariant Valid() && sleeping.None?
        invariant delay == old(delay) && hist.submitted == old(hist.submitted)
        invariant Projected() == p0
        decreases |queue|
      {
        Step();
      }
    }

    /**
      The last query submitted is `req` on channel `ch`, and the last response sent
      went to `ch`, carrying that query's data and the outcome of its execution at
      its recorded start.
    */
    ghost predicate Answered(req: Request, ch: nat)
      reads this
    {
      var q := QueryFor(req, ch);
      && |hist.submitted| > 0 && Last(hist.submitted) == q
      && |hist.starts| > 0 && |delivered| > 0
      && Last(delivered) == Deliver(q, ExecQuery(env, credentials, Last(hist.starts), q))
    }

    /**
      Send a request and wait for its response: a fresh channel is made, the query
      joins the queue, and the dispatcher serves everything ahead of it and then it.
      The response returned is the one sent on the new channel.
    */
    method Submit(req: Request) returns (resp: Response)
      requires Valid()
      modifies this
      ensures Valid() && queue == [] && sleeping.None?
      ensures Answered(req, old(channels)) && resp == Last(delivered).resp
      ensures |hist.submitted| == |old(hist.submitted)| + 1 && RequestOf(Last(hist.submitted)) == req
      ensures var t := old(Planned(req));
        && delivered == old(delivered) + t.log
        && hist.starts == old(hist.starts) + t.starts
        && clock == t.clock
      ensures hist.starts[|old(hist.starts)|] == old(Ready())
      ensures clock >= Last(hist.starts) + delay
      ensures delay == old(delay) && channels == old(channels) + 1
    {
      var ch := Enqueue(req);
      RequestOfQueryFor(req, ch);
      ghost var queued := queue;
      Drain();
      RunTiming(env, credentials, queued, delay, old(Ready()));
      resp := delivered[|delivered| - 1].resp;
    }
  }

  /**
    Two requests sent one after the other, as two calls of a wrapper: the second
    query starts no sooner than `delay` after the first.
  */
  method SubmitInTurn(api: TwitterApi, first: Request, second: Request) returns (r1: Response, r2: Response)
    requires api.Valid()
    modifies api
    ensures api.Valid() && api.delay == old(api.delay)
    ensures |api.hist.starts| == |old(api.hist.starts)| + |old(api.queue)| + 2
    ensures Last(api.hist.starts) >= api.hist.starts[|api.hist.starts| - 2] + api.delay
  {
    r1 := api.Submit(first);
    ghost var starts1 := api.hist.starts;
    assert api.Ready() == api.clock >= Last(starts1) + api.delay;
    r2 := api.Submit(second);
    assert api.hist.starts[|starts1|] >= Last(starts1) + api.delay;
    assert |api.hist.starts| == |starts1| + 1;
  }
}

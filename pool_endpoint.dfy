/**
 * One backend of the pool and the requests in flight to it.
 *
 * `PoolEndpoint` keeps the request counters (created, succeeded, failed, rejected by a
 * retry filter, pending), the health flag with its pinger, the map of in-flight requests
 * by id, and the periodic timeout sweep. `PoolEndpointRequest` is the per-request state
 * machine driven by transport events; it settles the request with the endpoint exactly
 * once, after which its callback is gone and every outcome handler does nothing.
 *
 * The two classes refer to each other (a request reports its outcome to its endpoint, the
 * endpoint completes the request), so they share one module. Transport calls a request
 * makes are appended to `outCalls`; callback invocations to `delivered`; events the
 * endpoint emits to `events`. Times are `now` parameters.
 */
module Endpoint {
  import opened Js
  import opened Exchange
  import PoolPinger

  /** Once `request_count` reaches 2^52 the counters are rebased. */
  const MAX_COUNT: int := 0x10_0000_0000_0000
  const DEFAULT_TIMEOUT: int := 60000
  const DEFAULT_PING_TIMEOUT: int := 5000

  /** The endpoint options the core reads (`timeout`, `ping`, `ping_timeout`, `keep_alive`/`keepAlive`). */
  datatype EndpointOptions = EndpointOptions(
    timeout: Option<int>,
    ping: Option<string>,
    pingTimeout: Option<int>,
    keepAlive: bool,
    keepAliveCamel: bool)

  /** The endpoint's counters, as one value. */
  datatype Counters = Counters(
    requestCount: int,
    requestsLastCheck: int,
    requestRate: int,
    pending: int,
    successes: int,
    failures: int,
    filtered: int)

  /** The number of settled requests. */
  function Settled(c: Counters): int
  {
    c.successes + c.failures + c.filtered
  }

  /** `pending` is the number of created requests not yet settled. */
  predicate Balanced(c: Counters)
  {
    c.pending == c.requestCount - Settled(c)
  }

  /** `reset_counters` */
  function Rebased(c: Counters): Counters
  {
    c.(requestsLastCheck := c.requestRate - c.pending, requestCount := c.pending,
       successes := 0, failures := 0, filtered := 0)
  }

  /** `update_pending`: recompute `pending`, then rebase when `request_count` is exactly 2^52. */
  function Recount(c: Counters): Counters
  {
    var c1 := c.(pending := c.requestCount - Settled(c));
    if c1.requestCount == MAX_COUNT then Rebased(c1) else c1
  }

  /** A request was created (`request_count++` in the request's constructor), then `update_pending`. */
  function Admit(c: Counters): Counters
  {
    Recount(c.(requestCount := c.requestCount + 1))
  }

  /** How a request settled with its endpoint. */
  datatype Outcome = Succeeded | Failed | Filtered

  /** The one counter an outcome advances. */
  function Count(c: Counters, o: Outcome): Counters
  {
    match o
    case Succeeded => c.(successes := c.successes + 1)
    case Failed => c.(failures := c.failures + 1)
    case Filtered => c.(filtered := c.filtered + 1)
  }

  /** `request_succeeded`/`request_failed`/`filter_rejected`: count the outcome, then `update_pending` in `complete`. */
  function Settle(c: Counters, o: Outcome): Counters
  {
    Recount(Count(c, o))
  }

  /** The rate bookkeeping at the end of `check_timeouts`. */
  function Sweep(c: Counters): Counters
  {
    c.(requestRate := c.requestCount - c.requestsLastCheck, requestsLastCheck := c.requestCount)
  }

  /** After `update_pending` the counters are balanced, and `pending` is the unsettled count whether or not a rebase happened. */
  lemma RecountBalances(c: Counters)
    ensures Balanced(Recount(c))
    ensures Recount(c).pending == c.requestCount - Settled(c)
  {
  }

  /** A rebase changes neither `pending` nor `request_rate`, clears the outcome counters and restarts `request_count` at `pending`. */
  lemma RebaseKeepsPending(c: Counters)
    requires Balanced(c) && c.requestCount == MAX_COUNT
    ensures Recount(c).pending == c.pending && Recount(c).requestRate == c.requestRate
    ensures Recount(c).requestCount == c.pending && Settled(Recount(c)) == 0
    ensures Recount(c).requestsLastCheck == c.requestRate - c.pending
  {
  }

  /**
   * After a rebase, `request_count - requests_last_check` is `2 * pending - request_rate`,
   * so it does not carry the rate over unless `pending == request_rate`.
   */
  lemma RebaseRateGap(c: Counters)
    requires c.requestCount == MAX_COUNT
    ensures var r := Recount(c); r.requestCount - r.requestsLastCheck == 2 * r.pending - c.requestRate
  {
  }

  /** Creating a request raises `pending` by one and keeps the counters balanced. */
  lemma AdmitRaisesPending(c: Counters)
    requires Balanced(c)
    ensures Balanced(Admit(c)) && Admit(c).pending == c.pending + 1
    ensures c.requestCount + 1 != MAX_COUNT ==> Admit(c).requestCount == c.requestCount + 1
  {
  }

  /**
   * Settling a request lowers `pending` by one; short of a rebase it advances exactly the
   * counter of its outcome by one and leaves the other two alone.
   */
  lemma SettleLowersPending(c: Counters, o: Outcome)
    requires Balanced(c)
    ensures Balanced(Settle(c, o)) && Settle(c, o).pending == c.pending - 1
    ensures c.requestCount != MAX_COUNT ==>
              var r := Settle(c, o);
              r.requestCount == c.requestCount &&
              r.successes == c.successes + (if o == Succeeded then 1 else 0) &&
              r.failures == c.failures + (if o == Failed then 1 else 0) &&
              r.filtered == c.filtered + (if o == Filtered then 1 else 0)
  {
  }

  /**
   * The rebase exercised by the endpoint tests: with 2^51 - 250 successes, 2^51 - 251
   * failures and 1 filtered at 2^52 requests, `pending` is 500 and the request count
   * restarts at 500; resetting again with a rate of 600 puts the last check at 100.
   */
  lemma RebaseExample()
    ensures var c := Recount(Counters(MAX_COUNT, 0, 0, 0, 0x8_0000_0000_0000 - 250, 0x8_0000_0000_0000 - 251, 1));
            c.pending == 500 && c.requestCount == 500 && Settled(c) == 0
    ensures Rebased(Counters(MAX_COUNT, 0, 600, 500, 0, 0, 0)).requestsLastCheck == 100
  {
  }

  /** An event the endpoint emits. */
  datatype EndpointEvent = Health(healthy: bool) | TimeoutEvent(id: int)

  /** The request's `state` string. */
  datatype RequestState =
    | Init | ReqWrite | ReqWriteBuffer | ReqEnd | ResStart | ResRead | ResEnd
    | ResAborted | ReqTimeout | ResTimeout | ErrorState | AbortState

  /** An event a request emits as a stream: "drain", "data" with the chunk, "end", and "done" with the callback's arguments. */
  datatype StreamEvent = DrainEvent | DataEvent(chunk: Body) | EndEvent | DoneEvent(completion: Completion)

  /** A call a request makes on its outgoing transport request. */
  datatype OutCall =
    | Open
    | SetContentLength(length: nat)
    | WriteChunk(chunk: Body)
    | EndCall(payload: Payload)
    | AbortCall
    | EmitClose
    | Piped

  /** The transport calls `start` makes for a payload and `end` option. */
  function StartCalls(data: Payload, end: Value): seq<OutCall>
  {
    if PayloadFalsy(data) && end == Bool(false) then [Open]
    else if PayloadFalsy(data) then [Open, EndCall(NoPayload)]
    else if data.StreamSource? then [Open, Piped]
    else if data.Buffer? then [Open, SetContentLength(|data.bytes|), EndCall(data)]
    else [Open, SetContentLength(Utf8Length(data.text)), EndCall(data)]
  }

  /** A string payload is sent with its UTF-8 length: three characters, one of them two bytes long, make 4. */
  lemma ContentLengthOfText()
    ensures StartCalls(Text("\U{192}oo"), Undefined)[1] == SetContentLength(4)
  {
    Utf8LengthExample();
  }

  /** The filter used when a request has none: it accepts every response. */
  function NoRetry(options: FilterOptions, response: Option<Response>, body: Option<Body>): Value
  {
    Bool(false)
  }

  /** The error a failed request reports for a transport error's message. */
  function TransportError(name: string, message: string): Error
  {
    Error(message, name + " error: " + message, Undefined)
  }

  /** What the timeout sweep looks at in a request: when it was last touched, its timeout and its path. */
  datatype Watch = Watch(lastTouched: int, timeout: int, path: Option<string>)

  /** A request is overdue when it was last touched no later than its timeout before now. */
  predicate Overdue(lastTouched: int, timeout: int, now: int)
  {
    lastTouched <= now - timeout
  }

  /** The timeout events a sweep over the ids ks emits, in order: overdue requests other than probes of the ping path. */
  function TimeoutEvents(ks: seq<int>, watches: map<int, Watch>, pingPath: Option<string>, now: int): seq<EndpointEvent>
  {
    if ks == [] then []
    else
      var k := ks[|ks| - 1];
      TimeoutEvents(ks[..|ks| - 1], watches, pingPath, now) +
      (if k in watches && Overdue(watches[k].lastTouched, watches[k].timeout, now) && watches[k].path != pingPath
       then [TimeoutEvent(k)] else [])
  }

  /** A sweep emits a timeout event for an id exactly when the id was swept, is overdue and is not a probe; at most one per id swept. */
  lemma {:induction false} TimeoutEventsExactly(ks: seq<int>, watches: map<int, Watch>, pingPath: Option<string>, now: int, k: int)
    ensures |TimeoutEvents(ks, watches, pingPath, now)| <= |ks|
    ensures TimeoutEvent(k) in TimeoutEvents(ks, watches, pingPath, now) <==>
              k in ks && k in watches && Overdue(watches[k].lastTouched, watches[k].timeout, now) && watches[k].path != pingPath
    ensures forall e :: e in TimeoutEvents(ks, watches, pingPath, now) ==> e.TimeoutEvent?
  {
    if ks != [] {
      TimeoutEventsExactly(ks[..|ks| - 1], watches, pingPath, now, k);
      assert ks == ks[..|ks| - 1] + [ks[|ks| - 1]];
    }
  }

  /** Sweeping one more id appends that id's event, if any. */
  lemma TimeoutEventsStep(ks: seq<int>, i: nat, watches: map<int, Watch>, pingPath: Option<string>, now: int)
    requires i < |ks| && ks[i] in watches
    ensures var w := watches[ks[i]];
            TimeoutEvents(ks[..i + 1], watches, pingPath, now) ==
            TimeoutEvents(ks[..i], watches, pingPath, now) +
            (if Overdue(w.lastTouched, w.timeout, now) && w.path != pingPath then [TimeoutEvent(ks[i])] else [])
  {
    PrefixStep(ks, i);
  }

  /** An endpoint's name, `ip + ":" + port`. */
  function EndpointName(ip: string, port: nat): string
  {
    ip + ":" + DecimalText(port)
  }

  /** An endpoint's timeout: an explicit 0 disables it, any other falsy value means the default. */
  function EndpointTimeout(t: Option<int>): (r: int)
    ensures t == Some(0) ==> r == 0
    ensures t == None ==> r == DEFAULT_TIMEOUT
    ensures t.Some? && t.value != 0 ==> r == t.value
  {
    if t == Some(0) then 0 else NumOr(t, DEFAULT_TIMEOUT)
  }

  class PoolEndpoint {
    const ip: string
    const port: nat
    const name: string
    const keepAlive: bool
    const timeout: int
    const pingPath: Option<string>
    const pingTimeout: int
    const pinger: PoolPinger.Pinger
    var healthy: bool
    /** The length of the agent's socket list for `name`, None when it has none (kept by the base agent). */
    var agentSockets: Option<nat>
    var requests: map<int, PoolEndpointRequest>
    var requestCount: int
    var requestsLastCheck: int
    var requestRate: int
    var pending: int
    var successes: int
    var failures: int
    var filtered: int
    var events: seq<EndpointEvent>

    function Snapshot(): Counters
      reads this`requestCount, this`requestsLastCheck, this`requestRate, this`pending, this`successes, this`failures,
            this`filtered
    {
      Counters(requestCount, requestsLastCheck, requestRate, pending, successes, failures, filtered)
    }

    /** Every in-flight request is filed under its own id and belongs to this endpoint. */
    ghost predicate Registered()
      reads this`requests
    {
      forall id | id in requests.Keys :: requests[id].id == id && requests[id].endpoint == this
    }

    ghost predicate Valid()
      reads this`requestCount, this`requestsLastCheck, this`requestRate, this`pending, this`successes, this`failures,
            this`filtered, this`requests
    {
      Balanced(Snapshot()) && Registered() && pinger.pingPath == pingPath
    }

    constructor (ip: string, port: nat, options: EndpointOptions)
      ensures this.ip == ip && this.port == port && name == EndpointName(ip, port)
      ensures keepAlive == (options.keepAlive || options.keepAliveCamel)
      ensures timeout == EndpointTimeout(options.timeout)
      ensures pingPath == options.ping && pingTimeout == NumOr(options.pingTimeout, DEFAULT_PING_TIMEOUT)
      ensures fresh(pinger) && pinger.pingTimeout == pingTimeout
      ensures !pinger.running && pinger.attempts == 0 && pinger.probes == []
      ensures healthy && agentSockets == None && requests == map[] && events == []
      ensures requestCount == 0 && requestsLastCheck == 0 && requestRate == 0 && pending == 0
      ensures successes == 0 && failures == 0 && filtered == 0
      ensures Valid()
    {
      this.ip := ip;
      this.port := port;
      name := EndpointName(ip, port);
      keepAlive := options.keepAlive || options.keepAliveCamel;
      timeout := EndpointTimeout(options.timeout);
      pingPath := options.ping;
      pingTimeout := NumOr(options.pingTimeout, DEFAULT_PING_TIMEOUT);
      pinger := new PoolPinger.Pinger(options.ping, NumOr(options.pingTimeout, DEFAULT_PING_TIMEOUT));
      new;
      healthy := true;
      agentSockets := None;
      requestCount := 0;
      requestsLastCheck := 0;
      requestRate := 0;
      pending := 0;
      successes := 0;
      failures := 0;
      filtered := 0;
      events := [];
      requests := map[];
    }

    /**
     * `ready()`: never when unhealthy; with keep-alive, when the agent holds more sockets
     * for this endpoint than requests are pending; otherwise when nothing is pending.
     */
    function Ready(): (r: bool)
      reads this`healthy, this`agentSockets, this`pending
      ensures !healthy ==> !r
      ensures healthy && keepAlive ==> (r <==> agentSockets.Some? && agentSockets.value > pending)
      ensures healthy && !keepAlive ==> (r <==> pending == 0)
    {
      healthy && (if keepAlive then agentSockets.Some? && agentSockets.value > pending else pending == 0)
    }

    /** What `set_healthy(newState)` does to the health flag and the event log, from an earlier flag and log. */
    ghost predicate HealthSet(h0: bool, ev0: seq<EndpointEvent>, newState: bool)
      reads this`healthy, this`events
    {
      if !StrTruthy(pingPath) then healthy == h0 && events == ev0
      else healthy == newState && events == ev0 + (if h0 != newState then [Health(newState)] else [])
    }

    /** The health effect of settling a request: a failure of a request not destroyed by its caller marks the endpoint unhealthy. */
    ghost predicate HealthAfter(o: Outcome, destroyed: bool, h0: bool, ev0: seq<EndpointEvent>)
      reads this`healthy, this`events
    {
      if o == Failed && !destroyed then HealthSet(h0, ev0, false) else healthy == h0 && events == ev0
    }

    /** `reset_counters` */
    method ResetCounters()
      modifies this`requestsLastCheck, this`requestCount, this`successes, this`failures, this`filtered
      ensures Snapshot() == Rebased(old(Snapshot()))
    {
      requestsLastCheck := requestRate - pending;
      requestCount := pending;
      successes := 0;
      failures := 0;
      filtered := 0;
    }

    /** `update_pending` */
    method UpdatePending()
      modifies this`pending, this`requestsLastCheck, this`requestCount, this`successes, this`failures, this`filtered
      ensures Snapshot() == Recount(old(Snapshot()))
    {
      pending := requestCount - (successes + failures + filtered);
      if requestCount == MAX_COUNT {
        ResetCounters();
      }
    }

    /** `delete_request` */
    method DeleteRequest(id: int)
      modifies this`requests
      ensures requests == old(requests) - {id}
    {
      requests := requests - {id};
    }

    /**
     * `set_healthy`: without a ping path nothing changes. Otherwise the flag takes the new
     * value, a health event is emitted exactly when it changed, and marking unhealthy
     * starts the pinger.
     */
    method SetHealthy(newState: bool)
      requires pinger.pingPath == pingPath
      modifies this`healthy, this`events, pinger
      ensures HealthSet(old(healthy), old(events), newState)
      ensures !StrTruthy(pingPath) || newState ==> unchanged(pinger)
      ensures StrTruthy(pingPath) && !newState ==> pinger.running
      ensures StrTruthy(pingPath) && !newState && !old(pinger.running) ==>
                pinger.attempts == 0 && pinger.probes == old(pinger.probes) + [PoolPinger.Sent(pingPath.value)]
      ensures StrTruthy(pingPath) && old(pinger.running) ==> unchanged(pinger)
    {
      if !StrTruthy(pingPath) {
        return;
      }
      if !newState {
        pinger.Start();
      }
      if healthy != newState {
        healthy := newState;
        events := events + [Health(newState)];
      }
    }

    /** The pinger's probe answered: a 200 stops probing and marks the endpoint healthy, anything else retries. */
    method PingResponse(statusCode: int, jitter: nat)
      requires Valid() && jitter < Pow2(pinger.attempts + 1)
      modifies this`healthy, this`events, pinger
      ensures Valid()
      ensures statusCode == 200 ==> !pinger.running && HealthSet(old(healthy), old(events), true)
      ensures statusCode != 200 ==>
                healthy == old(healthy) && events == old(events) && pinger.attempts == old(pinger.attempts) + 1 &&
                pinger.scheduled == Some(PoolPinger.Backoff(pinger.attempts, jitter))
    {
      var recovered := pinger.OnResponse(statusCode, jitter);
      if recovered {
        SetHealthy(true);
      }
    }

    /** `complete`: forget the request, recount, and hand the result to the request's callback. */
    method Complete(err: Option<Error>, req: PoolEndpointRequest, response: Option<Response>, body: Option<Body>)
      requires req.callbackLive
      modifies this`requests, this`pending, this`requestsLastCheck, this`requestCount, this`successes, this`failures,
               this`filtered, req`callbackLive, req`delivered, req`emitted
      ensures requests == old(requests) - {req.id}
      ensures Snapshot() == Recount(old(Snapshot()))
      ensures req.Reported(Completion(err, response, body), old(req.delivered), old(req.emitted))
    {
      DeleteRequest(req.id);
      UpdatePending();
      req.Done(err, response, body);
    }

    /** `request_succeeded` */
    method RequestSucceeded(req: PoolEndpointRequest, response: Option<Response>, body: Option<Body>)
      requires Valid() && req.callbackLive
      modifies this`requests, this`pending, this`requestsLastCheck, this`requestCount, this`successes, this`failures,
               this`filtered, req`callbackLive, req`delivered, req`emitted
      ensures Valid()
      ensures Snapshot() == Settle(old(Snapshot()), Succeeded) && requests == old(requests) - {req.id}
      ensures req.Reported(Completion(None, response, body), old(req.delivered), old(req.emitted))
    {
      successes := successes + 1;
      Complete(None, req, response, body);
    }

    /** `request_failed`: count the failure and, unless the caller destroyed the request, mark the endpoint unhealthy. */
    method RequestFailed(err: Error, req: PoolEndpointRequest)
      requires Valid() && req.callbackLive
      modifies this`requests, this`pending, this`requestsLastCheck, this`requestCount, this`successes, this`failures,
               this`filtered, this`healthy, this`events, pinger, req`callbackLive, req`delivered, req`emitted
      ensures Valid()
      ensures Snapshot() == Settle(old(Snapshot()), Failed) && requests == old(requests) - {req.id}
      ensures agentSockets == old(agentSockets)
      ensures HealthAfter(Failed, old(req.destroyed), old(healthy), old(events))
      ensures old(req.destroyed) || !StrTruthy(pingPath) ==> unchanged(pinger)
      ensures !old(req.destroyed) && StrTruthy(pingPath) ==> pinger.running
      ensures req.Reported(Completion(Some(err), None, None), old(req.delivered), old(req.emitted))
    {
      failures := failures + 1;
      if !req.destroyed {
        SetHealthy(false);
      }
      Complete(Some(err), req, None, None);
    }

    /** `filter_rejected` */
    method FilterRejected(err: Error, req: PoolEndpointRequest)
      requires Valid() && req.callbackLive
      modifies this`requests, this`pending, this`requestsLastCheck, this`requestCount, this`successes, this`failures,
               this`filtered, req`callbackLive, req`delivered, req`emitted
      ensures Valid()
      ensures Snapshot() == Settle(old(Snapshot()), Filtered) && requests == old(requests) - {req.id}
      ensures req.Reported(Completion(Some(err), None, None), old(req.delivered), old(req.emitted))
    {
      filtered := filtered + 1;
      Complete(Some(err), req, None, None);
    }

    /**
     * `request`: create the request (taking the next id), recount, file it under its id and
     * start it. The caller gets the request back to stream through, unless a retry filter
     * was given.
     */
    method Request(options: ReqOptions, now: int) returns (req: PoolEndpointRequest, stream: PoolEndpointRequest?)
      requires Valid()
      modifies this`requests, this`pending, this`requestsLastCheck, this`requestCount, this`successes, this`failures,
               this`filtered
      ensures Valid()
      ensures fresh(req) && req.endpoint == this && req.id == old(requestCount)
      ensures Snapshot() == Admit(old(Snapshot()))
      ensures requests == old(requests)[req.id := req]
      ensures healthy == old(healthy) && events == old(events) && agentSockets == old(agentSockets)
      ensures stream == (if options.retryFilter.Some? then null else req)
      ensures req.Valid() && req.callbackLive && req.path == options.path
      ensures req.outCalls == StartCalls(options.data, options.end)
    {
      req := Enroll(options, now);
      req.Start(now);
      stream := if options.retryFilter.Some? then null else req;
    }

    /** The first half of `request`: create the request under the next id, recount and file it. */
    method Enroll(options: ReqOptions, now: int) returns (req: PoolEndpointRequest)
      requires Valid()
      modifies this`requests, this`pending, this`requestsLastCheck, this`requestCount, this`successes, this`failures,
               this`filtered
      ensures Valid()
      ensures fresh(req) && req.endpoint == this && req.id == old(requestCount)
      ensures Snapshot() == Admit(old(Snapshot()))
      ensures requests == old(requests)[req.id := req]
      ensures req.Valid() && req.callbackLive && req.path == options.path && req.data == options.data
      ensures req.endOption == options.end && req.outCalls == []
    {
      req := new PoolEndpointRequest(this, options, now);
      UpdatePending();
      requests := requests[req.id := req];
    }

    /** One step of the sweep: time out and abort the request when it is overdue, announcing it unless it is a probe. */
    method SweepOne(request: PoolEndpointRequest, now: int)
      modifies this`events, request`timedOut, request`outCalls
      ensures SweptBy(request, old(request.timedOut), old(request.outCalls), Overdue(request.lastTouched, request.timeout, now))
      ensures events == old(events) +
                (if Overdue(request.lastTouched, request.timeout, now) && request.path != pingPath
                 then [TimeoutEvent(request.id)] else [])
    {
      if request.lastTouched <= now - request.timeout {
        if request.path != pingPath {
          events := events + [TimeoutEvent(request.id)];
        }
        request.timedOut := true;
        request.outCalls := request.outCalls + [AbortCall];
      }
    }

    /** What the sweep sees of each in-flight request. */
    ghost function Watches(): map<int, Watch>
      reads this`requests, requests.Values`lastTouched
    {
      map id | id in requests :: Watch(requests[id].lastTouched, requests[id].timeout, requests[id].path)
    }

    /**
     * `check_timeouts`: sweep the in-flight requests in ascending id order (the order it
     * returns), marking each overdue one timed out and aborting it, with a timeout event
     * for each that is not a probe of the ping path; then roll the request rate over.
     */
    method CheckTimeouts(now: int) returns (swept: seq<int>)
      requires Valid()
      modifies this`events, this`requestRate, this`requestsLastCheck, requests.Values`timedOut, requests.Values`outCalls
      ensures Valid()
      ensures Snapshot() == Sweep(old(Snapshot()))
      ensures swept == AscendingKeys(requests.Keys)
      ensures forall j :: 0 <= j < |swept| ==>
                swept[j] in requests &&
                SweptBy(requests[swept[j]], old(requests[swept[j]].timedOut), old(requests[swept[j]].outCalls),
                        Overdue(requests[swept[j]].lastTouched, requests[swept[j]].timeout, now))
      ensures events == old(events) + TimeoutEvents(swept, old(Watches()), pingPath, now)
    {
      swept := AscendingKeys(requests.Keys);
      assert forall j :: 0 <= j < |swept| ==> swept[j] in swept;
      SweepAll(swept, now);
      requestRate := requestCount - requestsLastCheck;
      requestsLastCheck := requestCount;
    }

    /** The loop of `check_timeouts`, over the ids ks in order. */
    method SweepAll(ks: seq<int>, now: int)
      requires Registered() && Increasing(ks) && forall j :: 0 <= j < |ks| ==> ks[j] in requests
      modifies this`events, requests.Values`timedOut, requests.Values`outCalls
      ensures forall j :: 0 <= j < |ks| ==>
                ks[j] in requests &&
                SweptBy(requests[ks[j]], old(requests[ks[j]].timedOut), old(requests[ks[j]].outCalls),
                        Overdue(requests[ks[j]].lastTouched, requests[ks[j]].timeout, now))
      ensures events == old(events) + TimeoutEvents(ks, old(Watches()), pingPath, now)
    {
      ghost var w0 := Watches();
      var i := 0;
      while i < |ks|
        invariant 0 <= i <= |ks|
        invariant Registered() && requests == old(requests)
        invariant forall j :: 0 <= j < i ==>
                    SweptBy(requests[ks[j]], old(requests[ks[j]].timedOut), old(requests[ks[j]].outCalls),
                            Overdue(requests[ks[j]].lastTouched, requests[ks[j]].timeout, now))
        invariant forall j :: i <= j < |ks| ==>
                    requests[ks[j]].timedOut == old(requests[ks[j]].timedOut) &&
                    requests[ks[j]].outCalls == old(requests[ks[j]].outCalls)
        invariant events == old(events) + TimeoutEvents(ks[..i], w0, pingPath, now)
      {
        var k := ks[i];
        PrefixStep(ks, i);
        TimeoutEventsStep(ks, i, w0, pingPath, now);
        var request := requests[k];
        assert request.id == k;
        assert w0[k] == Watch(request.lastTouched, request.timeout, request.path);
        SweepOne(request, now);
        i := i + 1;
      }
      assert ks[..|ks|] == ks;
    }
  }

  /** The sweep's effect on one request: marked timed out and aborted when hit, untouched otherwise. */
  ghost predicate SweptBy(r: PoolEndpointRequest, timedOut0: bool, outCalls0: seq<OutCall>, hit: bool)
    reads r`timedOut, r`outCalls
  {
    r.timedOut == (timedOut0 || hit) && r.outCalls == outCalls0 + (if hit then [AbortCall] else [])
  }

  class PoolEndpointRequest {
    const endpoint: PoolEndpoint
    const id: int
    const path: Option<string>
    const timeout: int
    const headers: map<string, string>
    const retryFilter: Filter
    /** The options object the retry filter is called with. */
    const filterOptions: FilterOptions
    const bufferBody: bool
    const data: Payload
    const endOption: Value
    var lastTouched: int
    var reqEnd: Option<int>
    var resStart: Option<int>
    var response: Option<Response>
    var writable: bool
    var readable: bool
    var bodyChunks: seq<Body>
    var bodyLength: int
    var timedOut: bool
    var bufferedWrites: int
    var bufferedWritesBytes: int
    /** The writes the transport has not yet accepted since the last flush or drain. */
    ghost var backlog: seq<Body>
    var state: RequestState
    var destroyed: bool
    /** The callback is still set: the request has not been settled. */
    var callbackLive: bool
    var delivered: seq<Completion>
    var emitted: seq<StreamEvent>
    var outCalls: seq<OutCall>

    /**
     * The callback fires at most once and is gone afterwards; while it is live and the body
     * is buffered, `body_length` is the total length of the chunks; the backpressure
     * counters count the writes, and their bytes, not yet accepted.
     */
    ghost predicate Valid()
      reads this`delivered, this`callbackLive, this`bodyChunks, this`bodyLength, this`bufferedWrites,
            this`bufferedWritesBytes, this`backlog
    {
      |delivered| <= 1 && (callbackLive <==> delivered == []) &&
      (!bufferBody ==> bodyChunks == [] && bodyLength == 0) &&
      (callbackLive && bufferBody ==> bodyLength == TotalLength(bodyChunks)) &&
      bufferedWrites == |backlog| && bufferedWritesBytes == TotalLength(backlog)
    }

    /** `done` ran with c: the callback got c, after the earlier deliveries, it is dropped, and "done" was emitted with c. */
    ghost predicate Reported(c: Completion, delivered0: seq<Completion>, emitted0: seq<StreamEvent>)
      reads this`callbackLive, this`delivered, this`emitted
    {
      !callbackLive && delivered == delivered0 + [c] && emitted == emitted0 + [DoneEvent(c)]
    }

    /**
     * The request settled with its endpoint: the callback got c as its only call, "done" was
     * emitted with c after the events em0, and the endpoint counted o and dropped the id.
     */
    ghost predicate SettledWith(c: Completion, o: Outcome, c0: Counters, reqs0: map<int, PoolEndpointRequest>, em0: seq<StreamEvent>)
      reads this`callbackLive, this`delivered, this`emitted, endpoint`requestCount, endpoint`requestsLastCheck,
            endpoint`requestRate, endpoint`pending, endpoint`successes, endpoint`failures, endpoint`filtered, endpoint`requests
    {
      Reported(c, [], em0) && endpoint.Snapshot() == Settle(c0, o) && endpoint.requests == reqs0 - {id}
    }

    constructor (endpoint: PoolEndpoint, options: ReqOptions, now: int)
      modifies endpoint`requestCount
      ensures this.endpoint == endpoint && id == old(endpoint.requestCount)
      ensures endpoint.requestCount == old(endpoint.requestCount) + 1
      ensures path == options.path && data == options.data && endOption == options.end
      ensures timeout == NumOr(options.timeout, endpoint.timeout)
      ensures headers == (if options.headers.Some? then options.headers.value else map[])
      ensures options.retryFilter.Some? ==> forall fo, r, b :: retryFilter(fo, r, b) == options.retryFilter.value(fo, r, b)
      ensures options.retryFilter.None? ==> forall fo, r, b :: retryFilter(fo, r, b) == Bool(false)
      ensures filterOptions == FilterOptions(endpoint.ip, endpoint.port, path, options.httpMethod, timeout, headers)
      ensures bufferBody == (options.bufferBody != Bool(false))
      ensures lastTouched == now && reqEnd == None && resStart == None && response == None
      ensures writable && readable && bodyChunks == [] && bodyLength == 0 && !timedOut
      ensures bufferedWrites == 0 && bufferedWritesBytes == 0 && state == Init && !destroyed
      ensures callbackLive && delivered == [] && emitted == [] && outCalls == []
      ensures Valid()
    {
      this.endpoint := endpoint;
      id := endpoint.requestCount;
      path := options.path;
      data := options.data;
      endOption := options.end;
      timeout := NumOr(options.timeout, endpoint.timeout);
      headers := if options.headers.Some? then options.headers.value else map[];
      var filter: Filter := NoRetry;
      if options.retryFilter.Some? {
        filter := options.retryFilter.value;
      }
      retryFilter := filter;
      filterOptions := FilterOptions(endpoint.ip, endpoint.port, options.path, options.httpMethod,
                                     NumOr(options.timeout, endpoint.timeout),
                                     if options.headers.Some? then options.headers.value else map[]);
      bufferBody := options.bufferBody != Bool(false);
      lastTouched := now;
      reqEnd := None;
      resStart := None;
      response := None;
      writable := true;
      readable := true;
      bodyChunks := [];
      bodyLength := 0;
      timedOut := false;
      bufferedWrites := 0;
      bufferedWritesBytes := 0;
      backlog := [];
      state := Init;
      destroyed := false;
      callbackLive := true;
      delivered := [];
      emitted := [];
      outCalls := [];
      new;
      endpoint.requestCount := endpoint.requestCount + 1;
    }

    /** `end(payload)`: the request body is complete. */
    method End(payload: Payload, now: int)
      modifies this`reqEnd, this`lastTouched, this`writable, this`state, this`outCalls
      ensures reqEnd == Some(now) && lastTouched == now && !writable && state == ReqEnd
      ensures outCalls == old(outCalls) + [EndCall(payload)]
    {
      reqEnd := Some(now);
      lastTouched := now;
      writable := false;
      state := ReqEnd;
      outCalls := outCalls + [EndCall(payload)];
    }

    /**
     * `start`: open the transport request; with no payload either leave it open (`end ===
     * false`) or end it; pipe a stream payload in; otherwise send it with its byte length.
     */
    method Start(now: int)
      modifies this`reqEnd, this`lastTouched, this`writable, this`state, this`outCalls
      ensures outCalls == old(outCalls) + StartCalls(data, endOption)
      ensures var ends := !(PayloadFalsy(data) && endOption == Bool(false)) && !data.StreamSource?;
              if ends then reqEnd == Some(now) && lastTouched == now && !writable && state == ReqEnd
              else reqEnd == old(reqEnd) && lastTouched == old(lastTouched) && writable == old(writable) && state == old(state)
    {
      outCalls := outCalls + [Open];
      if PayloadFalsy(data) && endOption == Bool(false) {
        return;
      }
      if PayloadFalsy(data) {
        End(NoPayload, now);
        return;
      }
      if data.StreamSource? {
        outCalls := outCalls + [Piped];
        return;
      }
      var length := if data.Buffer? then |data.bytes| else Utf8Length(data.text);
      outCalls := outCalls + [SetContentLength(length)];
      End(data, now);
    }

    /** `on_response` */
    method OnResponse(res: Response, now: int)
      modifies this`response, this`state, this`resStart
      ensures response == Some(res) && state == ResStart && resStart == Some(now)
    {
      response := Some(res);
      state := ResStart;
      resStart := Some(now);
    }

    /** `done`: invoke the callback with the result, emit "done" with it, then drop the callback. */
    method Done(err: Option<Error>, response: Option<Response>, body: Option<Body>)
      requires callbackLive
      modifies this`callbackLive, this`delivered, this`emitted
      ensures Reported(Completion(err, response, body), old(delivered), old(emitted))
    {
      delivered := delivered + [Completion(err, response, body)];
      emitted := emitted + [DoneEvent(Completion(err, response, body))];
      callbackLive := false;
    }

    /**
     * Since the earlier state the request failed with err: it took the state s, its callback
     * got the error as its only call and "done" was emitted; the endpoint counted a failure,
     * dropped the id and took the health effect. The pinger started only if the request was
     * not destroyed and a ping path is set, and is untouched otherwise.
     */
    twostate predicate FailedWith(err: Error, s: RequestState)
      reads this`state, this`callbackLive, this`delivered, this`emitted, endpoint`requestCount, endpoint`requestsLastCheck,
            endpoint`requestRate, endpoint`pending, endpoint`successes, endpoint`failures, endpoint`filtered, endpoint`requests,
            endpoint`healthy, endpoint`events, endpoint.pinger
    {
      state == s &&
      SettledWith(Completion(Some(err), None, None), Failed, old(endpoint.Snapshot()), old(endpoint.requests), old(emitted)) &&
      endpoint.HealthAfter(Failed, old(destroyed), old(endpoint.healthy), old(endpoint.events)) &&
      (old(destroyed) || !StrTruthy(endpoint.pingPath) ==> unchanged(endpoint.pinger)) &&
      (!old(destroyed) && StrTruthy(endpoint.pingPath) ==> endpoint.pinger.running)
    }

    /** The failure path the handlers share: take the state s, then fail the request at the endpoint with err. */
    method Fail(err: Error, s: RequestState)
      requires Valid() && endpoint.Valid() && callbackLive
      modifies this`state, this`callbackLive, this`delivered, this`emitted,
               endpoint`requests, endpoint`pending, endpoint`requestsLastCheck, endpoint`requestCount, endpoint`successes,
               endpoint`failures, endpoint`filtered, endpoint`healthy, endpoint`events, endpoint.pinger
      ensures Valid() && endpoint.Valid()
      ensures FailedWith(err, s)
    {
      state := s;
      endpoint.RequestFailed(err, this);
    }

    /** `on_request_timeout`: no answer arrived before the sweep aborted the request. */
    method OnRequestTimeout()
      requires Valid() && endpoint.Valid()
      modifies this`state, this`callbackLive, this`delivered, this`emitted,
               endpoint`requests, endpoint`pending, endpoint`requestsLastCheck, endpoint`requestCount, endpoint`successes,
               endpoint`failures, endpoint`filtered, endpoint`healthy, endpoint`events, endpoint.pinger
      ensures Valid() && endpoint.Valid()
      ensures writable == old(writable) && readable == old(readable)
      ensures !old(callbackLive) ==> unchanged(this) && unchanged(endpoint) && unchanged(endpoint.pinger)
      ensures old(callbackLive) ==> FailedWith(Error("timed_out", endpoint.name + " error: request timed out", Undefined), ReqTimeout)
    {
      if !callbackLive {
        return;
      }
      Fail(Error("timed_out", endpoint.name + " error: request timed out", Undefined), ReqTimeout);
    }

    /** `on_response_timeout`: part of the answer arrived before the sweep aborted the request. */
    method OnResponseTimeout()
      requires Valid() && endpoint.Valid()
      modifies this`state, this`callbackLive, this`delivered, this`emitted,
               endpoint`requests, endpoint`pending, endpoint`requestsLastCheck, endpoint`requestCount, endpoint`successes,
               endpoint`failures, endpoint`filtered, endpoint`healthy, endpoint`events, endpoint.pinger
      ensures Valid() && endpoint.Valid()
      ensures writable == old(writable) && readable == old(readable)
      ensures !old(callbackLive) ==> unchanged(this) && unchanged(endpoint) && unchanged(endpoint.pinger)
      ensures old(callbackLive) ==> FailedWith(Error("timed_out", endpoint.name + " error: response timed out", Undefined), ResTimeout)
    {
      if !callbackLive {
        return;
      }
      Fail(Error("timed_out", endpoint.name + " error: response timed out", Undefined), ResTimeout);
    }

    /** `on_error`: a timed-out request fails as a request timeout, any other error with its message as the reason. */
    method OnError(message: string)
      requires Valid() && endpoint.Valid()
      modifies this`writable, this`readable, this`state, this`callbackLive, this`delivered, this`emitted,
               endpoint`requests, endpoint`pending, endpoint`requestsLastCheck, endpoint`requestCount, endpoint`successes,
               endpoint`failures, endpoint`filtered, endpoint`healthy, endpoint`events, endpoint.pinger
      ensures Valid() && endpoint.Valid()
      ensures !old(callbackLive) ==> unchanged(this) && unchanged(endpoint) && unchanged(endpoint.pinger)
      ensures old(callbackLive) && old(timedOut) ==>
                writable == old(writable) && readable == old(readable) &&
                FailedWith(Error("timed_out", endpoint.name + " error: request timed out", Undefined), ReqTimeout)
      ensures old(callbackLive) && !old(timedOut) ==>
                !writable && !readable && FailedWith(TransportError(endpoint.name, message), ErrorState)
    {
      if !callbackLive {
        return;
      }
      if timedOut {
        OnRequestTimeout();
        return;
      }
      writable := false;
      readable := false;
      Fail(TransportError(endpoint.name, message), ErrorState);
    }

    /** `on_aborted`: the response was cut off. */
    method OnAborted()
      requires Valid() && endpoint.Valid()
      modifies this`state, this`callbackLive, this`delivered, this`emitted,
               endpoint`requests, endpoint`pending, endpoint`requestsLastCheck, endpoint`requestCount, endpoint`successes,
               endpoint`failures, endpoint`filtered, endpoint`healthy, endpoint`events, endpoint.pinger
      ensures Valid() && endpoint.Valid()
      ensures !old(callbackLive) ==> unchanged(this) && unchanged(endpoint) && unchanged(endpoint.pinger)
      ensures old(callbackLive) ==> FailedWith(Error("aborted", endpoint.name + " error: connection aborted", Undefined), ResAborted)
    {
      if !callbackLive {
        return;
      }
      Fail(Error("aborted", endpoint.name + " error: connection aborted", Undefined), ResAborted);
    }

    /** The body `on_end` hands on: the buffered chunks joined, or nothing when the body is not buffered. */
    function BufferedBody(chunks: seq<Body>): Option<Body>
    {
      if bufferBody then Some(Concat(chunks)) else None
    }

    /**
     * `on_end`: a timed-out request fails as a response timeout; otherwise the retry filter
     * judges the response and body (see `Judge`).
     */
    method OnEnd()
      requires Valid() && endpoint.Valid()
      modifies this`readable, this`bodyChunks, this`state, this`callbackLive, this`delivered, this`emitted,
               endpoint`requests, endpoint`pending, endpoint`requestsLastCheck, endpoint`requestCount, endpoint`successes,
               endpoint`failures, endpoint`filtered, endpoint`healthy, endpoint`events, endpoint.pinger
      ensures Valid() && endpoint.Valid()
      ensures !old(callbackLive) ==> unchanged(this) && unchanged(endpoint) && unchanged(endpoint.pinger)
      ensures old(callbackLive) ==> !readable
      ensures old(callbackLive) && old(timedOut) ==>
                bodyChunks == old(bodyChunks) &&
                FailedWith(Error("timed_out", endpoint.name + " error: response timed out", Undefined), ResTimeout)
      ensures old(callbackLive) && !old(timedOut) ==>
                endpoint.healthy == old(endpoint.healthy) && endpoint.events == old(endpoint.events) &&
                unchanged(endpoint.pinger) && Judged(old(bodyChunks), old(response), old(endpoint.Snapshot()), old(endpoint.requests), old(emitted))
    {
      if !callbackLive {
        return;
      }
      if timedOut {
        EndTimedOut();
      } else {
        EndJudged();
      }
    }

    /** `on_end` on a timed-out request: no longer readable, then `on_response_timeout`. */
    method EndTimedOut()
      requires Valid() && endpoint.Valid() && callbackLive
      modifies this`readable, this`state, this`callbackLive, this`delivered, this`emitted,
               endpoint`requests, endpoint`pending, endpoint`requestsLastCheck, endpoint`requestCount, endpoint`successes,
               endpoint`failures, endpoint`filtered, endpoint`healthy, endpoint`events, endpoint.pinger
      ensures Valid() && endpoint.Valid()
      ensures !readable && FailedWith(Error("timed_out", endpoint.name + " error: response timed out", Undefined), ResTimeout)
    {
      readable := false;
      OnResponseTimeout();
    }

    /** `on_end` on a request not timed out: no longer readable, then the verdict of `Judge`. */
    method EndJudged()
      requires Valid() && endpoint.Valid() && callbackLive
      modifies this`readable, this`state, this`bodyChunks, this`callbackLive, this`delivered, this`emitted,
               endpoint`requests, endpoint`pending, endpoint`requestsLastCheck, endpoint`requestCount, endpoint`successes,
               endpoint`failures, endpoint`filtered
      ensures Valid() && endpoint.Valid()
      ensures !readable && Judged(old(bodyChunks), old(response), old(endpoint.Snapshot()), old(endpoint.requests), old(emitted))
    {
      readable := false;
      Judge();
    }

    /**
     * The verdict on a response that is not timed out: "end" is emitted; then anything but
     * `false` from the retry filter (a delay, 0 included) rejects it with that delay, and
     * `false` accepts it, handing on the buffered body.
     */
    ghost predicate Judged(chunks0: seq<Body>, response0: Option<Response>, c0: Counters, reqs0: map<int, PoolEndpointRequest>,
                           em0: seq<StreamEvent>)
      reads this`state, this`bodyChunks, this`callbackLive, this`delivered, this`emitted, endpoint`requestCount,
            endpoint`requestsLastCheck, endpoint`requestRate, endpoint`pending, endpoint`successes, endpoint`failures,
            endpoint`filtered, endpoint`requests
    {
      var body := BufferedBody(chunks0);
      var delay := retryFilter(filterOptions, response0, body);
      state == ResEnd && bodyChunks == (if bufferBody then [] else chunks0) &&
      (delay != Bool(false) ==>
        SettledWith(Completion(Some(Error("filter", endpoint.name + " error: rejected by filter", delay)), None, None),
                    Filtered, c0, reqs0, em0 + [EndEvent])) &&
      (delay == Bool(false) ==> SettledWith(Completion(None, response0, body), Succeeded, c0, reqs0, em0 + [EndEvent]))
    }

    /** The part of `on_end` after the timeout test: run the retry filter and settle accordingly. */
    method Judge()
      requires Valid() && endpoint.Valid() && callbackLive
      modifies this`state, this`bodyChunks, this`callbackLive, this`delivered, this`emitted,
               endpoint`requests, endpoint`pending, endpoint`requestsLastCheck, endpoint`requestCount, endpoint`successes,
               endpoint`failures, endpoint`filtered
      ensures Valid() && endpoint.Valid()
      ensures Judged(old(bodyChunks), response, old(endpoint.Snapshot()), old(endpoint.requests), old(emitted))
    {
      // The filter sees the body as buffered so far; it reads nothing that ending the response changes.
      var body := BufferedBody(bodyChunks);
      var delay := retryFilter(filterOptions, response, body);
      if delay != Bool(false) {
        Conclude(Completion(Some(Error("filter", endpoint.name + " error: rejected by filter", delay)), None, None), Filtered);
      } else {
        Conclude(Completion(None, response, body), Succeeded);
      }
    }

    /** The response ended: "end" is emitted, the buffered body is handed on, and the request settles with c. */
    method Conclude(c: Completion, o: Outcome)
      requires Valid() && endpoint.Valid() && callbackLive
      requires || (o == Filtered && c.err.Some? && c.response.None? && c.body.None?)
               || (o == Succeeded && c == Completion(None, response, BufferedBody(bodyChunks)))
      modifies this`state, this`bodyChunks, this`callbackLive, this`delivered, this`emitted,
               endpoint`requests, endpoint`pending, endpoint`requestsLastCheck, endpoint`requestCount, endpoint`successes,
               endpoint`failures, endpoint`filtered
      ensures Valid() && endpoint.Valid()
      ensures state == ResEnd && bodyChunks == (if bufferBody then [] else old(bodyChunks))
      ensures SettledWith(c, o, old(endpoint.Snapshot()), old(endpoint.requests), old(emitted) + [EndEvent])
    {
      state := ResEnd;
      emitted := emitted + [EndEvent];
      if bufferBody {
        bodyChunks := [];
      }
      if o == Filtered {
        endpoint.FilterRejected(c.err.value, this);
      } else {
        endpoint.RequestSucceeded(this, c.response, c.body);
      }
    }

    /** `on_drain`: the transport flushed; the backlog is gone and "drain" is emitted. */
    method OnDrain(now: int)
      requires Valid()
      modifies this`lastTouched, this`bufferedWrites, this`bufferedWritesBytes, this`backlog, this`emitted
      ensures Valid()
      ensures lastTouched == now && bufferedWrites == 0 && bufferedWritesBytes == 0
      ensures emitted == old(emitted) + [DrainEvent]
    {
      lastTouched := now;
      bufferedWrites := 0;
      bufferedWritesBytes := 0;
      backlog := [];
      emitted := emitted + [DrainEvent];
    }

    /** `on_data`: a chunk of the response, kept when the body is buffered and passed on as "data". */
    method OnData(chunk: Body, now: int)
      requires Valid()
      modifies this`lastTouched, this`bodyChunks, this`bodyLength, this`state, this`emitted
      ensures Valid()
      ensures lastTouched == now && state == ResRead && emitted == old(emitted) + [DataEvent(chunk)]
      ensures bufferBody ==> bodyChunks == old(bodyChunks) + [chunk] && bodyLength == old(bodyLength) + |chunk|
      ensures !bufferBody ==> bodyChunks == old(bodyChunks) && bodyLength == old(bodyLength)
    {
      lastTouched := now;
      if bufferBody {
        bodyChunks := bodyChunks + [chunk];
        bodyLength := bodyLength + |chunk|;
      }
      state := ResRead;
      emitted := emitted + [DataEvent(chunk)];
    }

    /**
     * `write(buf)`: on a destroyed socket, announce the close and refuse; otherwise write,
     * and either clear the backpressure counters (accepted) or add the write and its bytes
     * to them (buffered by the transport).
     */
    method Write(buf: Body, socketDestroyed: bool, accepted: bool, now: int) returns (success: bool)
      requires Valid()
      modifies this`outCalls, this`lastTouched, this`bufferedWrites, this`bufferedWritesBytes, this`backlog, this`state
      ensures Valid()
      ensures socketDestroyed ==>
                !success && outCalls == old(outCalls) + [EmitClose] && lastTouched == old(lastTouched) &&
                bufferedWrites == old(bufferedWrites) && bufferedWritesBytes == old(bufferedWritesBytes) && state == old(state)
      ensures !socketDestroyed ==> success == accepted && outCalls == old(outCalls) + [WriteChunk(buf)]
      ensures !socketDestroyed && accepted ==>
                lastTouched == now && bufferedWrites == 0 && bufferedWritesBytes == 0 && state == ReqWrite
      ensures !socketDestroyed && !accepted ==>
                lastTouched == old(lastTouched) && bufferedWrites == old(bufferedWrites) + 1 &&
                bufferedWritesBytes == old(bufferedWritesBytes) + |buf| && state == ReqWriteBuffer
    {
      if socketDestroyed {
        outCalls := outCalls + [EmitClose];
        return false;
      }
      outCalls := outCalls + [WriteChunk(buf)];
      success := accepted;
      if success {
        lastTouched := now;
        bufferedWrites := 0;
        bufferedWritesBytes := 0;
        backlog := [];
        state := ReqWrite;
      } else {
        bufferedWrites := bufferedWrites + 1;
        bufferedWritesBytes := bufferedWritesBytes + |buf|;
        backlog := backlog + [buf];
        state := ReqWriteBuffer;
      }
    }

    /** `destroy` (also `abort`): the caller gives up on the request; a later failure will not count against the endpoint's health. */
    method Destroy()
      modifies this`writable, this`readable, this`state, this`destroyed, this`outCalls
      ensures !writable && !readable && state == AbortState && destroyed
      ensures outCalls == old(outCalls) + [AbortCall]
    {
      writable := false;
      readable := false;
      state := AbortState;
      destroyed := true;
      outCalls := outCalls + [AbortCall];
    }
  }
}

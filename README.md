# lb_pool in Dafny

A model of the core of `lb_pool`, a client-side HTTP load balancer for Node.js. A `Pool` holds
a list of `PoolEndpoint`s (backends parsed from `"ip:port"` strings). A request goes to the
first endpoint that is ready. If none is ready, it goes to the least-loaded healthy endpoint.
When the pool has too many requests pending, or no endpoint is healthy, the request fails at
once with a sentinel error.

Each endpoint keeps counters: requests issued, successes, failures, filtered, pending. The
counters are rebased when the request count reaches 2^52. A failed request marks the endpoint
unhealthy. The endpoint's `PoolPinger` then probes a ping path with a growing backoff until
the backend answers 200. A `PoolRequestSet` retries a failed request on another pick, with a
budget of attempts, hang-ups and aborts, and a randomised delay. The keep-alive agent keeps a
queue of idle sockets per `host:port` key. It hands an idle socket to the next request and
retires a socket after `max_reqs_per_socket` requests.

Modules, one file each (`pool_endpoint.dfy` holds both endpoint classes, which refer to
each other):

- `Js` (`js.dfy`): the JavaScript semantics the code leans on. It covers truthiness of
  optional numbers and strings (`0` and `""` are falsy), `a || b`, the decimal text of a
  number and `Number(text)` on digits, `split(":")`, `indexOf`, `Object.keys` on integer keys,
  and `Buffer.byteLength`.
- `Exchange` (`exchange.dfy`): the records passed between layers. These are request
  options, payloads, responses, errors and the `(err, response, body)` completion a callback
  receives.
- `KeepAliveAgent` (`keep_alive_agent.dfy`): the socket-reusing agent. It also covers the
  HTTPS variant, through the socket's `secure` flag.
- `PoolPinger` (`pool_pinger.dfy`): the health pinger.
- `Endpoint` (`pool_endpoint.dfy`): `PoolEndpoint` and `PoolEndpointRequest`.
- `RequestSet` (`pool_request_set.dfy`): retry orchestration.
- `Pool` (`pool.dfy`): construction, option defaults, endpoint selection, request
  normalisation and the sums over endpoints.

The model is imperative where the code is. Endpoints, requests, request sets, agents,
sockets and pingers are classes whose methods update their fields. Each method's `ensures`
ties the new state to specification functions. The lemmas beside those functions prove the
promised properties, for example:

- the counter balance `pending == request_count - settled`, and that a rebase keeps
  `pending`;
- at most `max_attempts` attempts;
- the scan returns the first ready endpoint, or else the least-pending healthy one;
- parsing an `"ip:port"` entry round-trips.

Outside effects become values:

- `Date.now()` is a `now` parameter.
- `Math.random()` becomes a `start` index for the scan, a `roll` for the retry delay, and a
  `jitter` for the ping backoff. Each is constrained to the range the float expression can
  produce.
- Armed timers are fields (`timers`, `scheduled`, `probeTimerArmed`).
- Events are appended to logs: the endpoint's "health" and "timeout" events (`events`) and a
  request's stream events "drain", "data", "end" and "done" (`emitted`). So are the calls made
  on the outgoing HTTP request (`outCalls`) and the callbacks given to the user (`delivered`).

Some behaviour of the code is easy to misread; the model keeps it as written:

- A pinned endpoint (`options.endpoint`) that is not filed makes `get_endpoint` throw
  `"no endpoint found matching " + name` (pool.js:239-243). The model returns that message as
  a `Failure`. It is not turned into the unhealthy sentinel.
- After a counter rebase (pool_endpoint.js:155-161), `request_count - requests_last_check`
  is `2 * pending - request_rate`. It equals the old rate only when `pending ==
  request_rate`, the case test/endpoint_test.js:308-315 checks (`Endpoint.RebaseRateGap`).
- `endpoints_by_name` is keyed by the raw entry text (pool.js:64), the last duplicate
  winning. The endpoint's name is built from the parsed port (pool_endpoint.js:32). So the
  entry `"h:080"` is filed under `"h:080"` for an endpoint named `"h:80"`.
- A request timeout and a response timeout fail with reason `"timed_out"`
  (pool_endpoint_request.js:176-203). The tests at test/endpoint_test.js:83 and 195 expect
  `"socket hang up"` there.

The two retry-delay defects under "## Findings" are the exception: the pool and its requests
use the corrected delay, and the code as written is modelled beside it.

## Model

| member | source | states |
|---|---|---|
| Js.DecimalRoundTrip | pool.js:56-58 | reading back the decimal text of a port with `Number` gives the port back |
| Js.SplitOfJoin | pool.js:56-57 | splitting `a + ":" + b` (a without colons) on ':' gives a as field 0 and b's first field as field 1 |
| Js.IndexOf | keep_alive_agent.js:100 | the result is -1 exactly when x is absent; otherwise it indexes x and no earlier element is x |
| Js.AscendingKeys | pool_endpoint.js:139 | every key of the request map appears once, in increasing order (integer keys of `Object.keys`) |
| Js.Utf8Length | pool_endpoint_request.js:71 | the byte length of a text lies between its length and four times its length |
| Js.Utf8LengthExample | test/endpoint_test.js:43-56 | "ƒoo" takes 4 bytes, the Content-Length the test expects |
| Exchange.Concat | pool_endpoint_request.js:140 | concatenated body chunks are as long as the chunks' total length |
| KeepAliveAgent.Socket.constructor | keep_alive_agent.js:122-124 | a new socket is usable: not destroyed, with a live TLS pair when secure; it has served no requests |
| KeepAliveAgent.Socket.Destroy | keep_alive_agent.js:45 | a destroyed socket is marked destroyed and its TLS pair is dropped |
| KeepAliveAgent.NextCount | keep_alive_agent.js:42 | a socket's request count goes up by one, or to 1 when it had none |
| KeepAliveAgent.BuildNameKey | keep_alive_agent.js:26-32 | the key is the host, a colon, the port's decimal text, and then a colon and the local address only when one is given |
| KeepAliveAgent.NameKeyFields | keep_alive_agent.js:26-32 | the name key splits back into the host and the decimal port |
| KeepAliveAgent.NameKeyInjective | keep_alive_agent.js:26-32 | two name keys are equal only for the same host and port, and the same local address when one is given |
| KeepAliveAgent.Agent.constructor | keep_alive_agent.js:7-23 | `max_reqs_per_socket` is the option when truthy, else 1000; no idle sockets and no queued requests |
| KeepAliveAgent.Agent.IsUsable | keep_alive_agent.js:93-95 | a socket as it comes from connecting is usable and a destroyed one is not, on the plain agent by its `destroyed` flag and on the TLS agent (keep_alive_agent.js:122-125) by its secure pair |
| KeepAliveAgent.Agent.FirstUsable | keep_alive_agent.js:84-89 | the index of the first usable socket in a queue, every earlier one unusable; the queue length if none is usable |
| KeepAliveAgent.Agent.TakeIdle | keep_alive_agent.js:78-91 | no queue gives null and no change; a socket it returns was queued under the key and is usable |
| KeepAliveAgent.Agent.NextIdleSocket | keep_alive_agent.js:78-91 | the socket returned and the idle map left are exactly those `TakeIdle` describes: unusable heads dropped, the first usable one removed and returned, the key kept |
| KeepAliveAgent.Agent.AddRequest | keep_alive_agent.js:67-76 | the request goes to the idle socket taken for its key, or to the base agent when there is none |
| KeepAliveAgent.Agent.OnFree | keep_alive_agent.js:38-64 | a usable freed socket has its request count raised; it is destroyed at the ceiling and queued at the tail otherwise; an unusable one is neither counted nor queued; the head waiting request for the key is dequeued (the key dropped when none remain) and dispatched |
| KeepAliveAgent.Agent.RemoveSocket | keep_alive_agent.js:98-107 | only that socket leaves its key's queue; the key is dropped when the queue empties; other keys are unchanged |
| KeepAliveAgent.SpliceAt | keep_alive_agent.js:102 | splicing one element out shortens the queue by one and removes exactly that element from its multiset |
| KeepAliveAgent.SpliceRemovesOne | keep_alive_agent.js:100-102 | removing the socket at its `indexOf` removes exactly one copy of it |
| KeepAliveAgent.TenSequentialRequests | test/keep_alive_agent_test.js:61-90 | ten sequential requests to one key leave one idle socket, with request count 10 |
| KeepAliveAgent.ReuseIdle | test/keep_alive_agent_test.js:73-86 | a request on the only idle socket returns it to the queue with its count up by one |
| KeepAliveAgent.MaxRequestsPerSocket | test/keep_alive_agent_test.js:139-166 | with a ceiling of 2: count 1 after one request, no idle socket after the second (destroyed), and a new socket with count 1 for the third |
| KeepAliveAgent.RequestOnNewSocket | test/keep_alive_agent_test.js:142-146 | a first request on a fresh socket leaves it idle with count 1 |
| KeepAliveAgent.RequestAtLimit | test/keep_alive_agent_test.js:147-150 | the request that reaches the ceiling destroys the socket and leaves the queue empty |
| KeepAliveAgent.DestroyedSocketNotKept | test/keep_alive_agent_test.js:92-101 | a socket destroyed before it is freed is not queued |
| KeepAliveAgent.DestroyedIdleSocketsSkipped | test/keep_alive_agent_test.js:103-115 | two destroyed idle sockets give null and an empty queue, on plain and secure agents alike |
| PoolPinger.Backoff | pool_pinger.js:79-81 | the backoff lies in [10, 20000] and is at most `2^attempts + 9` |
| PoolPinger.BackoffReachesCap | pool_pinger.js:78-81 | from 15 attempts on, the largest roll gives the 20-second cap |
| PoolPinger.FirstRetryBackoff | pool_pinger.js:79-81 | the first retried probe waits 10 or 11 ms |
| PoolPinger.Pinger.constructor | pool_pinger.js:5-12 | a new pinger is not running, has no attempts and no timer, and has sent no probe |
| PoolPinger.Pinger.MakeRequest | pool_pinger.js:39-59 | the probe timer is armed and one probe to the ping path is sent |
| PoolPinger.Pinger.Ping | pool_pinger.js:26-35 | with no attempts the probe goes out at once; otherwise it is scheduled for `backoff()` and nothing is sent |
| PoolPinger.Pinger.FireScheduled | pool_pinger.js:31 | the scheduled probe is sent and the schedule cleared |
| PoolPinger.Pinger.Start | pool_pinger.js:14-24 | no ping path, or already running: nothing changes; otherwise running, attempts 0, and a probe at once |
| PoolPinger.Pinger.OnResponse | pool_pinger.js:61-70 | recovered exactly on status 200, which stops the pinger; any other status counts an attempt and schedules the next probe, still running |
| PoolPinger.Pinger.OnProbeError | pool_pinger.js:55-58 | a probe error counts an attempt and schedules the next probe after the backoff |
| PoolPinger.Pinger.OnTimeout | pool_pinger.js:72-76 | the probe timer is cleared and the probe aborted |
| PoolPinger.ProbeUntilRevived | pool_pinger.js:14-76 | start probes once; a timed-out probe surfaces as an error, so the next waits 10-11 ms; a 200 then stops probing |
| Endpoint.RecountBalances | pool_endpoint.js:163-168 | after `update_pending` the counters balance: pending is issued minus settled |
| Endpoint.RebaseKeepsPending | pool_endpoint.js:155-168 | at `2^52` the rebase keeps pending and rate; the request count becomes pending, the settled counters 0, `requests_last_check` becomes rate minus pending |
| Endpoint.RebaseRateGap | pool_endpoint.js:155-161 | after a rebase, count minus last check is `2 * pending - rate` |
| Endpoint.RebaseExample | test/endpoint_test.js:297-317 | the tests' overflow values: pending 500 and count 500 after `update_pending`; `reset_counters` with rate 600 and pending 500 leaves last check 100 |
| Endpoint.AdmitRaisesPending | pool_endpoint.js:83-89 | issuing a request keeps the balance, raises pending by one, and raises the count by one below the rebase point |
| Endpoint.SettleLowersPending | pool_endpoint.js:170-192 | settling keeps the balance and lowers pending by one; exactly the outcome's own counter goes up by one |
| Endpoint.ContentLengthOfText | test/endpoint_test.js:43-56 | a text body "ƒoo" sets Content-Length 4 |
| Endpoint.TimeoutEventsExactly | pool_endpoint.js:137-150 | a timeout event is emitted for a request exactly when it is overdue and its path is not the ping path |
| Endpoint.TimeoutEventsStep | pool_endpoint.js:140-146 | the sweep's events grow by one request at a time, in key order |
| Endpoint.EndpointTimeout | pool_endpoint.js:58 | a timeout of 0 is kept, a missing one is 60000, any other is used as given |
| Endpoint.PoolEndpoint.constructor | pool_endpoint.js:23-71 | name `ip:port`, keep-alive from either spelling, timeout and ping defaults, healthy, no requests, all counters 0, a fresh idle pinger |
| Endpoint.PoolEndpoint.Ready | pool_endpoint.js:98-112 | never ready when unhealthy; with keep-alive ready iff more sockets than pending; otherwise ready iff nothing is pending |
| Endpoint.PoolEndpoint.ResetCounters | pool_endpoint.js:155-161 | the counters become the rebased ones |
| Endpoint.PoolEndpoint.UpdatePending | pool_endpoint.js:163-168 | pending is recomputed from the counters, with the rebase at `2^52` |
| Endpoint.PoolEndpoint.DeleteRequest | pool_endpoint.js:213-215 | exactly that id leaves the request map |
| Endpoint.PoolEndpoint.SetHealthy | pool_endpoint.js:198-209 | without a ping path nothing changes; otherwise health is set and "health" emitted once iff it changed; setting false starts the pinger |
| Endpoint.PoolEndpoint.PingResponse | pool_pinger.js:61-70 | a 200 probe answer stops the pinger and marks the endpoint healthy; any other answer schedules the next probe, health unchanged |
| Endpoint.PoolEndpoint.Complete | pool_endpoint.js:170-174 | the request leaves the map, pending is recomputed, and the callback gets the outcome once, with "done" emitted for it |
| Endpoint.PoolEndpoint.RequestSucceeded | pool_endpoint.js:176-179 | one success is settled and the response and body are delivered, with "done" emitted |
| Endpoint.PoolEndpoint.RequestFailed | pool_endpoint.js:181-187 | one failure is settled and delivered, with "done" emitted; the endpoint goes unhealthy, and the pinger starts, only if the request was not destroyed and a ping path is set; otherwise the pinger is untouched |
| Endpoint.PoolEndpoint.FilterRejected | pool_endpoint.js:189-192 | one filtered outcome is settled and the filter's error delivered, with "done" emitted |
| Endpoint.PoolEndpoint.Request | pool_endpoint.js:83-96 | a fresh request is filed under the old request count, which goes up by one; pending up by one; the start calls are made; no stream is returned when a retry filter is set |
| Endpoint.PoolEndpoint.Enroll | pool_endpoint.js:84-88 | the request is constructed with the next id, counted and filed |
| Endpoint.PoolEndpoint.SweepOne | pool_endpoint.js:141-149 | an overdue request is marked timed out and aborted, with a timeout event unless it is a ping; others are untouched |
| Endpoint.PoolEndpoint.CheckTimeouts | pool_endpoint.js:137-153 | every request is swept once, in id order; exactly the overdue ones are timed out and aborted; the rate becomes count minus last check and last check becomes the count |
| Endpoint.PoolEndpoint.SweepAll | pool_endpoint.js:140-150 | sweeping the given ids in order applies the per-request rule to each and emits their timeout events in order |
| Endpoint.PoolEndpointRequest.constructor | pool_endpoint_request.js:11-49 | id is the endpoint's request count, which goes up by one; timeout falls back to the endpoint's; headers default to `{}`; the retry filter defaults to one answering false; the filter is shown the endpoint's host and port and the request's path, method, timeout and headers; buffering unless `buffer_body === false`; state "init", callback live, nothing emitted |
| Endpoint.PoolEndpointRequest.End | pool_endpoint_request.js:225-231 | the request end is stamped, it is no longer writable, state "req_end", and the transport is ended with the payload |
| Endpoint.PoolEndpointRequest.Start | pool_endpoint_request.js:53-73 | no data and `end === false` leaves it open; no data ends it; a stream is piped; text or bytes set Content-Length and end with the data |
| Endpoint.PoolEndpointRequest.OnResponse | pool_endpoint_request.js:75-84 | the response is kept, state "res_start", response start stamped |
| Endpoint.PoolEndpointRequest.Done | pool_endpoint_request.js:244-250 | the outcome is delivered once, "done" is emitted with it, and the callback dropped |
| Endpoint.PoolEndpointRequest.OnRequestTimeout | pool_endpoint_request.js:176-188 | after done nothing changes; otherwise it fails with "timed_out", "request timed out" and state "req_timeout", "done" emitted; only the state, the callback and the endpoint's counters, health and pinger may change, and the pinger starts only for a request not destroyed with a ping path set |
| Endpoint.PoolEndpointRequest.OnResponseTimeout | pool_endpoint_request.js:191-203 | after done nothing changes; otherwise it fails with "timed_out", "response timed out" and state "res_timeout", "done" emitted; same frame and pinger rule as the request timeout |
| Endpoint.PoolEndpointRequest.OnError | pool_endpoint_request.js:86-105 | after done nothing changes; when timed out it is a request timeout; otherwise it fails with the transport's message, state "error", neither readable nor writable, "done" emitted; the pinger starts only for a request not destroyed with a ping path set |
| Endpoint.PoolEndpointRequest.OnAborted | pool_endpoint_request.js:161-173 | after done nothing changes; otherwise it fails with "aborted" and state "res_aborted", "done" emitted; the pinger starts only for a request not destroyed with a ping path set |
| Endpoint.PoolEndpointRequest.OnEnd | pool_endpoint_request.js:124-159 | after done nothing changes; otherwise no longer readable; when timed out it is a response timeout, chunks kept; otherwise the filter decides, health and pinger untouched |
| Endpoint.PoolEndpointRequest.Judge | pool_endpoint_request.js:135-158 | state "res_end" and "end" emitted; buffered chunks cleared; the filter is called with the request's options, the response and the body; an answer other than false (0 included) is a "filter" rejection carrying that delay; false is a success with the buffered body; then "done" |
| Endpoint.PoolEndpointRequest.OnDrain | pool_endpoint_request.js:107-112 | touched now, both backpressure counters reset, "drain" emitted |
| Endpoint.PoolEndpointRequest.OnData | pool_endpoint_request.js:114-122 | touched now, state "res_read", "data" emitted with the chunk; with buffering the chunk is appended and the length grows by its size, and without it nothing is kept |
| Endpoint.PoolEndpointRequest.Write | pool_endpoint_request.js:205-223 | a destroyed socket gets a close and false, counters unchanged; an accepted write resets the counters; a refused one adds one write and its bytes |
| Endpoint.PoolEndpointRequest.Destroy | pool_endpoint_request.js:233-240 | destroyed, neither readable nor writable, state "abort", the transport aborted |
| RequestSet.MaxAttempts | pool_request_set.js:22-26 | 1 for a stream body or `end === false`; the option when truthy; otherwise `min(max_retries + 1, max(length, 2))` |
| RequestSet.MaxAttemptsExamples | test/requestset_test.js:52-65 | at least 2, at most `max_retries + 1`, the pool length in between, and 1 with `end: false` |
| RequestSet.SetRetryDelay | pool_request_set.js:36-39 | 0 is kept, a missing delay is 20, any other is used as given |
| RequestSet.Tallied | pool_request_set.js:45-55 | one attempt is used; a hang-up counts a hang-up, an abort counts an abort, any other reason neither |
| RequestSet.AttemptsBounded | pool_request_set.js:42-71 | however the answers go, at most `max_attempts` attempts are made |
| RequestSet.ResponseEnds | pool_request_set.js:47-70 | an answer without error ends the set after that attempt, whatever attempts remain |
| RequestSet.RepeatedReasonBounded | pool_request_set.js:51-57 | a run of hang-ups (or aborts) ends within the hang-up (abort) budget left |
| RequestSet.PoolRequestSet.constructor | pool_request_set.js:17-40 | attempts from `MaxAttempts`, hang-up and abort budgets 2 when falsy, retry delay 20 unless given (0 kept), callback live |
| RequestSet.PoolRequestSet.DoRequest | pool_request_set.js:73-80 | the count of one `do_request`: one more attempt issued with the set's options; the pick and the hand-over are `Pool.Pool.Send` |
| RequestSet.PoolRequestSet.FireTimer | pool_request_set.js:60 | the earliest armed retry timer is taken off the armed list; the `do_request` it runs is `Pool.Pool.Retry` |
| RequestSet.PoolRequestSet.HandleResponse | pool_request_set.js:42-71 | one attempt is tallied; an error is retried iff attempts remain, the reason is neither "full" nor "unhealthy", and both budgets hold; a retry arms a timer for a positive delay, else is reported due at once (`again`), and `Pool.Pool.Answer` runs it; no attempt is counted here; otherwise the outcome, with the delay stamped on the error, is delivered once |
| RequestSet.HangupTwiceThenFails | test/requestset_test.js:122-138 | two hang-ups: one retry, then the hang-up error delivered although attempts remain |
| RequestSet.FailFailAbort | test/requestset_test.js:175-191 | two failures retried, then the abort on the last attempt delivered |
| RequestSet.RetryAfterDelayThenSucceed | pool_request_set.js:57-71 | a failure retried after a positive delay waits on a timer, and the success that follows is delivered |
| Pool.MaxRetries | pool.js:36-42 | `max_retries` when a number, else `maxRetries` when a number, else 5 |
| Pool.MaxPending | pool.js:51 | `max_pending` when truthy, else `maxPending` when truthy, else 1000 |
| Pool.PoolRetryDelay | pool.js:34-47 | an explicit delay, 0 included, is kept; the camel-case spelling is used when the other is missing; else 20 |
| Pool.PoolRetryDelayAsWritten | pool.js:34-47 | as written: a truthy `retry_delay` wins, then a truthy `retryDelay`; otherwise 0 only when `retryDelay` is 0, else 20, so an explicit `retry_delay: 0` alone is lost |
| Pool.PoolRetryDelayDropsZero | pool.js:34-47 | as written, `retry_delay: 0` becomes 20 |
| Pool.EndpointOptionsOf | pool.js:35 | the endpoint's ping path is `ping` or else `path`; timeout and keep-alive are passed through |
| Pool.ParsePort | pool.js:56-59 | a port is kept only in 1..65535 |
| Pool.Kept | pool.js:55-66 | the kept entries are no more than the input, each with a valid port and a colon-free ip |
| Pool.KeptExactly | pool.js:55-66 | an entry is kept iff it is in the input with a valid port |
| Pool.KeptStep | pool.js:55-66 | the kept list grows entry by entry, in input order |
| Pool.ParseOfJoin | pool.js:56-59 | `ip + ":" + port` parses back to that ip and port |
| Pool.KeptWellFormed | pool.js:55-66 | well-formed `ip:port` entries are all kept, in order, with their ip and port |
| Pool.DroppedExample | test/pool_test.js:54-58 | `"foo_bar"` is not kept |
| Pool.LastIndex | pool.js:64 | each raw entry is filed under its own text, at its last position |
| Pool.NextIsMod | pool.js:253 | stepping the scan position is `(pos + 1) % n` |
| Pool.PosSteps | pool.js:252-253 | the scan visits the position after `start` first, and each later step moves one position on with wrap-around |
| Pool.ScanFrom | pool.js:252-262 | the scan stops at a ready endpoint, or finishes with a healthy best |
| Pool.Select | pool.js:252-274 | a chosen index is on the list, and it is healthy when every ready endpoint is healthy |
| Pool.ScanSumSplit | pool.js:261 | the pending summed over the scan splits at the list's end |
| Pool.ScanSumIsPending | pool.js:261 | the scan's total pending is the sum over all endpoints |
| Pool.ScanHits | pool.js:255-256 | the scan stops at the first ready position |
| Pool.ScanFinishes | pool.js:252-262 | with no ready endpoint left, the scan finishes with the least-pending healthy endpoint first in scan order as its best |
| Pool.ScanTotal | pool.js:252-262 | with no ready endpoint left, the scan finishes having added the pending of every remaining step to the total |
| Pool.BestSoFarStep | pool.js:257-259 | one more step keeps the best the least-pending healthy endpoint so far, the first in scan order among equals |
| Pool.FirstReadyChosen | pool.js:252-256 | the first ready endpoint in scan order is chosen |
| Pool.NoneReadyChoice | pool.js:257-274 | with none ready: overloaded iff total pending reaches `max_pending`; otherwise unhealthy iff none is healthy; else the first healthy endpoint of least pending in scan order |
| Pool.InitReqOptions | pool.js:145-153 | falsy options become `{}`, a string s `{path: s}`, an object is kept |
| Pool.RequestRetryDelay | pool.js:173-176 | a delay set on the request, 0 included, is kept; else the camel-case one; else the pool's |
| Pool.RequestRetryDelayAsWritten | pool.js:173-176 | as written: a truthy `retry_delay` wins, then a truthy `retryDelay`; otherwise 0 only when `retryDelay` is 0, else the pool's delay |
| Pool.RequestRetryDelayDropsZero | pool.js:173-176 | as written, a request's `retry_delay: 0` becomes the pool's delay |
| Pool.NormalizeRequest | pool.js:155-181 | no callback, and no function as data, is the error "a callback is required"; data is taken from the argument only when the options carry none; method defaults to GET; the retry delay and filter fall back to the camel-case spelling, then the pool's; every other option is kept |
| Pool.PathAndCallback | test/pool_test.js:210-234 | a path string with a callback in the data slot gives that path and GET |
| Pool.WithMethod | pool.js:198-214 | the helpers force the method and keep the initialised path |
| Pool.ForcedMethod | pool.js:198-214 | put/post/del requests carry their method; del succeeds iff a callback is given |
| Pool.Reused | pool.js:185-189 | reused iff the response's socket has served more than one request |
| Pool.TimingOf | pool.js:184-189 | success iff there is no error; reused as above |
| Pool.SentinelError | pool.js:74-99 | the overloaded sentinel fails with "full", the unhealthy one with "unhealthy", both with `delay: true` |
| Pool.SentinelNotRetried | pool_request_set.js:57 | a sentinel's error is never retried |
| Pool.PendingOf | pool.js:279-281 | the pending of a list of endpoints is the sum of their pending |
| Pool.TotalSnoc | pool.js:283-289 | a term added at the back of the list adds to the front-first total |
| Pool.RateOf | pool.js:283-285 | the left-to-right sum of the request rates equals the front-first total of the endpoints' rates |
| Pool.RequestCountOf | pool.js:287-289 | the left-to-right sum of the request counts equals the front-first total of the endpoints' counts |
| Pool.Pool.Rate | pool.js:283-285 | the pool's rate is the total of its endpoints' request rates |
| Pool.Pool.RequestCount | pool.js:287-289 | the pool's request count is the total of its endpoints' request counts |
| Pool.IdleSums | pool.js:279-289 | endpoints with nothing counted sum to 0 pending, 0 rate and 0 requests |
| Pool.HealthyOf | pool.js:112-123 | every healthy endpoint is in the result, and only healthy ones |
| Pool.Pool.constructor | pool.js:32-51 | the options' defaults: `max_pending`, `max_retries`, `retry_delay`, retry filter; a non-empty list of valid endpoints, with the name index filing only listed ones, gives a valid pool |
| Pool.Pool.GetEndpoint | pool.js:231-275 | the pick is `Choose`: unknown pinned name is an error, a pinned endpoint at `max_pending` is overloaded, a pinned one is taken whatever its health, otherwise the scan's choice |
| Pool.Pool.Scan | pool.js:252-274 | the scan loop computes `Select` on the endpoints' views |
| Pool.Pool.HealthyEndpoints | pool.js:112-123 | the loop returns `HealthyOf` the endpoints |
| Pool.Pool.Pending | pool.js:279-281 | the sum of pending over the endpoints |
| Pool.AfterAttempt | pool_endpoint_request.js:14 | the options a later attempt sees always carry a retry filter, the caller's own when there was one, and differ from the set's options in nothing else |
| Pool.AfterAttemptStable | pool_endpoint_request.js:14 | writing the default filter back is idempotent: every attempt after the first sees the same options |
| Pool.Pool.Attempt | pool_request_set.js:73-80 | `do_request` for a later attempt: exactly one attempt is counted, and the pick of `Choose` gets the set's options as the first attempt left them (`AfterAttempt`), as `Send` states |
| Pool.Pool.Send | pool_request_set.js:74-79 | an unknown pinned endpoint is an error; an endpoint pick files one new request under its request count and counts it, its health, events and socket count unchanged; a sentinel answers with its error; every endpoint but the pick is unchanged |
| Pool.Pool.Answer | pool_request_set.js:42-71 | the set handles the answer as `HandleResponse` states; a retry due at once is counted once and its pick gets the set's options as the first attempt left them (`AfterAttempt`), as `Send` states; otherwise no attempt is counted and no endpoint changes |
| Pool.Pool.AnswerAndRetry | pool_request_set.js:57-63 | for an answer retried without delay: handled with `again`, one attempt counted, and the pick of `Choose` gets `AfterAttempt` of the set's options |
| Pool.Pool.Retry | pool_request_set.js:73-80 | the earliest armed retry timer is taken off, and its `do_request` counts exactly one attempt and sends `AfterAttempt` of the set's options to the pick of `Choose` as `Send` states |
| Pool.Pool.Dispatch | pool.js:77-98 | the picked endpoint files one new request under its request count and counts it, leaving its health, its events and its socket count alone; a sentinel answers with its error |
| Pool.Pool.RetryHasNoStream | pool_endpoint.js:84-95 | a later attempt handed to an endpoint returns no stream, since the shared options carry a filter by then |
| Pool.Pool.Request | pool.js:155-194 | normalisation failure passes through with nothing changed; otherwise a fresh request set whose options are the normalised ones, with the request's retry delay and `max_attempts`, whose first attempt fails exactly on an unknown pinned endpoint and otherwise is dispatched to the pick; every endpoint but the pick is unchanged |
| Pool.Pool.Issue | pool.js:183-193 | the request set is built from the normalised options, one attempt is counted, and it is sent to what `get_endpoint` picks; every endpoint but the pick is unchanged |
| Pool.NewEndpoint | pool.js:60 | a fresh valid endpoint with the entry's ip, port and name, its keep-alive, timeout, ping path and ping timeout taken from the pool's endpoint options |
| Pool.BuiltAppend | pool.js:63-64 | pushing an endpoint and filing it under its raw entry keeps the list and the index in step |
| Pool.BuiltFiles | pool.js:63-64 | every endpoint the name index files is on the endpoint list |
| Pool.NewPool | pool.js:55-71 | "no valid endpoints" iff no entry is kept; otherwise one fresh endpoint per kept entry in order, each built with `EndpointOptionsOf` the pool options, filed by raw entry, `length` the number kept, with the options' defaults, retry filter and name |
| Pool.BuildEndpoints | pool.js:55-66 | the loop builds one endpoint per kept entry and files each |
| Pool.AddEntry | pool.js:56-65 | one entry adds an endpoint exactly when its port is valid |

## Left out

- Node's transport is abstract: `http.request`, `http.get`, sockets, `onSocket` and Stream piping.
  The calls made on an outgoing request are logged as `OutCall`s. The base `http.Agent` calls
  (keep_alive_agent.js:74,109) are a `ToBaseAgent` dispatch in `AddRequest`, and not modelled
  in `RemoveSocket`.
- Socket usability is a flag: `destroyed` on a plain socket, `sslAlive` (the TLS `pair.ssl`) on a
  secure one.
- Timers, `setInterval` and `process.nextTick` are not run. Armed timers are fields, fired by
  explicit calls (`Pool.Pool.Retry` for a retry timer, `FireScheduled`). The periodic `check_timeouts` interval and its
  `resolution` (pool_endpoint.js:59-65) are left out; `CheckTimeouts` is called directly.
- `Math.random` is a parameter, and `Date.now` is `now`.
- Endpoint.PoolEndpointRequest.Done: the `end - start` duration passed to the callback is not
  modelled.
- The pool's events ("health", "timeout", "retrying", "timing") are not emitted, at
  pool.js:103-109,125-127,190. Retries are logged in the request set's `retried`, and
  `TimingOf` computes the timing fields.
- `stats()` and `close()` (pool.js:216-224,291-296; pool_endpoint.js:74-76,114-135) are left
  out: they are reporting and timer teardown.
- The aliases `get`, `get_node`, `getNode`, `setHealthy` and `abort` name modelled
  operations, so they have no members of their own.
- The agent's creation and `maxSockets` (pool_endpoint.js:35-47) are left out. The agent's
  open socket count for the endpoint is an `agentSockets` field.
- `busyness()` is left out: it is `pending`.
- `get_attempt_info` / `PoolEndpointRequestAttempt` (pool_endpoint_request.js:252-290) is a
  field copy and is left out.
- `Buffer.concat` and decoding with `encoding` are left out. The body is the concatenated
  chunks (`BufferedBody`).
- Pool.ParsePort: `+text` is read as decimal digits only. JavaScript also accepts hex,
  exponent and fractional forms, trims surrounding whitespace and accepts a leading `+`. So
  the code keeps the entries `"h: 80"` and `"h:+80"`, and the model drops them.
- The pool constructor's checks on the `http` module and on `endpoints` being an array
  (pool.js:25-30) are ruled out by the types.
- `lb_pool.js` (module wiring) and `examples/pool_stats_wrapper.js` (metrics and logging) are
  not part of this model.
- Pool.HealthyOf: states membership in both directions and the length bound. The order of the
  result is fixed by its definition and `HealthyEndpoints`, not stated as a lemma.
- Pool.Pool.Issue: picks and sends before it builds the request set; the code builds the set
  first. The new set and the endpoints share no state, so both orders end in the same state.
- Pool.Pool.Request: the caller's options are a value. The code writes `data`, `method`,
  `retry_delay` and `retry_filter` (pool.js:161-181), and later `success` and `reused`, into
  the caller's own object; a caller that passes the same object to a later call carries them
  over, and pool.js:161 then ignores that call's `data`. The model does not carry them over.
- Pool.Pool.Attempt: of the endpoint request's writes into the shared options
  (pool_endpoint_request.js:12-21), only `retry_filter || noop` is carried to later attempts
  (`AfterAttempt`, which `Pool.Pool.Answer`, `Pool.Pool.AnswerAndRetry` and `Pool.Pool.Retry`
  use as well). Host and port are written afresh by every attempt, `headers || {}` is
  the same for every endpoint, and `timeout || endpoint.timeout` is too, because all
  endpoints of a pool are built with one timeout (`AllConfigured`).
- Pool.Pool.AnswerAndRetry: picks and sends before the set's bookkeeping of the answer; the
  code does the bookkeeping first. The set's counters and the endpoints are disjoint, so both
  orders end in the same state.
- Pool.NewPool: states each endpoint's entry and configuration, but not its initial counters.
  Those are stated on `Endpoint.PoolEndpoint.constructor`.
- Pool.NewEndpoint: states the entry and the configuration, but not the initial counters,
  health, requests and events. Those are stated on `Endpoint.PoolEndpoint.constructor`.
- Pool.Pool.constructor: keeps an explicit `retry_delay: 0`, by `Pool.PoolRetryDelay`. The code
  as written turns it into 20 (first row of "## Findings", `Pool.PoolRetryDelayAsWritten`).
- Pool.NewPool: builds its pool through `Pool.Pool.constructor`, so it uses the corrected pool
  delay too.
- Pool.NormalizeRequest: keeps a request's explicit `retry_delay: 0`, by
  `Pool.RequestRetryDelay`. The code as written replaces it with the pool's delay (second row
  of "## Findings", `Pool.RequestRetryDelayAsWritten`).
- Pool.Pool.Request: normalises with `Pool.NormalizeRequest`, so its request set gets the
  corrected delay.
- Endpoint.PoolEndpointRequest.Judge: the filter is shown the options it reads in practice:
  host, port, path, method, timeout and headers. The agent, the encoding and the rest of the
  caller's options object are not passed. The body is bytes, not the decoded string. The
  filter is evaluated before "end" is recorded, which is a different order from the code. The
  two orders agree because the model has no listeners that could act on "end".

## Findings

| source | as written | input that shows it | evidently intended | confidence | as-written member | corrected member |
|---|---|---|---|---|---|---|
| pool.js:34-47 | `options.retry_delay = options.retry_delay \|\| options.retryDelay` runs before the check that keeps an explicit 0, so 0 is already replaced and becomes 20 | pool options `{retry_delay: 0}` | the comment at pool.js:44 says 0 is a useful value to keep: `retry_delay` 0 stays 0 | not executed | Pool.PoolRetryDelayAsWritten, Pool.PoolRetryDelayDropsZero | Pool.PoolRetryDelay |
| pool.js:173-176 | the same `\|\|` on the request's options turns an explicit 0 into the pool's delay | request options `{retry_delay: 0}` on a pool with delay 20 | a request asking for no delay gets 0, as the same check intends | not executed | Pool.RequestRetryDelayAsWritten, Pool.RequestRetryDelayDropsZero | Pool.RequestRetryDelay |

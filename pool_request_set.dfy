/**
 * The retry orchestration of one caller request: a request set issues attempts (each one
 * picks an endpoint and sends the request there), and judges each attempt's answer. An
 * error is retried after a randomised, exponentially growing delay while attempts remain,
 * the pool is neither full nor without healthy endpoints, and neither the hang-up nor the
 * abort allowance is used up; every other answer ends the set with one call of the
 * caller's callback.
 *
 * Choosing the endpoint and sending the request need the pool, so they are in the pool's
 * module: `Pool.Pool.Attempt` is `do_request`, and it counts each issued attempt here in
 * `attemptsSent`. When an answer calls for a retry at once, `HandleResponse` says so and
 * the pool runs `do_request` (`Pool.Pool.Answer`); a retry timer that fires is taken off
 * here and the pool runs `do_request` for it (`Pool.Pool.Retry`). The random factor of the
 * delay is the integer `roll`, which stands for `Math.round(random * 2^k * retry_delay)`.
 */
module RequestSet {
  import opened Js
  import opened Exchange

  const DEFAULT_MAX_HANGUPS: int := 2
  const DEFAULT_MAX_ABORTS: int := 2
  const DEFAULT_RETRY_DELAY: int := 20
  const HANGUP: string := "socket hang up"
  const ABORTED: string := "aborted"

  /** A request set makes a single attempt for a stream payload or when the request is left open (`end === false`). */
  predicate SingleShot(options: ReqOptions)
  {
    options.data.StreamSource? || options.end == Bool(false)
  }

  /**
   * `max_attempts`: 1 for a single-shot request; otherwise the caller's `max_attempts`
   * when truthy, else one more than the pool's retry limit, but no more than the number of
   * endpoints, that number counting as at least 2.
   */
  function MaxAttempts(options: ReqOptions, maxRetries: int, poolLength: nat): (m: int)
    ensures SingleShot(options) ==> m == 1
    ensures !SingleShot(options) && NumTruthy(options.maxAttempts) ==> m == options.maxAttempts.value
    ensures !SingleShot(options) && !NumTruthy(options.maxAttempts) ==>
              m <= maxRetries + 1 && m <= Max(poolLength, 2) && (m == maxRetries + 1 || m == Max(poolLength, 2))
    ensures !SingleShot(options) && !NumTruthy(options.maxAttempts) && maxRetries >= 0 ==> m >= 1
  {
    if SingleShot(options) then 1
    else NumOr(options.maxAttempts, Min(maxRetries + 1, Max(poolLength, 2)))
  }

  /** The request set's tests: 1 endpoint and 5 retries give 2 attempts, 9 and 4 give 5, 4 and 5 give 4. */
  lemma MaxAttemptsExamples()
    ensures MaxAttempts(EmptyOptions(), 5, 1) == 2
    ensures MaxAttempts(EmptyOptions(), 4, 9) == 5
    ensures MaxAttempts(EmptyOptions(), 5, 4) == 4
    ensures MaxAttempts(EmptyOptions().(end := Bool(false)), 5, 4) == 1
  {
  }

  /** The request set's `retry_delay`: 20 when it is missing, otherwise as given, 0 included. */
  function SetRetryDelay(o: Option<int>): (d: int)
    ensures o == Some(0) ==> d == 0
    ensures o.None? ==> d == DEFAULT_RETRY_DELAY
    ensures NumTruthy(o) ==> d == o.value
  {
    if !NumTruthy(o) && o != Some(0) then DEFAULT_RETRY_DELAY else o.value
  }

  /** `Math.round` of a random fraction of bound lies between 0 and the bound, both included. */
  predicate Rounded(d: int, bound: int)
  {
    if bound >= 0 then 0 <= d <= bound else bound <= d <= 0
  }

  /** The largest delay of the k-th answer: `2^k * retry_delay`. */
  function DelayBound(k: nat, retryDelay: int): int
  {
    Pow2(k) * retryDelay
  }

  /** The counters `handle_response` keeps. */
  datatype Progress = Progress(attemptsRemaining: int, hangups: int, aborts: int)

  /** The counters after one answer: one attempt fewer, and a hang-up or an abort counted. */
  function Tallied(p: Progress, err: Option<string>): (q: Progress)
    ensures q.attemptsRemaining == p.attemptsRemaining - 1
    ensures q.hangups == p.hangups + (if err == Some(HANGUP) then 1 else 0)
    ensures q.aborts == p.aborts + (if err == Some(ABORTED) then 1 else 0)
  {
    var q := p.(attemptsRemaining := p.attemptsRemaining - 1);
    if err == Some(HANGUP) then q.(hangups := q.hangups + 1)
    else if err == Some(ABORTED) then q.(aborts := q.aborts + 1)
    else q
  }

  /** Whether, after tallying, an answer is retried: only an error, other than a full or unhealthy pool, within every allowance. */
  predicate Retried(q: Progress, err: Option<string>, maxHangups: int, maxAborts: int)
  {
    err.Some? && q.attemptsRemaining > 0 && err.value != "full" && err.value != "unhealthy" &&
    q.hangups < maxHangups && q.aborts < maxAborts
  }

  /**
   * The number of attempts a request set makes from counters p when its attempts are
   * answered, in order, by `answers` (an error reason, or None for a response): each
   * answer that is retried leads to one more attempt; the attempt after the last answer,
   * if any, is still in flight.
   */
  function Attempts(p: Progress, answers: seq<Option<string>>, maxHangups: int, maxAborts: int): nat
    decreases |answers|
  {
    if answers == [] then 1
    else
      var q := Tallied(p, answers[0]);
      if Retried(q, answers[0], maxHangups, maxAborts) then 1 + Attempts(q, answers[1..], maxHangups, maxAborts)
      else 1
  }

  /** Whatever the answers, a set never makes more attempts than it had remaining (and always makes one). */
  lemma {:induction false} AttemptsBounded(p: Progress, answers: seq<Option<string>>, maxHangups: int, maxAborts: int)
    ensures Attempts(p, answers, maxHangups, maxAborts) <= Max(p.attemptsRemaining, 1)
    decreases |answers|
  {
    if answers != [] {
      var q := Tallied(p, answers[0]);
      if Retried(q, answers[0], maxHangups, maxAborts) {
        AttemptsBounded(q, answers[1..], maxHangups, maxAborts);
      }
    }
  }

  /** A response (no error) ends the set at once, whatever attempts remain. */
  lemma ResponseEnds(p: Progress, rest: seq<Option<string>>, maxHangups: int, maxAborts: int)
    ensures Attempts(p, [None] + rest, maxHangups, maxAborts) == 1
  {
  }

  /** The allowance a reason uses up: hang-ups for a hang-up, aborts for an abort. */
  function Used(p: Progress, reason: string): int
  {
    if reason == HANGUP then p.hangups else p.aborts
  }

  /**
   * When every answer is a hang-up (or every answer is an abort), the set makes no more
   * attempts than it has allowance left for that reason, nor than it had remaining.
   */
  lemma {:induction false} RepeatedReasonBounded(p: Progress, answers: seq<Option<string>>, reason: string,
                                                 maxHangups: int, maxAborts: int)
    requires reason == HANGUP || reason == ABORTED
    requires forall i :: 0 <= i < |answers| ==> answers[i] == Some(reason)
    ensures Attempts(p, answers, maxHangups, maxAborts) <=
              Max(1, Min(p.attemptsRemaining, (if reason == HANGUP then maxHangups else maxAborts) - Used(p, reason)))
    decreases |answers|
  {
    if answers != [] {
      var q := Tallied(p, answers[0]);
      if Retried(q, answers[0], maxHangups, maxAborts) {
        RepeatedReasonBounded(q, answers[1..], reason, maxHangups, maxAborts);
      }
    }
  }

  /** The error reason of an answer, None for a response. */
  function ReasonOf(err: Option<Error>): Option<string>
  {
    if err.Some? then Some(err.value.reason) else None
  }

  /** `err.delay = delay`: the error carries the delay chosen for it. */
  function WithDelay(err: Option<Error>, delay: int): Option<Error>
  {
    if err.Some? then Some(err.value.(delay := Num(delay))) else None
  }

  class PoolRequestSet {
    /** The request options, with `retry_delay` filled in as the constructor does. */
    const options: ReqOptions
    const maxAttempts: int
    const maxHangups: int
    const maxAborts: int
    /** The base of the retry delay (`this.delay`). */
    const delay: int
    var attemptsRemaining: int
    var hangups: int
    var aborts: int
    /** The callback is still set. */
    var callbackLive: bool
    /** The calls of the caller's callback. */
    var delivered: seq<Completion>
    /** The errors announced to the pool as retried (`pool.on_retry`), in order. */
    var retried: seq<Error>
    /** The delays of retries waiting on a timer. */
    var timers: seq<int>
    /** The attempts issued so far (`do_request`). */
    var attemptsSent: nat

    function Counters(): Progress
      reads this`attemptsRemaining, this`hangups, this`aborts
    {
      Progress(attemptsRemaining, hangups, aborts)
    }

    /**
     * The callback fires at most once and is gone afterwards; each answer uses one
     * attempt, and a retry is only made while attempts remain, so there are never more
     * retries than answers, nor more than one fewer than the attempts allowed.
     */
    ghost predicate Valid()
      reads this`attemptsRemaining, this`delivered, this`callbackLive, this`retried
    {
      attemptsRemaining <= maxAttempts && |delivered| <= 1 && (callbackLive <==> delivered == []) &&
      |retried| <= maxAttempts - attemptsRemaining && |retried| <= Max(0, maxAttempts - 1)
    }

    /** `new PoolRequestSet(pool, options, callback)` for a pool with the given retry limit and number of endpoints. */
    constructor (options: ReqOptions, maxRetries: int, poolLength: nat)
      ensures this.options == options.(retryDelay := Some(SetRetryDelay(options.retryDelay)))
      ensures maxAttempts == MaxAttempts(options, maxRetries, poolLength) && attemptsRemaining == maxAttempts
      ensures maxHangups == NumOr(options.maxHangups, DEFAULT_MAX_HANGUPS) && hangups == 0
      ensures maxAborts == NumOr(options.maxAborts, DEFAULT_MAX_ABORTS) && aborts == 0
      ensures delay == SetRetryDelay(options.retryDelay)
      ensures callbackLive && delivered == [] && retried == [] && timers == [] && attemptsSent == 0
      ensures Valid()
    {
      this.options := options.(retryDelay := Some(SetRetryDelay(options.retryDelay)));
      maxAttempts := MaxAttempts(options, maxRetries, poolLength);
      attemptsRemaining := MaxAttempts(options, maxRetries, poolLength);
      maxHangups := NumOr(options.maxHangups, DEFAULT_MAX_HANGUPS);
      hangups := 0;
      maxAborts := NumOr(options.maxAborts, DEFAULT_MAX_ABORTS);
      aborts := 0;
      delay := SetRetryDelay(options.retryDelay);
      callbackLive := true;
      delivered := [];
      retried := [];
      timers := [];
      attemptsSent := 0;
    }

    /** The count of `do_request`: one more attempt issued with the set's options. */
    method DoRequest()
      modifies this`attemptsSent
      ensures attemptsSent == old(attemptsSent) + 1
    {
      attemptsSent := attemptsSent + 1;
    }

    /** The earliest retry timer fired: it is no longer armed, and its `do_request` is due. */
    method FireTimer()
      requires timers != []
      modifies this`timers
      ensures timers == old(timers[1..])
    {
      timers := timers[1..];
    }

    /** The answer err with delay roll is retried, and at once: `handle_response` runs `do_request` itself. */
    predicate RetriesAtOnce(err: Option<Error>, roll: int)
      reads this`attemptsRemaining, this`hangups, this`aborts
    {
      Retried(Tallied(Counters(), ReasonOf(err)), ReasonOf(err), maxHangups, maxAborts) && roll <= 0
    }

    /**
     * Since the earlier state one answer was handled: the attempt is tallied; a retried error
     * is announced with its delay stamped, and arms a timer for a positive delay or is due
     * at once (again) otherwise; any other answer goes to the callback if it is still set,
     * and the callback is dropped.
     */
    twostate predicate Handled(err: Option<Error>, response: Option<Response>, body: Option<Body>, roll: int, again: bool)
      reads this`attemptsRemaining, this`hangups, this`aborts, this`callbackLive, this`delivered, this`retried, this`timers
    {
      Counters() == Tallied(old(Counters()), ReasonOf(err)) &&
      (Retried(Counters(), ReasonOf(err), maxHangups, maxAborts) ==>
         retried == old(retried) + [WithDelay(err, roll).value] &&
         callbackLive == old(callbackLive) && delivered == old(delivered) &&
         (roll > 0 ==> timers == old(timers) + [roll] && !again) &&
         (roll <= 0 ==> timers == old(timers) && again)) &&
      (!Retried(Counters(), ReasonOf(err), maxHangups, maxAborts) ==>
         retried == old(retried) && timers == old(timers) && !again && !callbackLive &&
         delivered == (if old(callbackLive) then [Completion(WithDelay(err, roll), response, body)] else old(delivered)))
    }

    /**
     * `handle_response`: use up an attempt; for an error, choose its delay (between 0 and
     * `2^k * delay` for the k-th answer) and count a hang-up or an abort. A retried error
     * is announced and its attempt is due at once (delay 0 or less: `again`) or after its
     * delay; otherwise the callback, while still set, gets the answer and is dropped.
     */
    method HandleResponse(err: Option<Error>, response: Option<Response>, body: Option<Body>, roll: int)
      returns (again: bool)
      requires Valid()
      requires err.Some? ==> Rounded(roll, DelayBound(maxAttempts - attemptsRemaining + 1, delay))
      modifies this`attemptsRemaining, this`hangups, this`aborts, this`callbackLive, this`delivered, this`retried,
               this`timers
      ensures Valid()
      ensures Handled(err, response, body, roll, again)
    {
      attemptsRemaining := attemptsRemaining - 1;
      var answer := WithDelay(err, roll);
      if err.Some? && err.value.reason == HANGUP {
        hangups := hangups + 1;
      } else if err.Some? && err.value.reason == ABORTED {
        aborts := aborts + 1;
      }
      if err.Some? && attemptsRemaining > 0 && err.value.reason != "full" && err.value.reason != "unhealthy" &&
         hangups < maxHangups && aborts < maxAborts {
        retried := retried + [answer.value];
        if roll > 0 {
          timers := timers + [roll];
        }
        again := roll <= 0;
      } else {
        if callbackLive {
          delivered := delivered + [Completion(answer, response, body)];
          callbackLive := false;
        }
        again := false;
      }
    }
  }

  // In the scenarios below, each `DoRequest` counts the `do_request` the pool runs for an
  // attempt that is due: the first one, one reported by `again`, or one whose timer fired.

  function HangupError(): Error
  {
    Error(HANGUP, "hang up", Undefined)
  }

  /**
   * Three endpoints, five retries: a hang-up is retried once, and the second hang-up ends
   * the set with that error although an attempt remains.
   */
  method HangupTwiceThenFails() returns (delivered: seq<Completion>, retries: nat, sent: nat)
    ensures delivered == [Completion(Some(HangupError().(delay := Num(0))), None, None)]
    ensures retries == 1 && sent == 2
  {
    var s := new PoolRequestSet(EmptyOptions(), 5, 3);
    assert s.maxAttempts == 3 && s.maxAborts == DEFAULT_MAX_ABORTS && s.maxHangups == DEFAULT_MAX_HANGUPS;
    s.DoRequest();
    var again := s.HandleResponse(Some(HangupError()), None, None, 0);
    assert again;
    s.DoRequest();
    assert s.Counters() == Progress(2, 1, 0) && |s.retried| == 1 && s.callbackLive && s.attemptsSent == 2;
    again := s.HandleResponse(Some(HangupError()), None, None, 0);
    assert !again;
    delivered, retries, sent := s.delivered, |s.retried|, s.attemptsSent;
  }

  /**
   * Three endpoints: two plain failures are retried, and an abort on the third and last
   * attempt ends the set with the abort.
   */
  method FailFailAbort() returns (delivered: seq<Completion>, retries: nat, sent: nat)
    ensures delivered == [Completion(Some(Error(ABORTED, "aborted", Num(0))), None, None)]
    ensures retries == 2 && sent == 3
  {
    var s := new PoolRequestSet(EmptyOptions(), 5, 3);
    assert s.maxAttempts == 3 && s.maxAborts == DEFAULT_MAX_ABORTS && s.maxHangups == DEFAULT_MAX_HANGUPS;
    s.DoRequest();
    var again := s.HandleResponse(Some(Error("ihateyou", "crap", Undefined)), None, None, 0);
    assert again;
    s.DoRequest();
    assert s.Counters() == Progress(2, 0, 0) && |s.retried| == 1 && s.callbackLive && s.attemptsSent == 2;
    again := s.HandleResponse(Some(Error("ihateyou", "crap", Undefined)), None, None, 0);
    assert again;
    s.DoRequest();
    assert s.Counters() == Progress(1, 0, 0) && |s.retried| == 2 && s.callbackLive && s.attemptsSent == 3;
    again := s.HandleResponse(Some(Error(ABORTED, "aborted", Undefined)), None, None, 0);
    assert !again;
    delivered, retries, sent := s.delivered, |s.retried|, s.attemptsSent;
  }

  /** A failure retried after a positive delay waits on a timer; the success that follows is delivered with its body. */
  method RetryAfterDelayThenSucceed(roll: int, res: Response, body: Body) returns (delivered: seq<Completion>, sent: nat)
    requires 0 < roll <= 40
    ensures delivered == [Completion(None, Some(res), Some(body))] && sent == 2
  {
    var s := new PoolRequestSet(EmptyOptions(), 5, 2);
    assert s.maxAttempts == 2 && s.delay == 20 && DelayBound(1, 20) == 40;
    s.DoRequest();
    var again := s.HandleResponse(Some(Error("ihateyou", "crap", Undefined)), None, None, roll);
    assert !again && s.attemptsRemaining == 1 && s.timers == [roll] && s.callbackLive && s.attemptsSent == 1;
    s.FireTimer();
    s.DoRequest();
    assert s.callbackLive && s.attemptsSent == 2;
    assert ReasonOf(None) == None && WithDelay(None, 0) == None;
    again := s.HandleResponse(None, Some(res), Some(body), 0);
    delivered, sent := s.delivered, s.attemptsSent;
  }
}

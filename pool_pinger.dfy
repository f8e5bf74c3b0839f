/**
 * The health pinger of one endpoint: once started it probes the endpoint's ping path,
 * the first probe at once and each later one after a randomised, capped backoff, until
 * a probe answers with status 200. Timers are fields: `probeTimerArmed` is the per-probe
 * timeout, `scheduled` the delay of a probe waiting to be made. The random factor of the
 * backoff is the integer `jitter`, which stands for `floor(random * 2^attempts)`.
 */
module PoolPinger {
  import opened Js

  const MIN_BACKOFF: nat := 10
  const MAX_BACKOFF: nat := 20000

  /** One probe-related action the pinger takes on the transport. */
  datatype ProbeEvent = Sent(path: string) | Aborted

  /** `min(floor(random * 2^attempts + 10), 20000)` with `floor(random * 2^attempts)` = jitter. */
  function Backoff(attempts: nat, jitter: nat): (d: nat)
    requires jitter < Pow2(attempts)
    ensures MIN_BACKOFF <= d <= MAX_BACKOFF
    ensures d <= Pow2(attempts) + MIN_BACKOFF - 1
  {
    Min(jitter + MIN_BACKOFF, MAX_BACKOFF)
  }

  lemma {:induction false} Pow2Monotone(j: nat, k: nat)
    requires j <= k
    ensures Pow2(j) <= Pow2(k)
  {
    if j < k {
      Pow2Monotone(j, k - 1);
    }
  }

  /** From the 15th attempt on the cap can be reached, and it is never exceeded. */
  lemma BackoffReachesCap(attempts: nat)
    requires attempts >= 15
    ensures Backoff(attempts, Pow2(attempts) - 1) == MAX_BACKOFF
  {
    Pow2Monotone(15, attempts);
    assert Pow2(15) == 32768;
  }

  /** The first retry waits 10 or 11 ms. */
  lemma FirstRetryBackoff(jitter: nat)
    requires jitter < Pow2(1)
    ensures Backoff(1, jitter) == 10 || Backoff(1, jitter) == 11
  {
  }

  class Pinger {
    /** The endpoint's ping path; probing is disabled when it is falsy. */
    const pingPath: Option<string>
    const pingTimeout: int
    var running: bool
    var attempts: nat
    var probeTimerArmed: bool
    var scheduled: Option<nat>
    /** What the pinger did on the transport, in order. */
    var probes: seq<ProbeEvent>

    constructor (pingPath: Option<string>, pingTimeout: int)
      ensures this.pingPath == pingPath && this.pingTimeout == pingTimeout
      ensures !running && attempts == 0 && !probeTimerArmed && scheduled == None && probes == []
    {
      this.pingPath := pingPath;
      this.pingTimeout := pingTimeout;
      running := false;
      attempts := 0;
      probeTimerArmed := false;
      scheduled := None;
      probes := [];
    }

    /** `make_request`: arm the probe timeout and send a probe to the ping path. */
    method MakeRequest()
      modifies this`probeTimerArmed, this`probes
      ensures probeTimerArmed
      ensures probes == old(probes) + [Sent(if pingPath.Some? then pingPath.value else "")]
    {
      probeTimerArmed := true;
      probes := probes + [Sent(if pingPath.Some? then pingPath.value else "")];
    }

    /**
     * `ping`: clear the probe timeout, then probe at once on the first attempt and
     * otherwise schedule the probe after the backoff for the current attempt count.
     */
    method Ping(jitter: nat)
      requires jitter < Pow2(attempts)
      modifies this`probeTimerArmed, this`probes, this`scheduled
      ensures attempts == 0 ==>
                probeTimerArmed && scheduled == old(scheduled) &&
                probes == old(probes) + [Sent(if pingPath.Some? then pingPath.value else "")]
      ensures attempts > 0 ==>
                !probeTimerArmed && scheduled == Some(Backoff(attempts, jitter)) && probes == old(probes)
    {
      probeTimerArmed := false;
      if attempts > 0 {
        scheduled := Some(Backoff(attempts, jitter));
      } else {
        MakeRequest();
      }
    }

    /** The backoff delay elapsed: make the scheduled probe. */
    method FireScheduled()
      requires scheduled.Some?
      modifies this`probeTimerArmed, this`probes, this`scheduled
      ensures scheduled == None && probeTimerArmed
      ensures probes == old(probes) + [Sent(if pingPath.Some? then pingPath.value else "")]
    {
      scheduled := None;
      MakeRequest();
    }

    /** `start`: with a truthy ping path and not yet running, begin probing from attempt 0. */
    method Start()
      modifies this
      ensures !StrTruthy(pingPath) || old(running) ==> unchanged(this)
      ensures StrTruthy(pingPath) && !old(running) ==>
                running && attempts == 0 && probeTimerArmed && scheduled == old(scheduled) &&
                probes == old(probes) + [Sent(pingPath.value)]
    {
      if !StrTruthy(pingPath) {
        return;
      }
      if !running {
        running := true;
        attempts := 0;
        Ping(0);
      }
    }

    /**
     * `on_response`: a 200 ends probing (the caller marks the endpoint healthy, which
     * `recovered` reports); any other status is a failed attempt.
     */
    method OnResponse(statusCode: int, jitter: nat) returns (recovered: bool)
      requires jitter < Pow2(attempts + 1)
      modifies this
      ensures recovered <==> statusCode == 200
      ensures recovered ==>
                !running && !probeTimerArmed && attempts == old(attempts) &&
                scheduled == old(scheduled) && probes == old(probes)
      ensures !recovered ==>
                running == old(running) && attempts == old(attempts) + 1 && !probeTimerArmed &&
                scheduled == Some(Backoff(attempts, jitter)) && probes == old(probes)
    {
      if statusCode == 200 {
        probeTimerArmed := false;
        running := false;
        recovered := true;
      } else {
        OnProbeError(jitter);
        recovered := false;
      }
    }

    /** The probe's error listener (an error, or the abort after a timeout): one more attempt, then ping again. */
    method OnProbeError(jitter: nat)
      requires jitter < Pow2(attempts + 1)
      modifies this`attempts, this`probeTimerArmed, this`probes, this`scheduled
      ensures attempts == old(attempts) + 1
      ensures !probeTimerArmed && scheduled == Some(Backoff(attempts, jitter)) && probes == old(probes)
    {
      attempts := attempts + 1;
      Ping(jitter);
    }

    /** `on_timeout`: the probe timer fired; drop it and abort the probe, whose error then arrives via `OnProbeError`. */
    method OnTimeout()
      modifies this`probeTimerArmed, this`probes
      ensures !probeTimerArmed && probes == old(probes) + [Aborted]
    {
      probeTimerArmed := false;
      probes := probes + [Aborted];
    }
  }

  /**
   * A dead endpoint that comes back: start probes at once; the probe times out and its
   * abort surfaces as an error, so the next probe waits a backoff; that probe answers 200
   * and probing stops.
   */
  method ProbeUntilRevived(path: string, jitter: nat) returns (probes: seq<ProbeEvent>, recovered: bool, running: bool, delay: Option<nat>)
    requires path != "" && jitter < 2
    ensures probes == [Sent(path), Aborted, Sent(path)] && recovered && !running
    ensures delay == Some(10) || delay == Some(11)
  {
    var p := new Pinger(Some(path), 5000);
    p.Start();
    p.OnTimeout();
    p.OnProbeError(jitter);
    delay := p.scheduled;
    FirstRetryBackoff(jitter);
    p.FireScheduled();
    recovered := p.OnResponse(200, 0);
    running := p.running;
    probes := p.probes;
  }
}

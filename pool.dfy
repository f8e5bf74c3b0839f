/**
 * The pool: a fixed list of equivalent endpoints, parsed from `"ip:port"` entries, and the
 * strategy that picks the endpoint for each attempt. The scan starts after a random index
 * (the parameter `start`), takes the first endpoint that is ready, and otherwise falls back
 * to the healthy endpoint with the fewest pending requests, unless the pool as a whole is
 * too busy (the overloaded sentinel) or nothing is healthy (the unhealthy sentinel).
 */
module Pool {
  import opened Js
  import opened Exchange
  import opened Endpoint
  import RequestSet

  const DEFAULT_MAX_RETRIES: int := 5
  const DEFAULT_RETRY_DELAY: int := 20
  const DEFAULT_MAX_PENDING: int := 1000
  const MAX_PORT: nat := 65536

  /** The pool options the core reads; None stands for `undefined` (for the retry limits: not a number). */
  datatype PoolOptions = PoolOptions(
    retryFilter: Option<Filter>,
    retryFilterCamel: Option<Filter>,
    retryDelay: Option<int>,
    retryDelayCamel: Option<int>,
    ping: Option<string>,
    path: Option<string>,
    maxRetries: Option<int>,
    maxRetriesCamel: Option<int>,
    maxPending: Option<int>,
    maxPendingCamel: Option<int>,
    name: Option<string>,
    timeout: Option<int>,
    pingTimeout: Option<int>,
    keepAlive: bool,
    keepAliveCamel: bool)

  /** `a || b` on optional filters: a function is always truthy. */
  function OrFilter(a: Option<Filter>, b: Option<Filter>): Option<Filter>
  {
    if a.Some? then a else b
  }

  /** `max_retries`: the snake-case number if there is one, else the camel-case one, else 5. */
  function MaxRetries(o: PoolOptions): (r: int)
    ensures o.maxRetries.Some? ==> r == o.maxRetries.value
    ensures o.maxRetries.None? && o.maxRetriesCamel.Some? ==> r == o.maxRetriesCamel.value
    ensures o.maxRetries.None? && o.maxRetriesCamel.None? ==> r == DEFAULT_MAX_RETRIES
  {
    if o.maxRetries.Some? then o.maxRetries.value
    else if o.maxRetriesCamel.Some? then o.maxRetriesCamel.value
    else DEFAULT_MAX_RETRIES
  }

  /** `max_pending || maxPending || 1000` */
  function MaxPending(o: PoolOptions): (r: int)
    ensures NumTruthy(o.maxPending) ==> r == o.maxPending.value
    ensures !NumTruthy(o.maxPending) && NumTruthy(o.maxPendingCamel) ==> r == o.maxPendingCamel.value
    ensures !NumTruthy(o.maxPending) && !NumTruthy(o.maxPendingCamel) ==> r == DEFAULT_MAX_PENDING
  {
    NumOr(OrNum(o.maxPending, o.maxPendingCamel), DEFAULT_MAX_PENDING)
  }

  /**
   * The pool's `retry_delay` as written: `retry_delay || retryDelay` first, which turns an
   * explicit 0 into `undefined` unless `retryDelay` is 0 too, then 20 for anything falsy
   * but 0.
   */
  function PoolRetryDelayAsWritten(o: PoolOptions): (d: int)
    ensures NumTruthy(o.retryDelay) ==> d == o.retryDelay.value
    ensures !NumTruthy(o.retryDelay) && NumTruthy(o.retryDelayCamel) ==> d == o.retryDelayCamel.value
    ensures !NumTruthy(o.retryDelay) && !NumTruthy(o.retryDelayCamel) ==>
              d == (if o.retryDelayCamel == Some(0) then 0 else DEFAULT_RETRY_DELAY)
  {
    var d := OrNum(o.retryDelay, o.retryDelayCamel);
    if !NumTruthy(d) && d != Some(0) then DEFAULT_RETRY_DELAY else d.value
  }

  /** The explicit `retry_delay: 0` the constructor's own comment says it keeps is lost. */
  lemma PoolRetryDelayDropsZero()
    ensures PoolRetryDelayAsWritten(NoPoolOptions().(retryDelay := Some(0))) == DEFAULT_RETRY_DELAY
  {
  }

  /**
   * The pool's `retry_delay` as intended: the first of `retry_delay` and `retryDelay` that
   * is given, 0 included; 20 when neither is.
   */
  function PoolRetryDelay(o: PoolOptions): (d: int)
    ensures o.retryDelay.Some? ==> d == o.retryDelay.value
    ensures o.retryDelay.None? && o.retryDelayCamel.Some? ==> d == o.retryDelayCamel.value
    ensures o.retryDelay.None? && o.retryDelayCamel.None? ==> d == DEFAULT_RETRY_DELAY
    ensures NumTruthy(o.retryDelay) || (o.retryDelay.None? && NumTruthy(o.retryDelayCamel)) ==> d == PoolRetryDelayAsWritten(o)
  {
    if o.retryDelay.Some? then o.retryDelay.value
    else if o.retryDelayCamel.Some? then o.retryDelayCamel.value
    else DEFAULT_RETRY_DELAY
  }

  /** The options an endpoint of this pool is built with; the ping path is `ping || path`. */
  function EndpointOptionsOf(o: PoolOptions): (e: EndpointOptions)
    ensures e.ping == OrStr(o.ping, o.path) && e.timeout == o.timeout && e.pingTimeout == o.pingTimeout
    ensures e.keepAlive == o.keepAlive && e.keepAliveCamel == o.keepAliveCamel
  {
    EndpointOptions(o.timeout, OrStr(o.ping, o.path), o.pingTimeout, o.keepAlive, o.keepAliveCamel)
  }

  /** `{}` */
  function NoPoolOptions(): PoolOptions
  {
    PoolOptions(None, None, None, None, None, None, None, None, None, None, None, None, None, false, false)
  }

  /** One endpoint entry the constructor keeps: its raw text, its host and its port. */
  datatype Entry = Entry(raw: string, ip: string, port: nat)

  /** `+s.split(":")[1]` within 0 < port < 65536, None when the entry is dropped. */
  function ParsePort(s: string): (p: Option<nat>)
    ensures p.Some? ==> 0 < p.value < MAX_PORT
  {
    match Field1(s)
    case None => None
    case Some(t) =>
      match ToNumber(t)
      case None => None
      case Some(n) => if 0 < n < MAX_PORT then Some(n) else None
  }

  /** The entries the constructor keeps, in input order, each with the host before its first colon. */
  function Kept(entries: seq<string>): (k: seq<Entry>)
    ensures |k| <= |entries|
    ensures forall j :: 0 <= j < |k| ==> 0 < k[j].port < MAX_PORT && ':' !in k[j].ip
  {
    if entries == [] then []
    else
      var s := entries[|entries| - 1];
      var front := Kept(entries[..|entries| - 1]);
      match ParsePort(s)
      case None => front
      case Some(p) => front + [Entry(s, Field0(s), p)]
  }

  /** Some entry in k has the raw text s. */
  predicate Listed(k: seq<Entry>, s: string)
  {
    exists j :: 0 <= j < |k| && k[j].raw == s
  }

  lemma ListedAppend(k: seq<Entry>, x: Entry, s: string)
    ensures Listed(k + [x], s) <==> Listed(k, s) || x.raw == s
  {
    if Listed(k + [x], s) {
      var j :| 0 <= j < |k + [x]| && (k + [x])[j].raw == s;
      if j < |k| {
        assert k[j].raw == s;
      }
    }
    if Listed(k, s) {
      var j :| 0 <= j < |k| && k[j].raw == s;
      assert (k + [x])[j].raw == s;
    }
    assert (k + [x])[|k|] == x;
  }

  /** An entry is kept exactly when its port parses into range. */
  lemma {:induction false} KeptExactly(entries: seq<string>, s: string)
    ensures Listed(Kept(entries), s) <==> s in entries && ParsePort(s).Some?
  {
    if entries != [] {
      var last := entries[|entries| - 1];
      var front := entries[..|entries| - 1];
      KeptExactly(front, s);
      assert entries == front + [last];
      assert s in entries <==> s in front || s == last;
      if ParsePort(last).Some? {
        ListedAppend(Kept(front), Entry(last, Field0(last), ParsePort(last).value), s);
      }
    }
  }

  /** A well-formed entry `ip:port`, with a colon-free host and a port in range, is kept with that host and port. */
  lemma ParseOfJoin(ip: string, port: nat)
    requires ':' !in ip && 0 < port < MAX_PORT
    ensures ParsePort(ip + ":" + DecimalText(port)) == Some(port)
    ensures Field0(ip + ":" + DecimalText(port)) == ip
  {
    DecimalTextHasNoColon(port);
    SplitOfJoin(ip, DecimalText(port));
    Field0OfColonFree(DecimalText(port));
    DecimalRoundTrip(port);
  }

  /** The entries `hosts[j] + ":" + ports[j]`. */
  function Joined(hosts: seq<string>, ports: seq<nat>): (e: seq<string>)
    requires |hosts| == |ports|
    ensures |e| == |hosts|
  {
    if hosts == [] then []
    else Joined(hosts[..|hosts| - 1], ports[..|ports| - 1]) + [hosts[|hosts| - 1] + ":" + DecimalText(ports[|ports| - 1])]
  }

  /**
   * Entries that are all well formed (a colon-free host, a port in range) are all kept, in
   * order, with their hosts and ports: the pool's length is the number of entries.
   */
  lemma {:induction false} KeptWellFormed(hosts: seq<string>, ports: seq<nat>)
    requires |hosts| == |ports|
    requires forall j :: 0 <= j < |hosts| ==> ':' !in hosts[j] && 0 < ports[j] < MAX_PORT
    ensures |Kept(Joined(hosts, ports))| == |hosts|
    ensures forall j :: 0 <= j < |hosts| ==>
              Kept(Joined(hosts, ports))[j] == Entry(hosts[j] + ":" + DecimalText(ports[j]), hosts[j], ports[j])
  {
    var n := |hosts|;
    if n > 0 {
      var e := Joined(hosts, ports);
      assert e[..n - 1] == Joined(hosts[..n - 1], ports[..n - 1]);
      assert e[n - 1] == hosts[n - 1] + ":" + DecimalText(ports[n - 1]);
      KeptWellFormed(hosts[..n - 1], ports[..n - 1]);
      ParseOfJoin(hosts[n - 1], ports[n - 1]);
    }
  }

  /** `"foo_bar"` has no port and is dropped. */
  lemma DroppedExample()
    ensures Kept(["foo_bar"]) == []
  {
    assert AfterFirstColon("foo_bar") == None by {
      assert "foo_bar"[1..] == "oo_bar" && "oo_bar"[1..] == "o_bar" && "o_bar"[1..] == "_bar";
      assert "_bar"[1..] == "bar" && "bar"[1..] == "ar" && "ar"[1..] == "r" && "r"[1..] == "";
    }
    assert ["foo_bar"][..0] == [];
  }

  /** The name under which each kept entry is filed: its raw text, the last one winning. */
  function LastIndex(kept: seq<Entry>): (m: map<string, nat>)
    ensures forall k | k in m :: m[k] < |kept| && kept[m[k]].raw == k
    ensures forall j :: 0 <= j < |kept| ==> kept[j].raw in m && j <= m[kept[j].raw]
  {
    if kept == [] then map[]
    else LastIndex(kept[..|kept| - 1])[kept[|kept| - 1].raw := |kept| - 1]
  }

  // ---- Endpoint selection, as a function of what the scan reads of each endpoint ----

  /** What `get_endpoint` reads of an endpoint. */
  datatype View = View(ready: bool, healthy: bool, pending: int)

  /** `(pos + 1) % n` for a position in range. */
  function Next(pos: nat, n: nat): (p: nat)
    requires pos < n
    ensures p < n
  {
    if pos + 1 == n then 0 else pos + 1
  }

  lemma NextIsMod(pos: nat, n: nat)
    requires pos < n
    ensures (pos + 1) % n == Next(pos, n)
  {
  }

  /** The position the scan visits at step k (0-based): the k+1-th after start, wrapping around. */
  function Pos(start: nat, n: nat, k: nat): (p: nat)
    requires start < n && k < n
    ensures p < n
  {
    if start + 1 + k < n then start + 1 + k else start + 1 + k - n
  }

  /** The scan visits `Next(start)` first, and each later step advances the position with Next. */
  lemma PosSteps(start: nat, n: nat, k: nat)
    requires start < n && k + 1 < n
    ensures Pos(start, n, 0) == Next(start, n)
    ensures Pos(start, n, k + 1) == Next(Pos(start, n, k), n)
  {
  }

  /** The step at which the scan visits position i. */
  function Rank(start: nat, n: nat, i: nat): (k: nat)
    requires start < n && i < n
    ensures k < n && Pos(start, n, k) == i
  {
    if i >= start + 1 then i - start - 1 else i + n - start - 1
  }

  /** How the scan ends: at a ready endpoint, or after every step with the best fallback step and the pending total. */
  datatype ScanEnd = Hit(pos: nat) | Finished(best: Option<nat>, total: int)

  /** A fallback step beats another when its endpoint is healthy with strictly fewer pending requests (or there is none yet). */
  predicate Better(vs: seq<View>, start: nat, k: nat, best: Option<nat>)
    requires start < |vs| && k < |vs| && (best.Some? ==> best.value < |vs|)
  {
    var v := vs[Pos(start, |vs|, k)];
    v.healthy && (best.None? || v.pending < vs[Pos(start, |vs|, best.value)].pending)
  }

  /** The scan from step k on, with the best fallback so far and the pending total so far. */
  function ScanFrom(vs: seq<View>, start: nat, k: nat, best: Option<nat>, total: int): (r: ScanEnd)
    requires start < |vs| && k <= |vs|
    requires best.Some? ==> best.value < k && vs[Pos(start, |vs|, best.value)].healthy
    ensures r.Hit? ==> r.pos < |vs| && vs[r.pos].ready
    ensures r.Finished? && r.best.Some? ==> r.best.value < |vs| && vs[Pos(start, |vs|, r.best.value)].healthy
    decreases |vs| - k
  {
    if k == |vs| then Finished(best, total)
    else
      var p := Pos(start, |vs|, k);
      if vs[p].ready then Hit(p)
      else ScanFrom(vs, start, k + 1, if Better(vs, start, k, best) then Some(k) else best, total + vs[p].pending)
  }

  /** One step of the scan past an endpoint that is not ready. */
  lemma ScanStep(vs: seq<View>, start: nat, k: nat, best: Option<nat>, total: int, best': Option<nat>, total': int)
    requires start < |vs| && k < |vs|
    requires best.Some? ==> best.value < k && vs[Pos(start, |vs|, best.value)].healthy
    requires !vs[Pos(start, |vs|, k)].ready
    requires best' == (if Better(vs, start, k, best) then Some(k) else best)
    requires total' == total + vs[Pos(start, |vs|, k)].pending
    ensures ScanFrom(vs, start, k, best, total) == ScanFrom(vs, start, k + 1, best', total')
  {
  }

  /** What the scan picks: the index of an endpoint, or one of the two sentinels. */
  datatype Choice = Chosen(index: nat) | Full | NoneHealthy

  function Select(vs: seq<View>, start: nat, maxPending: int): (c: Choice)
    requires start < |vs|
    ensures c.Chosen? ==> c.index < |vs|
    ensures c.Chosen? && (forall i :: 0 <= i < |vs| && vs[i].ready ==> vs[i].healthy) ==> vs[c.index].healthy
  {
    match ScanFrom(vs, start, 0, None, 0)
    case Hit(p) => Chosen(p)
    case Finished(best, total) =>
      if total >= maxPending then Full
      else if best.Some? then Chosen(Pos(start, |vs|, best.value))
      else NoneHealthy
  }

  /** The pending requests of all endpoints, in list order (`pending()`). */
  function PendingSum(vs: seq<View>): int
  {
    if vs == [] then 0 else PendingSum(vs[..|vs| - 1]) + vs[|vs| - 1].pending
  }

  /** The pending requests of the endpoints visited in the first k steps. */
  function ScanSum(vs: seq<View>, start: nat, k: nat): int
    requires start < |vs| && k <= |vs|
  {
    if k == 0 then 0 else ScanSum(vs, start, k - 1) + vs[Pos(start, |vs|, k - 1)].pending
  }

  lemma {:induction false} PendingSumAppend(a: seq<View>, b: seq<View>)
    ensures PendingSum(a + b) == PendingSum(a) + PendingSum(b)
    decreases |b|
  {
    if b == [] {
      assert a + b == a;
    } else {
      var b0 := b[..|b| - 1];
      assert (a + b)[..|a + b| - 1] == a + b0;
      PendingSumAppend(a, b0);
    }
  }

  /** The steps before the wrap-around visit `vs[start+1..]` in order; the rest visit the front. */
  lemma {:induction false} ScanSumSplit(vs: seq<View>, start: nat, k: nat)
    requires start < |vs| && k <= |vs|
    ensures k <= |vs| - start - 1 ==> ScanSum(vs, start, k) == PendingSum(vs[start + 1..start + 1 + k])
    ensures k > |vs| - start - 1 ==>
              ScanSum(vs, start, k) == PendingSum(vs[start + 1..]) + PendingSum(vs[..k - (|vs| - start - 1)])
  {
    var n := |vs|;
    if k > 0 {
      ScanSumSplit(vs, start, k - 1);
      if k <= n - start - 1 {
        var t := vs[start + 1..start + 1 + k];
        assert t[..k - 1] == vs[start + 1..start + k];
        assert t[k - 1] == vs[Pos(start, n, k - 1)];
      } else if k - 1 == n - start - 1 {
        assert vs[start + 1..start + 1 + (k - 1)] == vs[start + 1..];
        assert vs[..1] == [vs[0]] && vs[..1][..0] == [];
      } else {
        assert vs[..k - (n - start - 1)][..k - 1 - (n - start - 1)] == vs[..k - 1 - (n - start - 1)];
      }
    }
  }

  /** A full scan sums the pending requests of every endpoint once: the total is `pending()`. */
  lemma ScanSumIsPending(vs: seq<View>, start: nat)
    requires start < |vs|
    ensures ScanSum(vs, start, |vs|) == PendingSum(vs)
  {
    ScanSumSplit(vs, start, |vs|);
    var n := |vs|;
    if start + 1 == n {
      assert vs[start + 1..] == [] && vs[..n] == vs;
      PendingSumAppend([], vs);
    } else {
      assert vs[..start + 1] + vs[start + 1..] == vs;
      PendingSumAppend(vs[..start + 1], vs[start + 1..]);
    }
  }

  /** The scan reaches step k with the accumulators as they stand when none of the earlier endpoints is ready. */
  predicate BestSoFar(vs: seq<View>, start: nat, k: nat, best: Option<nat>)
    requires start < |vs| && k <= |vs|
  {
    (best.None? <==> forall j :: 0 <= j < k ==> !vs[Pos(start, |vs|, j)].healthy) &&
    (best.Some? ==>
       best.value < k && vs[Pos(start, |vs|, best.value)].healthy &&
       (forall j :: 0 <= j < k && vs[Pos(start, |vs|, j)].healthy ==>
          vs[Pos(start, |vs|, best.value)].pending <= vs[Pos(start, |vs|, j)].pending) &&
       (forall j :: 0 <= j < best.value && vs[Pos(start, |vs|, j)].healthy ==>
          vs[Pos(start, |vs|, best.value)].pending < vs[Pos(start, |vs|, j)].pending))
  }

  /** The first ready endpoint in scan order ends the scan. */
  lemma {:induction false} ScanHits(vs: seq<View>, start: nat, k0: nat, best: Option<nat>, total: int, k: nat)
    requires start < |vs| && k0 <= k < |vs|
    requires best.Some? ==> best.value < k0 && vs[Pos(start, |vs|, best.value)].healthy
    requires vs[Pos(start, |vs|, k)].ready
    requires forall j :: k0 <= j < k ==> !vs[Pos(start, |vs|, j)].ready
    ensures ScanFrom(vs, start, k0, best, total) == Hit(Pos(start, |vs|, k))
    decreases k - k0
  {
    if k0 < k {
      ScanHits(vs, start, k0 + 1, if Better(vs, start, k0, best) then Some(k0) else best,
               total + vs[Pos(start, |vs|, k0)].pending, k);
    }
  }

  /** With no ready endpoint from step k0 on, the scan finishes with the least-pending healthy endpoint first in scan order. */
  lemma {:induction false} ScanFinishes(vs: seq<View>, start: nat, k0: nat, best: Option<nat>, total: int)
    requires start < |vs| && k0 <= |vs|
    requires BestSoFar(vs, start, k0, best)
    requires forall j :: k0 <= j < |vs| ==> !vs[Pos(start, |vs|, j)].ready
    ensures var r := ScanFrom(vs, start, k0, best, total);
            r.Finished? && BestSoFar(vs, start, |vs|, r.best)
    decreases |vs| - k0
  {
    if k0 < |vs| {
      var v := vs[Pos(start, |vs|, k0)];
      var best' := if Better(vs, start, k0, best) then Some(k0) else best;
      assert !v.ready;
      BestSoFarStep(vs, start, k0, best);
      ScanStep(vs, start, k0, best, total, best', total + v.pending);
      ScanFinishes(vs, start, k0 + 1, best', total + v.pending);
    }
  }

  /** With no ready endpoint from step k0 on, the scan adds the pending requests of every remaining step to the total. */
  lemma {:induction false} ScanTotal(vs: seq<View>, start: nat, k0: nat, best: Option<nat>, total: int)
    requires start < |vs| && k0 <= |vs|
    requires best.Some? ==> best.value < k0 && vs[Pos(start, |vs|, best.value)].healthy
    requires forall j :: k0 <= j < |vs| ==> !vs[Pos(start, |vs|, j)].ready
    ensures var r := ScanFrom(vs, start, k0, best, total);
            r.Finished? && r.total == total + ScanSum(vs, start, |vs|) - ScanSum(vs, start, k0)
    decreases |vs| - k0
  {
    if k0 < |vs| {
      var v := vs[Pos(start, |vs|, k0)];
      var best' := if Better(vs, start, k0, best) then Some(k0) else best;
      assert !v.ready;
      ScanStep(vs, start, k0, best, total, best', total + v.pending);
      ScanTotal(vs, start, k0 + 1, best', total + v.pending);
      assert ScanSum(vs, start, k0 + 1) == ScanSum(vs, start, k0) + v.pending;
    }
  }

  /** One more step keeps the fallback the least-pending healthy endpoint, first in scan order among equals. */
  lemma BestSoFarStep(vs: seq<View>, start: nat, k: nat, best: Option<nat>)
    requires start < |vs| && k < |vs|
    requires BestSoFar(vs, start, k, best)
    ensures BestSoFar(vs, start, k + 1, if Better(vs, start, k, best) then Some(k) else best)
  {
    var n := |vs|;
    if Better(vs, start, k, best) {
      assert forall j :: 0 <= j < k && vs[Pos(start, n, j)].healthy ==>
               vs[Pos(start, n, k)].pending < vs[Pos(start, n, j)].pending;
    } else if best.None? {
      assert !vs[Pos(start, n, k)].healthy;
    }
  }

  /** If an endpoint is ready, the scan returns the first ready one in scan order. */
  lemma FirstReadyChosen(vs: seq<View>, start: nat, maxPending: int, k: nat)
    requires start < |vs| && k < |vs|
    requires vs[Pos(start, |vs|, k)].ready
    requires forall j :: 0 <= j < k ==> !vs[Pos(start, |vs|, j)].ready
    ensures Select(vs, start, maxPending) == Chosen(Pos(start, |vs|, k))
  {
    ScanHits(vs, start, 0, None, 0, k);
  }

  /**
   * If no endpoint is ready: the pool is full when the pending total reaches `max_pending`;
   * otherwise the pick is the healthy endpoint with the fewest pending requests, the first
   * such in scan order, and the unhealthy sentinel exactly when nothing is healthy.
   */
  lemma NoneReadyChoice(vs: seq<View>, start: nat, maxPending: int)
    requires start < |vs|
    requires forall i :: 0 <= i < |vs| ==> !vs[i].ready
    ensures PendingSum(vs) >= maxPending ==> Select(vs, start, maxPending) == Full
    ensures PendingSum(vs) < maxPending ==>
              (Select(vs, start, maxPending) == NoneHealthy <==> forall i :: 0 <= i < |vs| ==> !vs[i].healthy)
    ensures PendingSum(vs) < maxPending ==> Select(vs, start, maxPending) != Full
    ensures var c := Select(vs, start, maxPending);
            c.Chosen? ==>
              vs[c.index].healthy &&
              (forall i :: 0 <= i < |vs| && vs[i].healthy ==> vs[c.index].pending <= vs[i].pending) &&
              (forall i :: 0 <= i < |vs| && vs[i].healthy && vs[i].pending == vs[c.index].pending ==>
                 Rank(start, |vs|, c.index) <= Rank(start, |vs|, i))
  {
    var n := |vs|;
    ScanFinishes(vs, start, 0, None, 0);
    ScanTotal(vs, start, 0, None, 0);
    ScanSumIsPending(vs, start);
    var r := ScanFrom(vs, start, 0, None, 0);
    var c := Select(vs, start, maxPending);
    if r.best.None? {
      forall i | 0 <= i < n
        ensures !vs[i].healthy
      {
        var k := Rank(start, n, i);
      }
    }
    if c.Chosen? {
      var b := r.best.value;
      assert c.index == Pos(start, n, b);
      forall i | 0 <= i < n && vs[i].healthy
        ensures vs[c.index].pending <= vs[i].pending
        ensures vs[i].pending == vs[c.index].pending ==> Rank(start, n, c.index) <= Rank(start, n, i)
      {
        var k := Rank(start, n, i);
        var kb := Rank(start, n, c.index);
        assert kb == b;
      }
    }
  }

  // ---- Request options ----

  /** The first argument of `request`: absent or otherwise falsy, a path string, or an options object. */
  datatype OptionsArg = NoOptions | PathArg(text: string) | OptionsObject(options: ReqOptions)

  /** The second argument of `request`: a payload (string, Buffer or Stream), the callback itself, or anything else. */
  datatype DataArg = NoData | DataValue(payload: Payload) | DataCallback

  /** An options object with no field set. */
  predicate Blank(o: ReqOptions)
  {
    o.path.None? && o.httpMethod.None? && o.data.NoPayload? && o.end == Undefined && o.endpoint.None? &&
    o.retryDelay.None? && o.retryDelayCamel.None? && o.retryFilter.None? && o.retryFilterCamel.None? &&
    o.maxAttempts.None? && o.maxHangups.None? && o.maxAborts.None? && o.timeout.None? && o.headers.None? &&
    o.bufferBody == Undefined
  }

  /** `init_req_options`: a falsy argument (the empty string included) gives `{}`, a string s gives `{path: s}`, an object stays. */
  function InitReqOptions(a: OptionsArg): (o: ReqOptions)
    ensures a.NoOptions? || a == PathArg("") ==> Blank(o)
    ensures a.PathArg? && a.text != "" ==> o.path == Some(a.text) && Blank(o.(path := None))
    ensures a.OptionsObject? ==> o == a.options
  {
    match a
    case NoOptions => EmptyOptions()
    case PathArg(s) => if s == "" then EmptyOptions() else PathOptions(s)
    case OptionsObject(o) => o
  }

  /**
   * The request's `retry_delay` as written: `retry_delay || retryDelay`, then the pool's
   * delay for anything falsy but 0, so an explicit 0 is replaced unless `retryDelay` is 0.
   */
  function RequestRetryDelayAsWritten(o: ReqOptions, poolDelay: int): (d: int)
    ensures NumTruthy(o.retryDelay) ==> d == o.retryDelay.value
    ensures !NumTruthy(o.retryDelay) && NumTruthy(o.retryDelayCamel) ==> d == o.retryDelayCamel.value
    ensures !NumTruthy(o.retryDelay) && !NumTruthy(o.retryDelayCamel) ==>
              d == (if o.retryDelayCamel == Some(0) then 0 else poolDelay)
  {
    var d := OrNum(o.retryDelay, o.retryDelayCamel);
    if !NumTruthy(d) && d != Some(0) then poolDelay else d.value
  }

  /** On a pool whose delay is 20, a request asking for `retry_delay: 0` gets 20. */
  lemma RequestRetryDelayDropsZero()
    ensures RequestRetryDelayAsWritten(EmptyOptions().(retryDelay := Some(0)), 20) == 20
  {
  }

  /** The request's `retry_delay` as intended: the first of `retry_delay` and `retryDelay` given, 0 included, else the pool's. */
  function RequestRetryDelay(o: ReqOptions, poolDelay: int): (d: int)
    ensures o.retryDelay.Some? ==> d == o.retryDelay.value
    ensures o.retryDelay.None? && o.retryDelayCamel.Some? ==> d == o.retryDelayCamel.value
    ensures o.retryDelay.None? && o.retryDelayCamel.None? ==> d == poolDelay
    ensures NumTruthy(o.retryDelay) || (o.retryDelay.None? && NumTruthy(o.retryDelayCamel)) ==>
              d == RequestRetryDelayAsWritten(o, poolDelay)
  {
    if o.retryDelay.Some? then o.retryDelay.value
    else if o.retryDelayCamel.Some? then o.retryDelayCamel.value
    else poolDelay
  }

  /**
   * The option handling of `request`: a payload argument is taken only when the options
   * carry none; a missing callback is an error; the method defaults to `GET`; the retry
   * delay and retry filter fall back to the pool's.
   */
  function NormalizeRequest(a: OptionsArg, data: DataArg, callback: bool, poolDelay: int, poolFilter: Option<Filter>)
    : (r: Result<ReqOptions, string>)
    ensures r.Failure? <==> !callback && !data.DataCallback?
    ensures r.Failure? ==> r.error == "a callback is required"
    ensures r.Success? ==>
              var o := InitReqOptions(a);
              var v := r.value;
              v == o.(httpMethod := v.httpMethod, data := v.data, retryDelay := v.retryDelay, retryFilter := v.retryFilter) &&
              v.httpMethod == (if StrTruthy(o.httpMethod) then o.httpMethod else Some("GET")) &&
              v.data == (if PayloadFalsy(o.data) && data.DataValue? then data.payload else o.data) &&
              v.retryDelay == Some(RequestRetryDelay(o, poolDelay)) &&
              v.retryFilter == (if o.retryFilter.Some? then o.retryFilter
                                else if o.retryFilterCamel.Some? then o.retryFilterCamel else poolFilter)
  {
    var o := InitReqOptions(a);
    var o1 := if PayloadFalsy(o.data) && data.DataValue? then o.(data := data.payload) else o;
    if !callback && !data.DataCallback? then Failure("a callback is required")
    else
      Success(o1.(httpMethod := OrStr(o1.httpMethod, Some("GET")),
                  retryDelay := Some(RequestRetryDelay(o1, poolDelay)),
                  retryFilter := OrFilter(OrFilter(o1.retryFilter, o1.retryFilterCamel), poolFilter)))
  }

  /** With a path string and the callback in the data position, the request goes to that path with `GET`. */
  lemma PathAndCallback(s: string, poolDelay: int)
    requires s != ""
    ensures var r := NormalizeRequest(PathArg(s), DataCallback, false, poolDelay, None);
            r.Success? && r.value.path == Some(s) && r.value.httpMethod == Some("GET") && r.value.retryDelay == Some(poolDelay)
  {
  }

  /** `put`/`post`/`del`: the options, normalised once, with the method forced. */
  function WithMethod(a: OptionsArg, m: string): (b: OptionsArg)
    ensures b.OptionsObject? && b.options.httpMethod == Some(m) && b.options.path == InitReqOptions(a).path
  {
    OptionsObject(InitReqOptions(a).(httpMethod := Some(m)))
  }

  /** `del(options, callback)` passes the callback in the data position. */
  function DelArgs(callback: bool): DataArg
  {
    if callback then DataCallback else NoData
  }

  /** `put`, `post` and `del` send their own method whatever the options say, and `del` needs its callback. */
  lemma {:induction false} ForcedMethod(a: OptionsArg, m: string, data: DataArg, callback: bool, poolDelay: int,
                                        poolFilter: Option<Filter>)
    requires m in {"PUT", "POST", "DELETE"}
    ensures var r := NormalizeRequest(WithMethod(a, m), data, callback, poolDelay, poolFilter);
            r.Success? ==> r.value.httpMethod == Some(m) && r.value.path == InitReqOptions(a).path
    ensures NormalizeRequest(WithMethod(a, "DELETE"), DelArgs(callback), false, poolDelay, poolFilter).Success? <==> callback
  {
    var b := WithMethod(a, m);
    assert InitReqOptions(b) == b.options;
    assert StrTruthy(b.options.httpMethod);
  }

  /** `reused`: the response came on a socket that had already served a request. */
  function Reused(res: Option<Response>): (b: bool)
    ensures b <==> res.Some? && res.value.socketRequestCount.Some? && res.value.socketRequestCount.value > 1
  {
    res.Some? && NumTruthy(res.value.socketRequestCount) && res.value.socketRequestCount.value > 1
  }

  /** What the `timing` event reports to the listener about a finished request set. */
  datatype Timing = Timing(success: bool, reused: bool)

  function TimingOf(c: Completion): (t: Timing)
    ensures t.success <==> c.err.None?
    ensures t.reused <==> c.response.Some? && c.response.value.socketRequestCount.Some? &&
                          c.response.value.socketRequestCount.value > 1
  {
    Timing(c.err.None?, Reused(c.response))
  }

  // ---- The pool ----

  /**
   * A request set's options as a later attempt sees them. The attempts share one options
   * object, and the endpoint request of the first attempt wrote `retry_filter || noop` back
   * into it, so from the second attempt on a filter is always set.
   */
  function AfterAttempt(o: ReqOptions): (r: ReqOptions)
    ensures r.retryFilter.Some? && (o.retryFilter.Some? ==> r.retryFilter == o.retryFilter)
    ensures r.(retryFilter := o.retryFilter) == o
  {
    if o.retryFilter.Some? then o else o.(retryFilter := Some(NoRetry))
  }

  /** Every attempt after the second sees the options the second saw. */
  lemma AfterAttemptStable(o: ReqOptions)
    ensures AfterAttempt(AfterAttempt(o)) == AfterAttempt(o)
  {
  }

  /** What `get_endpoint` returns: one of the pool's endpoints, or one of the two sentinels. */
  datatype Pick = At(endpoint: PoolEndpoint) | Overloaded | Unhealthy

  /** The error a sentinel's `request` answers with, its `delay` set to `true`. */
  function SentinelError(p: Pick): (e: Error)
    requires !p.At?
    ensures e.delay == Bool(true)
    ensures p.Overloaded? ==> e.reason == "full"
    ensures p.Unhealthy? ==> e.reason == "unhealthy"
  {
    if p.Overloaded? then Error("full", "too many pending requests", Bool(true))
    else Error("unhealthy", "no healthy endpoints", Bool(true))
  }

  /** A request set never retries a sentinel's answer, whatever attempts and allowances remain. */
  lemma SentinelNotRetried(p: Pick, q: RequestSet.Progress, maxHangups: int, maxAborts: int)
    requires !p.At?
    ensures !RequestSet.Retried(q, Some(SentinelError(p).reason), maxHangups, maxAborts)
  {
  }

  /** How an attempt went out: to an endpoint (the request, and the stream handed back unless retrying), or refused by a sentinel. */
  datatype Sent = Issued(req: PoolEndpointRequest, stream: PoolEndpointRequest?) | Refused(answer: Completion)

  /** What the scan reads of each endpoint, in list order. */
  function ViewsOf(es: seq<PoolEndpoint>): (vs: seq<View>)
    reads es
    ensures |vs| == |es|
    ensures forall j :: 0 <= j < |es| ==> vs[j] == View(es[j].Ready(), es[j].healthy, es[j].pending)
  {
    if es == [] then []
    else ViewsOf(es[..|es| - 1]) + [View(es[|es| - 1].Ready(), es[|es| - 1].healthy, es[|es| - 1].pending)]
  }

  /** `pending()`: the pending requests of all endpoints. */
  function PendingOf(es: seq<PoolEndpoint>): (n: int)
    reads es
    ensures n == PendingSum(ViewsOf(es))
  {
    if es == [] then 0
    else
      assert ViewsOf(es)[..|es| - 1] == ViewsOf(es[..|es| - 1]);
      PendingOf(es[..|es| - 1]) + es[|es| - 1].pending
  }

  /** A sum added from the front, the reference for the left-to-right `reduce` totals. */
  function Total(xs: seq<int>): int
  {
    if xs == [] then 0 else xs[0] + Total(xs[1..])
  }

  /** A term added at the back adds to the total. */
  lemma {:induction false} TotalSnoc(xs: seq<int>, x: int)
    ensures Total(xs + [x]) == Total(xs) + x
  {
    if xs != [] {
      assert (xs + [x])[1..] == xs[1..] + [x];
      TotalSnoc(xs[1..], x);
    }
  }

  /** The endpoints' request rates, in list order. */
  function Rates(es: seq<PoolEndpoint>): (r: seq<int>)
    reads es
    ensures |r| == |es| && forall j :: 0 <= j < |es| ==> r[j] == es[j].requestRate
  {
    if es == [] then [] else Rates(es[..|es| - 1]) + [es[|es| - 1].requestRate]
  }

  /** The endpoints' request counts, in list order. */
  function RequestCounts(es: seq<PoolEndpoint>): (r: seq<int>)
    reads es
    ensures |r| == |es| && forall j :: 0 <= j < |es| ==> r[j] == es[j].requestCount
  {
    if es == [] then [] else RequestCounts(es[..|es| - 1]) + [es[|es| - 1].requestCount]
  }

  /** `rate()`: the request rates of all endpoints, each counted once. */
  function RateOf(es: seq<PoolEndpoint>): (n: int)
    reads es
    ensures n == Total(Rates(es))
  {
    if es == [] then 0
    else
      TotalSnoc(Rates(es[..|es| - 1]), es[|es| - 1].requestRate);
      RateOf(es[..|es| - 1]) + es[|es| - 1].requestRate
  }

  /** `request_count()`: the request counts of all endpoints, each counted once. */
  function RequestCountOf(es: seq<PoolEndpoint>): (n: int)
    reads es
    ensures n == Total(RequestCounts(es))
  {
    if es == [] then 0
    else
      TotalSnoc(RequestCounts(es[..|es| - 1]), es[|es| - 1].requestCount);
      RequestCountOf(es[..|es| - 1]) + es[|es| - 1].requestCount
  }

  /** Endpoints with nothing counted yet sum to 0 in all three totals. */
  lemma {:induction false} IdleSums(es: seq<PoolEndpoint>)
    requires forall j :: 0 <= j < |es| ==> es[j].pending == 0 && es[j].requestRate == 0 && es[j].requestCount == 0
    ensures PendingOf(es) == 0 && RateOf(es) == 0 && RequestCountOf(es) == 0
  {
    if es != [] {
      IdleSums(es[..|es| - 1]);
    }
  }

  /** `healthy_endpoints()`, as a function: the healthy ones in list order. */
  function HealthyOf(es: seq<PoolEndpoint>): (h: seq<PoolEndpoint>)
    reads es
    ensures |h| <= |es|
    ensures forall j :: 0 <= j < |h| ==> h[j].healthy && h[j] in es
    ensures forall j :: 0 <= j < |es| && es[j].healthy ==> es[j] in h
  {
    if es == [] then []
    else
      var front := HealthyOf(es[..|es| - 1]);
      var e := es[|es| - 1];
      assert forall j :: 0 <= j < |es| - 1 ==> es[j] == es[..|es| - 1][j];
      if e.healthy then front + [e] else front
  }

  /** Whether a successful choice picked the endpoint e. */
  predicate Picks(r: Result<Pick, string>, e: PoolEndpoint)
  {
    r.Success? && r.value.At? && r.value.endpoint == e
  }

  class Pool {
    const endpoints: seq<PoolEndpoint>
    /** `endpoints_by_name`: each kept entry's raw text, the last one winning. */
    const byName: map<string, PoolEndpoint>
    const length: nat
    const name: Option<string>
    const maxPending: int
    const maxRetries: int
    const retryDelay: int
    const retryFilter: Option<Filter>

    /** The list is not empty, every filed endpoint is on it, and each endpoint keeps its own invariant. */
    ghost predicate Valid()
      reads endpoints
    {
      length == |endpoints| > 0 && (forall k | k in byName :: byName[k] in endpoints) &&
      forall j :: 0 <= j < |endpoints| ==> endpoints[j].Valid()
    }

    constructor (endpoints: seq<PoolEndpoint>, byName: map<string, PoolEndpoint>, options: PoolOptions)
      requires |endpoints| > 0 && AllValid(endpoints) && forall k | k in byName :: byName[k] in endpoints
      ensures Valid()
      ensures this.endpoints == endpoints && this.byName == byName && length == |endpoints| && name == options.name
      ensures maxPending == MaxPending(options) && maxRetries == MaxRetries(options) && retryDelay == PoolRetryDelay(options)
      ensures retryFilter == OrFilter(options.retryFilter, options.retryFilterCamel)
    {
      this.endpoints := endpoints;
      this.byName := byName;
      length := |endpoints|;
      name := options.name;
      maxPending := MaxPending(options);
      maxRetries := MaxRetries(options);
      retryDelay := PoolRetryDelay(options);
      retryFilter := OrFilter(options.retryFilter, options.retryFilterCamel);
    }

    /** The endpoint a scan choice stands for. */
    function PickOf(c: Choice): Pick
      requires c.Chosen? ==> c.index < |endpoints|
    {
      match c
      case Chosen(i) => At(endpoints[i])
      case Full => Overloaded
      case NoneHealthy => Unhealthy
    }

    /**
     * What `get_endpoint` picks: a pinned endpoint that is not filed is an error, a filed one
     * is taken whatever its health unless it has `max_pending` requests pending; otherwise
     * the scan decides.
     */
    ghost function Choose(options: ReqOptions, start: nat): Result<Pick, string>
      requires start < |endpoints|
      reads endpoints, set k | k in byName :: byName[k]
    {
      if StrTruthy(options.endpoint) then
        if options.endpoint.value !in byName then Failure("no endpoint found matching " + options.endpoint.value)
        else if byName[options.endpoint.value].pending >= maxPending then Success(Overloaded)
        else Success(At(byName[options.endpoint.value]))
      else Success(PickOf(Select(ViewsOf(endpoints), start, maxPending)))
    }

    /** `get_endpoint(options)` with the random starting index `start` (`Math.floor(random * length)`). */
    method GetEndpoint(options: ReqOptions, start: nat) returns (r: Result<Pick, string>)
      requires Valid() && start < |endpoints|
      ensures r == Choose(options, start)
      ensures r.Success? && r.value.At? ==> r.value.endpoint in endpoints
    {
      if StrTruthy(options.endpoint) {
        if options.endpoint.value !in byName {
          return Failure("no endpoint found matching " + options.endpoint.value);
        }
        var e := byName[options.endpoint.value];
        if e.pending >= maxPending {
          return Success(Overloaded);
        }
        return Success(At(e));
      }
      var pick := Scan(start);
      return Success(pick);
    }

    /** The scan of `get_endpoint`: from the endpoint after `start`, once round the list. */
    method Scan(start: nat) returns (pick: Pick)
      requires start < |endpoints|
      ensures pick == PickOf(Select(ViewsOf(endpoints), start, maxPending))
    {
      var n := |endpoints|;
      ghost var vs := ViewsOf(endpoints);
      var pos := start;
      var minLevel := 0;
      var minEndpoint: PoolEndpoint? := null;
      ghost var best: Option<nat> := None;
      var total := 0;
      for i := 0 to n
        invariant pos == if i == 0 then start else Pos(start, n, i - 1)
        invariant best.Some? ==> best.value < i && vs[Pos(start, n, best.value)].healthy
        invariant best.None? <==> minEndpoint == null
        invariant best.Some? ==>
                    minEndpoint == endpoints[Pos(start, n, best.value)] &&
                    minLevel == vs[Pos(start, n, best.value)].pending
        invariant ScanFrom(vs, start, 0, None, 0) == ScanFrom(vs, start, i, best, total)
      {
        NextIsMod(pos, n);
        pos := (pos + 1) % n;
        assert pos == Pos(start, n, i);
        var e := endpoints[pos];
        assert vs[pos] == View(e.Ready(), e.healthy, e.pending);
        if e.Ready() {
          assert ScanFrom(vs, start, i, best, total) == Hit(pos);
          return At(e);
        }
        ghost var prevBest, prevTotal := best, total;
        if e.healthy && (minEndpoint == null || e.pending < minLevel) {
          assert Better(vs, start, i, best);
          minLevel := e.pending;
          minEndpoint := e;
          best := Some(i);
        } else {
          assert !Better(vs, start, i, best);
        }
        total := total + e.pending;
        ScanStep(vs, start, i, prevBest, prevTotal, best, total);
      }
      assert ScanFrom(vs, start, 0, None, 0) == Finished(best, total);
      if total >= maxPending {
        return Overloaded;
      }
      if minEndpoint != null {
        return At(minEndpoint);
      }
      return Unhealthy;
    }

    /** `healthy_endpoints()` */
    method HealthyEndpoints() returns (healthy: seq<PoolEndpoint>)
      ensures healthy == HealthyOf(endpoints)
    {
      healthy := [];
      for i := 0 to |endpoints|
        invariant healthy == HealthyOf(endpoints[..i])
      {
        PrefixStep(endpoints, i);
        if endpoints[i].healthy {
          healthy := healthy + [endpoints[i]];
        }
      }
      assert endpoints[..|endpoints|] == endpoints;
    }

    function Pending(): (n: int)
      reads endpoints
      ensures n == PendingSum(ViewsOf(endpoints))
    {
      PendingOf(endpoints)
    }

    function Rate(): (n: int)
      reads endpoints
      ensures n == Total(Rates(endpoints))
    {
      RateOf(endpoints)
    }

    function RequestCount(): (n: int)
      reads endpoints
      ensures n == Total(RequestCounts(endpoints))
    {
      RequestCountOf(endpoints)
    }

    /**
     * `do_request` for an attempt after the first: count the attempt, then pick an endpoint
     * and hand it the set's options, which the first attempt gave a retry filter.
     */
    method Attempt(requestSet: RequestSet.PoolRequestSet, start: nat, now: int) returns (r: Result<Sent, string>)
      requires Valid() && start < |endpoints|
      modifies requestSet`attemptsSent, endpoints
      ensures Valid()
      ensures requestSet.attemptsSent == old(requestSet.attemptsSent) + 1
      ensures Attempted(old(Choose(requestSet.options, start)), AfterAttempt(requestSet.options), r)
    {
      var later := AfterAttempt(requestSet.options);
      assert Choose(later, start) == Choose(requestSet.options, start);
      requestSet.DoRequest();
      r := Send(later, start, now);
    }

    /**
     * The pick and hand-over of `do_request`: pick an endpoint with `start` as the random
     * index and hand it the options; a sentinel answers with its error; an unknown pinned
     * endpoint is an error.
     */
    method Send(options: ReqOptions, start: nat, now: int) returns (r: Result<Sent, string>)
      requires Valid() && start < |endpoints|
      modifies endpoints
      ensures Valid()
      ensures Attempted(old(Choose(options, start)), options, r)
    {
      var pick := GetEndpoint(options, start);
      if pick.Failure? {
        return Failure(pick.error);
      }
      var sent := Dispatch(pick.value, options, now);
      r := Success(sent);
    }

    /**
     * What `do_request` did with the pick `choice`: an error for an unknown pinned endpoint,
     * otherwise the options handed to the pick; no endpoint but the pick changes.
     */
    twostate predicate Attempted(choice: Result<Pick, string>, options: ReqOptions, new r: Result<Sent, string>)
      reads endpoints, if choice.Success? && choice.value.At? then {choice.value.endpoint} else {}
    {
      (choice.Failure? ==> r == Failure(choice.error)) &&
      (choice.Success? ==> r.Success? && Dispatched(choice.value, options, r.value)) &&
      forall j :: 0 <= j < |endpoints| && !Picks(choice, endpoints[j]) ==> unchanged(endpoints[j])
    }

    /**
     * The callback `do_request` gives the endpoint: `handle_response` on the answer, and the
     * `do_request` it runs at once for a retry without delay, with `start` as that pick's
     * random index. A retry with a delay only arms its timer (see `Retry`).
     */
    method Answer(rs: RequestSet.PoolRequestSet, err: Option<Error>, response: Option<Response>, body: Option<Body>,
                  roll: int, start: nat, now: int)
      returns (retry: Option<Result<Sent, string>>)
      requires Valid() && start < |endpoints| && rs.Valid()
      requires err.Some? ==> RequestSet.Rounded(roll, RequestSet.DelayBound(rs.maxAttempts - rs.attemptsRemaining + 1, rs.delay))
      modifies rs`attemptsRemaining, rs`hangups, rs`aborts, rs`callbackLive, rs`delivered, rs`retried, rs`timers,
               rs`attemptsSent, endpoints
      ensures Valid() && rs.Valid()
      ensures rs.Handled(err, response, body, roll, retry.Some?)
      ensures retry.None? ==>
                rs.attemptsSent == old(rs.attemptsSent) && forall j :: 0 <= j < |endpoints| ==> unchanged(endpoints[j])
      ensures retry.Some? ==>
                rs.attemptsSent == old(rs.attemptsSent) + 1 &&
                Attempted(old(Choose(rs.options, start)), AfterAttempt(rs.options), retry.value)
    {
      if rs.RetriesAtOnce(err, roll) {
        var r := AnswerAndRetry(rs, err, response, body, roll, start, now);
        retry := Some(r);
      } else {
        var again := rs.HandleResponse(err, response, body, roll);
        retry := None;
      }
    }

    /**
     * `Answer` when `handle_response` retries at once. The pick and the hand-over touch only
     * the endpoints and the bookkeeping only the set, so the model takes the pick first; the
     * state reached is the one of the code's order.
     */
    method AnswerAndRetry(rs: RequestSet.PoolRequestSet, err: Option<Error>, response: Option<Response>, body: Option<Body>,
                          roll: int, start: nat, now: int)
      returns (r: Result<Sent, string>)
      requires Valid() && start < |endpoints| && rs.Valid() && rs.RetriesAtOnce(err, roll)
      requires err.Some? ==> RequestSet.Rounded(roll, RequestSet.DelayBound(rs.maxAttempts - rs.attemptsRemaining + 1, rs.delay))
      modifies rs`attemptsRemaining, rs`hangups, rs`aborts, rs`callbackLive, rs`delivered, rs`retried, rs`timers,
               rs`attemptsSent, endpoints
      ensures Valid() && rs.Valid()
      ensures rs.Handled(err, response, body, roll, true)
      ensures rs.attemptsSent == old(rs.attemptsSent) + 1 &&
              Attempted(old(Choose(rs.options, start)), AfterAttempt(rs.options), r)
    {
      assert forall j :: 0 <= j < |endpoints| ==> endpoints[j] as object != rs as object;
      var later := AfterAttempt(rs.options);
      assert Choose(later, start) == Choose(rs.options, start);
      r := Send(later, start, now);
      var again := rs.HandleResponse(err, response, body, roll);
      rs.DoRequest();
    }

    /** The earliest retry timer of the set fires and runs `do_request`, with `start` as the pick's random index. */
    method Retry(rs: RequestSet.PoolRequestSet, start: nat, now: int) returns (r: Result<Sent, string>)
      requires Valid() && start < |endpoints| && rs.timers != []
      modifies rs`timers, rs`attemptsSent, endpoints
      ensures Valid()
      ensures rs.timers == old(rs.timers[1..]) && rs.attemptsSent == old(rs.attemptsSent) + 1
      ensures Attempted(old(Choose(rs.options, start)), AfterAttempt(rs.options), r)
    {
      ghost var choice := Choose(rs.options, start);
      rs.FireTimer();
      assert Choose(rs.options, start) == choice;
      r := Attempt(rs, start, now);
    }

    /**
     * What handing the options to the pick does: an endpoint files one new request and
     * counts it, leaving its health, its events and its socket count alone; a sentinel
     * answers with its error.
     */
    twostate predicate Dispatched(pick: Pick, options: ReqOptions, new sent: Sent)
      reads if pick.At? then {pick.endpoint} else {}
    {
      if pick.At? then
        var e := pick.endpoint;
        sent.Issued? && fresh(sent.req) && sent.req.endpoint == e && e.Valid() &&
        sent.req.id == old(e.requestCount) && e.requests == old(e.requests)[sent.req.id := sent.req] &&
        e.Snapshot() == Admit(old(e.Snapshot())) && e.healthy == old(e.healthy) &&
        e.events == old(e.events) && e.agentSockets == old(e.agentSockets) &&
        sent.stream == (if options.retryFilter.Some? then null else sent.req)
      else
        sent == Refused(Completion(Some(SentinelError(pick)), None, None))
    }

    /** A retry handed to an endpoint returns no stream: the shared options carry a filter by then. */
    twostate lemma RetryHasNoStream(pick: Pick, o: ReqOptions, new sent: Sent)
      requires pick.At? && Dispatched(pick, AfterAttempt(o), sent)
      ensures sent.Issued? && sent.stream == null
    {
    }

    /** `endpoint.request(options, ...)` on what `get_endpoint` picked. */
    method Dispatch(pick: Pick, options: ReqOptions, now: int) returns (sent: Sent)
      requires Valid() && (pick.At? ==> pick.endpoint in endpoints)
      modifies if pick.At? then {pick.endpoint} else {}
      ensures Valid() && Dispatched(pick, options, sent)
    {
      if pick.At? {
        var req, stream := pick.endpoint.Request(options, now);
        sent := Issued(req, stream);
      } else {
        sent := Refused(Completion(Some(SentinelError(pick)), None, None));
      }
    }

    /**
     * `request(options, data, callback)`: normalise the options, create the request set,
     * and issue its first attempt.
     */
    method Request(a: OptionsArg, data: DataArg, callback: bool, start: nat, now: int)
      returns (r: Result<(RequestSet.PoolRequestSet, Sent), string>)
      requires Valid() && start < |endpoints|
      modifies endpoints
      ensures Valid()
      ensures var n := NormalizeRequest(a, data, callback, retryDelay, retryFilter);
              match n
              case Failure(msg) => r == Failure(msg) && forall j :: 0 <= j < |endpoints| ==> unchanged(endpoints[j])
              case Success(o) =>
                (r.Failure? <==> old(Choose(o, start)).Failure?) &&
                (r.Failure? ==> r == Failure(old(Choose(o, start)).error)) &&
                (r.Success? ==> var rs := r.value.0;
                   fresh(rs) &&
                   rs.options == o.(retryDelay := Some(RequestSet.SetRetryDelay(o.retryDelay))) &&
                   rs.options.retryDelay == o.retryDelay &&
                   rs.delay == RequestRetryDelay(InitReqOptions(a), retryDelay) &&
                   rs.maxAttempts == RequestSet.MaxAttempts(o, maxRetries, length) && rs.attemptsSent == 1 &&
                   rs.callbackLive && rs.delivered == [] && rs.retried == [] &&
                   Dispatched(old(Choose(o, start)).value, rs.options, r.value.1)) &&
                forall j :: 0 <= j < |endpoints| && !Picks(old(Choose(o, start)), endpoints[j]) ==> unchanged(endpoints[j])
    {
      var n := NormalizeRequest(a, data, callback, retryDelay, retryFilter);
      if n.Failure? {
        return Failure(n.error);
      }
      r := Issue(n.value, start, now);
    }

    /**
     * The request set for normalised options o, and its first attempt. The new set and the
     * endpoints share no state, so the model picks and sends before it builds the set; the
     * state reached is the one of the code's order.
     */
    method Issue(o: ReqOptions, start: nat, now: int) returns (r: Result<(RequestSet.PoolRequestSet, Sent), string>)
      requires Valid() && start < |endpoints|
      modifies endpoints
      ensures Valid()
      ensures r.Failure? <==> old(Choose(o, start)).Failure?
      ensures r.Failure? ==> r == Failure(old(Choose(o, start)).error)
      ensures r.Success? ==>
                var rs := r.value.0;
                fresh(rs) && rs.options == o.(retryDelay := Some(RequestSet.SetRetryDelay(o.retryDelay))) &&
                rs.delay == RequestSet.SetRetryDelay(o.retryDelay) &&
                rs.maxAttempts == RequestSet.MaxAttempts(o, maxRetries, length) && rs.attemptsSent == 1 &&
                rs.callbackLive && rs.delivered == [] && rs.retried == [] &&
                Dispatched(old(Choose(o, start)).value, rs.options, r.value.1)
      ensures forall j :: 0 <= j < |endpoints| && !Picks(old(Choose(o, start)), endpoints[j]) ==> unchanged(endpoints[j])
    {
      var options := o.(retryDelay := Some(RequestSet.SetRetryDelay(o.retryDelay)));
      assert Choose(options, start) == Choose(o, start);
      var sent := Send(options, start, now);
      var rs := new RequestSet.PoolRequestSet(o, maxRetries, length);
      rs.DoRequest();
      if sent.Failure? {
        return Failure(sent.error);
      }
      r := Success((rs, sent.value));
    }
  }

  /** What one entry adds to the kept ones. */
  function KeptOne(s: string): seq<Entry>
  {
    match ParsePort(s)
    case None => []
    case Some(p) => [Entry(s, Field0(s), p)]
  }

  /** The kept entries of one more input entry. */
  lemma KeptStep(entries: seq<string>, i: nat)
    requires i < |entries|
    ensures Kept(entries[..i + 1]) == Kept(entries[..i]) + KeptOne(entries[i])
  {
    var t := entries[..i + 1];
    assert t[..|t| - 1] == entries[..i];
    assert t[|t| - 1] == entries[i];
  }

  /** The endpoint for the kept entry x. */
  predicate BuiltFrom(e: PoolEndpoint, x: Entry)
  {
    e.ip == x.ip && e.port == x.port && e.name == EndpointName(x.ip, x.port)
  }

  /** eps are the endpoints of the kept entries, and byName files each under its last entry's raw text. */
  predicate Built(kept: seq<Entry>, eps: seq<PoolEndpoint>, byName: map<string, PoolEndpoint>)
  {
    |eps| == |kept| &&
    (forall j :: 0 <= j < |kept| ==> BuiltFrom(eps[j], kept[j])) &&
    byName.Keys == LastIndex(kept).Keys &&
    (forall k | k in byName :: byName[k] == eps[LastIndex(kept)[k]])
  }

  /** Every endpoint byName files is one of eps. */
  lemma BuiltFiles(kept: seq<Entry>, eps: seq<PoolEndpoint>, byName: map<string, PoolEndpoint>)
    requires Built(kept, eps, byName)
    ensures forall k | k in byName :: byName[k] in eps
  {
    forall k | k in byName
      ensures byName[k] in eps
    {
      assert byName[k] == eps[LastIndex(kept)[k]];
    }
  }

  /** Every endpoint in eps keeps its invariant. */
  ghost predicate AllValid(eps: seq<PoolEndpoint>)
    reads eps
  {
    forall j :: 0 <= j < |eps| ==> eps[j].Valid()
  }

  lemma AllValidAppend(eps: seq<PoolEndpoint>, e: PoolEndpoint)
    requires AllValid(eps) && e.Valid()
    ensures AllValid(eps + [e])
  {
  }

  /** Every endpoint in eps was allocated since the old state. */
  twostate predicate AllFresh(new eps: seq<PoolEndpoint>)
  {
    forall j :: 0 <= j < |eps| ==> fresh(eps[j])
  }

  twostate lemma AllFreshGrow(new a: seq<PoolEndpoint>, new b: seq<PoolEndpoint>)
    requires AllFresh(a)
    requires b == a || (|b| == |a| + 1 && b[..|a|] == a && fresh(b[|a|]))
    ensures AllFresh(b)
  {
    if b != a {
      assert forall j :: 0 <= j < |a| ==> b[j] == a[j];
    }
  }

  /** The endpoint e was built with the endpoint options eo. */
  predicate Configured(e: PoolEndpoint, eo: EndpointOptions)
  {
    e.keepAlive == (eo.keepAlive || eo.keepAliveCamel) && e.timeout == EndpointTimeout(eo.timeout) &&
    e.pingPath == eo.ping && e.pingTimeout == NumOr(eo.pingTimeout, DEFAULT_PING_TIMEOUT)
  }

  /** Every endpoint in eps was built with eo. */
  predicate AllConfigured(eps: seq<PoolEndpoint>, eo: EndpointOptions)
  {
    forall j :: 0 <= j < |eps| ==> Configured(eps[j], eo)
  }

  lemma AllConfiguredAppend(eps: seq<PoolEndpoint>, e: PoolEndpoint, eo: EndpointOptions)
    requires AllConfigured(eps, eo) && Configured(e, eo)
    ensures AllConfigured(eps + [e], eo)
  {
  }

  /** `new GO.PoolEndpoint(http, ip, port, options)` for a kept entry. */
  method NewEndpoint(x: Entry, options: EndpointOptions) returns (e: PoolEndpoint)
    ensures fresh(e) && BuiltFrom(e, x) && Configured(e, options) && e.Valid()
  {
    e := new PoolEndpoint(x.ip, x.port, options);
  }

  lemma BuiltAppend(kept: seq<Entry>, eps: seq<PoolEndpoint>, byName: map<string, PoolEndpoint>, x: Entry, e: PoolEndpoint)
    requires Built(kept, eps, byName) && BuiltFrom(e, x)
    ensures Built(kept + [x], eps + [e], byName[x.raw := e])
  {
    assert (kept + [x])[..|kept|] == kept;
  }

  /**
   * The constructor's parsing loop: an endpoint for every entry whose port parses into
   * 1..65535, in input order, filed under the entry's raw text; no such entry is the
   * error "no valid endpoints".
   */
  method NewPool(entries: seq<string>, options: PoolOptions) returns (r: Result<Pool, string>)
    ensures r.Failure? <==> Kept(entries) == []
    ensures r.Failure? ==> r.error == "no valid endpoints"
    ensures r.Success? ==>
              var pool := r.value;
              fresh(pool) && pool.Valid() && pool.length == |Kept(entries)| &&
              pool.maxPending == MaxPending(options) && pool.maxRetries == MaxRetries(options) &&
              pool.retryDelay == PoolRetryDelay(options) &&
              pool.retryFilter == OrFilter(options.retryFilter, options.retryFilterCamel) && pool.name == options.name &&
              AllFresh(pool.endpoints) && AllConfigured(pool.endpoints, EndpointOptionsOf(options)) &&
              Built(Kept(entries), pool.endpoints, pool.byName)
  {
    var eps, byName := BuildEndpoints(entries, EndpointOptionsOf(options));
    if eps == [] {
      return Failure("no valid endpoints");
    }
    BuiltFiles(Kept(entries), eps, byName);
    var pool := new Pool(eps, byName, options);
    r := Success(pool);
  }

  /** The loop over the entries: a new endpoint for each kept one, filed under its raw text. */
  method BuildEndpoints(entries: seq<string>, eopts: EndpointOptions)
    returns (eps: seq<PoolEndpoint>, byName: map<string, PoolEndpoint>)
    ensures Built(Kept(entries), eps, byName)
    ensures AllFresh(eps)
    ensures AllValid(eps) && AllConfigured(eps, eopts)
  {
    eps := [];
    byName := map[];
    ghost var kept := [];
    for i := 0 to |entries|
      invariant kept == Kept(entries[..i])
      invariant Built(kept, eps, byName)
      invariant AllFresh(eps)
      invariant AllValid(eps) && AllConfigured(eps, eopts)
    {
      KeptStep(entries, i);
      ghost var before := eps;
      eps, byName := AddEntry(entries[i], eopts, kept, eps, byName);
      AllFreshGrow(before, eps);
      kept := kept + KeptOne(entries[i]);
    }
    assert entries[..|entries|] == entries;
  }

  /** One turn of the loop: an endpoint for the entry s if its port parses. */
  method AddEntry(s: string, eopts: EndpointOptions, ghost kept: seq<Entry>, eps: seq<PoolEndpoint>,
                  byName: map<string, PoolEndpoint>)
    returns (eps': seq<PoolEndpoint>, byName': map<string, PoolEndpoint>)
    requires Built(kept, eps, byName) && AllValid(eps) && AllConfigured(eps, eopts)
    ensures Built(kept + KeptOne(s), eps', byName') && AllValid(eps') && AllConfigured(eps', eopts)
    ensures eps' == eps || (|eps'| == |eps| + 1 && eps'[..|eps|] == eps && fresh(eps'[|eps|]))
  {
    var port := ParsePort(s);
    if port.Some? {
      var x := Entry(s, Field0(s), port.value);
      var e := NewEndpoint(x, eopts);
      BuiltAppend(kept, eps, byName, x, e);
      AllValidAppend(eps, e);
      AllConfiguredAppend(eps, e, eopts);
      eps' := eps + [e];
      byName' := byName[s := e];
    } else {
      assert kept + KeptOne(s) == kept;
      eps', byName' := eps, byName;
    }
  }
}

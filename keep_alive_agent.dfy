/**
 * The keep-alive agent: an HTTP agent that keeps sockets whose exchange finished on a
 * per-name idle queue (name = "host:port[:local_address]"), hands them to later requests
 * for the same name after checking they are still usable, and destroys a socket once it
 * has carried the configured number of requests. The base agent it extends (opening
 * sockets, queueing requests when its own socket limit is reached) is outside the model:
 * what the core hands to it is recorded as a `ToBaseAgent` dispatch, and its queue of
 * waiting requests is the `requests` field.
 */
module KeepAliveAgent {
  import opened Js

  const DEFAULT_MAX_REQS_PER_SOCKET: int := 1000

  /** The port a secure agent announces. */
  const HTTPS_DEFAULT_PORT: nat := 443

  /**
   * A transport socket as the agent sees it. `destroyed` is the plain socket's flag,
   * `sslAlive` stands for `socket.pair && socket.pair.ssl` of a TLS socket (cleared by
   * destroy), and `requestCount` is the reuse counter the agent keeps on the socket,
   * 0 while it was never set (both are falsy in the source).
   */
  class Socket {
    var destroyed: bool
    var sslAlive: bool
    var requestCount: int

    constructor (secure: bool)
      ensures !destroyed && sslAlive == secure && requestCount == 0
    {
      destroyed := false;
      sslAlive := secure;
      requestCount := 0;
    }

    method Destroy()
      modifies this`destroyed, this`sslAlive
      ensures destroyed && !sslAlive
    {
      destroyed := true;
      sslAlive := false;
    }
  }

  /** A request waiting for a socket, by identity. */
  type PendingRequest = nat

  /** Where the agent sent a request: onto a reused idle socket, or to the base agent. */
  datatype Dispatch = OnSocket(request: PendingRequest, socket: Socket) | ToBaseAgent(request: PendingRequest, name: string)

  /** `host + ":" + port`, followed by `":" + local_address` when that is truthy. */
  function BuildNameKey(host: string, port: nat, localAddress: Option<string>): (k: string)
    ensures |k| == |host| + 1 + |DecimalText(port)| + (if StrTruthy(localAddress) then 1 + |localAddress.value| else 0)
    ensures k[..|host| + 1] == host + ":"
    ensures k[|host| + 1..|host| + 1 + |DecimalText(port)|] == DecimalText(port)
    ensures StrTruthy(localAddress) ==> k[|host| + 1 + |DecimalText(port)|..] == ":" + localAddress.value
  {
    host + ":" + DecimalText(port) + (if StrTruthy(localAddress) then ":" + localAddress.value else "")
  }

  /** `socket.request_count ? socket.request_count + 1 : 1` */
  function NextCount(count: int): (c: int)
    ensures count != 0 ==> c == count + 1
    ensures count == 0 ==> c == 1
  {
    if count != 0 then count + 1 else 1
  }

  /** The queue stored under a name, empty when the name has none. */
  function Queue<T>(m: map<string, seq<T>>, name: string): seq<T>
  {
    if name in m then m[name] else []
  }

  /** A name has requests waiting at the base agent. */
  predicate Waiting(requests: map<string, seq<PendingRequest>>, name: string)
  {
    name in requests && |requests[name]| > 0
  }

  /** `q.splice(i, 1)`: q without its element at index i. */
  function Splice<T>(q: seq<T>, i: nat): seq<T>
    requires i < |q|
  {
    q[..i] + q[i + 1..]
  }

  /** The dispatch of a request: onto the socket when there is one, else to the base agent. */
  function DispatchOf(request: PendingRequest, name: string, socket: Socket?): Dispatch
  {
    if socket != null then OnSocket(request, socket) else ToBaseAgent(request, name)
  }

  class Agent {
    /** True for the TLS agent, whose sockets are judged by their secure pair. */
    const secure: bool
    const maxReqsPerSocket: int
    var idleSockets: map<string, seq<Socket>>
    /** The base agent's queue of requests waiting for a socket, per name. */
    var requests: map<string, seq<PendingRequest>>
    ghost var dispatched: seq<Dispatch>

    constructor (secure: bool, maxReqsOption: Option<int>)
      ensures this.secure == secure
      ensures maxReqsPerSocket == NumOr(maxReqsOption, DEFAULT_MAX_REQS_PER_SOCKET)
      ensures idleSockets == map[] && requests == map[] && dispatched == []
    {
      this.secure := secure;
      maxReqsPerSocket := NumOr(maxReqsOption, DEFAULT_MAX_REQS_PER_SOCKET);
      idleSockets := map[];
      requests := map[];
      dispatched := [];
    }

    /** `is_socket_usable`: not destroyed, or for the TLS agent, its secure pair still live. */
    function IsUsable(s: Socket): (u: bool)
      reads s
      ensures !s.destroyed && s.sslAlive == secure ==> u
      ensures s.destroyed && !s.sslAlive ==> !u
    {
      if secure then s.sslAlive else !s.destroyed
    }

    /** The index of the first usable socket of q, |q| when none is. */
    function FirstUsable(q: seq<Socket>): (k: nat)
      reads set s | s in q
      ensures k <= |q|
      ensures forall j :: 0 <= j < k ==> !IsUsable(q[j])
      ensures k < |q| ==> IsUsable(q[k])
    {
      if q == [] then 0
      else if IsUsable(q[0]) then 0
      else 1 + FirstUsable(q[1..])
    }

    /**
     * What taking an idle socket for a name does: the sockets ahead of the first usable
     * one are dropped, the usable one is returned and removed, the rest stay in order;
     * with no usable socket the queue is emptied (the name stays) and null is returned.
     */
    function TakeIdle(idle: map<string, seq<Socket>>, name: string): (r: (Socket?, map<string, seq<Socket>>))
      reads if name in idle then set s | s in idle[name] else {}
      ensures name !in idle ==> r == (null, idle)
      ensures r.0 != null ==> name in idle && r.0 in idle[name] && IsUsable(r.0)
    {
      if name !in idle then (null, idle)
      else
        var q := idle[name];
        var k := FirstUsable(q);
        if k < |q| then (q[k], idle[name := q[k + 1..]])
        else (null, idle[name := q[|q|..]])
    }

    /** `next_idle_socket(name)` */
    method NextIdleSocket(name: string) returns (s: Socket?)
      modifies this`idleSockets
      ensures (s, idleSockets) == TakeIdle(old(idleSockets), name)
    {
      if name !in idleSockets {
        return null;
      }
      ghost var q := idleSockets[name];
      var i := 0;
      while idleSockets[name] != []
        invariant name in idleSockets
        invariant 0 <= i <= |q| && idleSockets == old(idleSockets)[name := q[i..]]
        invariant forall j :: 0 <= j < i ==> !IsUsable(q[j])
        decreases |idleSockets[name]|
      {
        var socket := idleSockets[name][0];
        idleSockets := idleSockets[name := idleSockets[name][1..]];
        i := i + 1;
        if IsUsable(socket) {
          assert socket == q[i - 1];
          assert FirstUsable(q) == i - 1;
          assert old(idleSockets)[name] == q;
          assert TakeIdle(old(idleSockets), name).0 == socket;
          assert TakeIdle(old(idleSockets), name).1 == idleSockets;
          return socket;
        }
      }
      return null;
    }

    /** `addRequest`: reuse an idle socket for the request's name, else defer to the base agent. */
    method AddRequest(request: PendingRequest, host: string, port: nat, localAddress: Option<string>)
      modifies this`idleSockets, this`dispatched
      ensures var name := BuildNameKey(host, port, localAddress);
              var taken := TakeIdle(old(idleSockets), name);
              idleSockets == taken.1 && dispatched == old(dispatched) + [DispatchOf(request, name, taken.0)]
    {
      var name := BuildNameKey(host, port, localAddress);
      var socket := NextIdleSocket(name);
      dispatched := dispatched + [DispatchOf(request, name, socket)];
    }

    /**
     * The 'free' handler: a usable socket has its counter advanced and is destroyed once it
     * reaches the limit, otherwise appended to its name's idle queue; then the first request
     * waiting for that name, if any, is dequeued (the name dropped when it was the last) and
     * dispatched as `addRequest` would.
     */
    method OnFree(socket: Socket, host: string, port: nat, localAddress: Option<string>)
      modifies this`idleSockets, this`requests, this`dispatched, socket
      ensures var count := NextCount(old(socket.requestCount));
              var usable := old(IsUsable(socket));
              socket.requestCount == (if usable then count else old(socket.requestCount)) &&
              (if usable && count >= maxReqsPerSocket then socket.destroyed && !socket.sslAlive
               else socket.destroyed == old(socket.destroyed) && socket.sslAlive == old(socket.sslAlive))
      ensures var name := BuildNameKey(host, port, localAddress);
              var kept := old(IsUsable(socket)) && NextCount(old(socket.requestCount)) < maxReqsPerSocket;
              var idle := if kept then old(idleSockets)[name := Queue(old(idleSockets), name) + [socket]] else old(idleSockets);
              if Waiting(old(requests), name) then
                var q := old(requests)[name];
                var taken := TakeIdle(idle, name);
                requests == (if |q| == 1 then old(requests) - {name} else old(requests)[name := q[1..]]) &&
                idleSockets == taken.1 && dispatched == old(dispatched) + [DispatchOf(q[0], name, taken.0)]
              else
                idleSockets == idle && requests == old(requests) && dispatched == old(dispatched)
    {
      var name := BuildNameKey(host, port, localAddress);
      if IsUsable(socket) {
        socket.requestCount := NextCount(socket.requestCount);
        if socket.requestCount >= maxReqsPerSocket {
          socket.Destroy();
        } else {
          idleSockets := idleSockets[name := Queue(idleSockets, name) + [socket]];
        }
      }
      if name in requests && |requests[name]| > 0 {
        var next := requests[name][0];
        requests := requests[name := requests[name][1..]];
        if |requests[name]| == 0 {
          requests := requests - {name};
        }
        AddRequest(next, host, port, localAddress);
      }
    }

    /** `removeSocket`: drop the first occurrence of the socket from its name's idle queue, and the name once that is empty. */
    method RemoveSocket(socket: Socket, name: string)
      modifies this`idleSockets
      ensures var q := Queue(old(idleSockets), name);
              var i := IndexOf(q, socket);
              idleSockets == (if i == -1 then old(idleSockets)
                              else if |q| == 1 then old(idleSockets) - {name}
                              else old(idleSockets)[name := Splice(q, i)])
    {
      if name in idleSockets {
        var idx := IndexOf(idleSockets[name], socket);
        if idx != -1 {
          idleSockets := idleSockets[name := Splice(idleSockets[name], idx)];
          if |idleSockets[name]| == 0 {
            idleSockets := idleSockets - {name};
          }
        }
      }
    }
  }

  /** Removing the first occurrence of x takes exactly one x out of the queue and nothing else. */
  lemma SpliceRemovesOne<T>(q: seq<T>, x: T)
    requires IndexOf(q, x) >= 0
    ensures |Splice(q, IndexOf(q, x))| == |q| - 1
    ensures multiset(Splice(q, IndexOf(q, x))) == multiset(q) - multiset{x}
  {
    var i := IndexOf(q, x);
    SpliceAt(q, i);
  }

  lemma SpliceAt<T>(q: seq<T>, i: nat)
    requires i < |q|
    ensures |Splice(q, i)| == |q| - 1
    ensures multiset(Splice(q, i)) == multiset(q) - multiset{q[i]}
  {
    var front, back := q[..i], q[i + 1..];
    assert q == front + [q[i]] + back;
    assert multiset(q) == multiset(front) + multiset{q[i]} + multiset(back);
    assert Splice(q, i) == front + back;
  }

  /** Splitting a name key on ':' gives back the host and the decimal port. */
  lemma NameKeyFields(host: string, port: nat, localAddress: Option<string>)
    requires ':' !in host
    ensures Field0(BuildNameKey(host, port, localAddress)) == host
    ensures Field1(BuildNameKey(host, port, localAddress)) == Some(DecimalText(port))
  {
    var suffix := if StrTruthy(localAddress) then ":" + localAddress.value else "";
    var rest := DecimalText(port) + suffix;
    assert BuildNameKey(host, port, localAddress) == host + ":" + rest;
    SplitOfJoin(host, rest);
    DecimalTextHasNoColon(port);
    Field0OfJoin(DecimalText(port), suffix);
    if suffix != "" {
      assert suffix[0] == ':';
    }
    assert Field0(suffix) == [];
    assert DecimalText(port) + [] == DecimalText(port);
  }

  /** Two connections to colon-free hosts share a name exactly when host, port and local address agree. */
  lemma NameKeyInjective(h1: string, p1: nat, l1: Option<string>, h2: string, p2: nat, l2: Option<string>)
    requires ':' !in h1 && ':' !in h2
    requires BuildNameKey(h1, p1, l1) == BuildNameKey(h2, p2, l2)
    ensures h1 == h2 && p1 == p2
    ensures StrTruthy(l1) <==> StrTruthy(l2)
    ensures StrTruthy(l1) ==> l1.value == l2.value
  {
    NameKeyFields(h1, p1, l1);
    NameKeyFields(h2, p2, l2);
    DecimalRoundTrip(p1);
    DecimalRoundTrip(p2);
    var key := BuildNameKey(h1, p1, l1);
    var n := |h1| + 1 + |DecimalText(p1)|;
    var s1 := if StrTruthy(l1) then ":" + l1.value else "";
    var s2 := if StrTruthy(l2) then ":" + l2.value else "";
    assert key == (h1 + ":" + DecimalText(p1)) + s1;
    assert key == (h1 + ":" + DecimalText(p1)) + s2;
    assert s1 == key[n..] == s2;
    if StrTruthy(l1) {
      assert l1.value == s1[1..] == s2[1..];
    }
  }

  /** Ten requests one after another to the same host reuse one socket: it is the only idle socket and it has carried all ten. */
  method TenSequentialRequests(host: string, port: nat) returns (count: int, idle: nat)
    ensures count == 10 && idle == 1
  {
    var agent := new Agent(false, None);
    var name := BuildNameKey(host, port, None);
    agent.AddRequest(0, host, port, None);
    var socket := new Socket(false);
    assert agent.idleSockets == map[] && agent.requests == map[];
    agent.OnFree(socket, host, port, None);
    assert [] + [socket] == [socket];
    assert agent.idleSockets == map[name := [socket]];
    var i := 1;
    while i < 10
      invariant 1 <= i <= 10
      invariant agent.maxReqsPerSocket == DEFAULT_MAX_REQS_PER_SOCKET && !agent.secure
      invariant agent.idleSockets == map[name := [socket]] && agent.requests == map[]
      invariant !socket.destroyed && socket.requestCount == i
    {
      ReuseIdle(agent, socket, host, port, i);
      i := i + 1;
    }
    count := socket.requestCount;
    idle := |agent.idleSockets[name]|;
  }

  /** One more request on a host whose only idle socket has carried i requests: the socket takes it and idles again. */
  method ReuseIdle(agent: Agent, socket: Socket, host: string, port: nat, i: int)
    requires 1 <= i < 10 && agent.maxReqsPerSocket == DEFAULT_MAX_REQS_PER_SOCKET && !agent.secure
    requires agent.idleSockets == map[BuildNameKey(host, port, None) := [socket]] && agent.requests == map[]
    requires !socket.destroyed && socket.requestCount == i
    modifies agent`idleSockets, agent`requests, agent`dispatched, socket
    ensures agent.idleSockets == map[BuildNameKey(host, port, None) := [socket]] && agent.requests == map[]
    ensures !socket.destroyed && socket.requestCount == i + 1
  {
    var name := BuildNameKey(host, port, None);
    assert agent.IsUsable(socket);
    assert agent.FirstUsable([socket]) == 0;
    agent.AddRequest(i, host, port, None);
    assert agent.idleSockets == map[name := []];
    agent.OnFree(socket, host, port, None);
    assert [] + [socket] == [socket];
  }

  /**
   * With at most two requests per socket: after the first request its socket idles with a
   * count of 1; the second request takes it, reaches the limit and destroys it, leaving the
   * queue empty; a third request gets a new socket, which idles with a count of 1.
   */
  method MaxRequestsPerSocket(host: string, port: nat) returns (firstCount: int, idleAfterSecond: nat, thirdCount: int, firstDestroyed: bool)
    ensures firstCount == 1 && idleAfterSecond == 0 && thirdCount == 1 && firstDestroyed
  {
    var agent := new Agent(false, Some(2));
    var name := BuildNameKey(host, port, None);
    var first := new Socket(false);
    RequestOnNewSocket(agent, first, host, port, 0);
    firstCount := agent.idleSockets[name][0].requestCount;
    RequestAtLimit(agent, first, host, port, 1);
    idleAfterSecond := |agent.idleSockets[name]|;
    var second := new Socket(false);
    RequestOnNewSocket(agent, second, host, port, 2);
    thirdCount := agent.idleSockets[name][0].requestCount;
    firstDestroyed := first.destroyed;
  }

  /** A request on a host with no idle socket goes to the base agent; the new socket it gets then idles with a count of 1. */
  method RequestOnNewSocket(agent: Agent, socket: Socket, host: string, port: nat, request: PendingRequest)
    requires !agent.secure && agent.maxReqsPerSocket > 1 && agent.requests == map[]
    requires Queue(agent.idleSockets, BuildNameKey(host, port, None)) == []
    requires !socket.destroyed && socket.requestCount == 0
    modifies agent`idleSockets, agent`requests, agent`dispatched, socket
    ensures agent.idleSockets == old(agent.idleSockets)[BuildNameKey(host, port, None) := [socket]]
    ensures agent.requests == map[] && !socket.destroyed && socket.requestCount == 1
  {
    var name := BuildNameKey(host, port, None);
    agent.AddRequest(request, host, port, None);
    assert Queue(agent.idleSockets, name) == [];
    assert agent.IsUsable(socket);
    agent.OnFree(socket, host, port, None);
    assert [] + [socket] == [socket];
  }

  /** A request on a host whose only idle socket is one short of the limit: the socket takes it and is destroyed. */
  method RequestAtLimit(agent: Agent, socket: Socket, host: string, port: nat, request: PendingRequest)
    requires !agent.secure && agent.maxReqsPerSocket == 2 && agent.requests == map[]
    requires agent.idleSockets == map[BuildNameKey(host, port, None) := [socket]]
    requires !socket.destroyed && socket.requestCount == 1
    modifies agent`idleSockets, agent`requests, agent`dispatched, socket
    ensures agent.idleSockets == map[BuildNameKey(host, port, None) := []] && agent.requests == map[]
    ensures socket.destroyed && socket.requestCount == 2
  {
    var name := BuildNameKey(host, port, None);
    assert agent.IsUsable(socket);
    assert agent.FirstUsable([socket]) == 0;
    agent.AddRequest(request, host, port, None);
    assert agent.idleSockets == map[name := []];
    agent.OnFree(socket, host, port, None);
  }

  /** A socket destroyed before its exchange is freed is not put on the idle queue, and its name gets none. */
  method DestroyedSocketNotKept(secure: bool, host: string, port: nat) returns (hasQueue: bool)
    ensures !hasQueue
  {
    var agent := new Agent(secure, None);
    agent.AddRequest(0, host, port, None);
    var socket := new Socket(secure);
    socket.Destroy();
    agent.OnFree(socket, host, port, None);
    hasQueue := BuildNameKey(host, port, None) in agent.idleSockets;
  }

  /** Two idle sockets that were destroyed while idle: neither is handed out and the queue is left empty. */
  method DestroyedIdleSocketsSkipped(secure: bool, name: string) returns (got: Socket?, left: nat)
    ensures got == null && left == 0
  {
    var agent := new Agent(secure, None);
    var a := new Socket(secure);
    var b := new Socket(secure);
    a.Destroy();
    b.Destroy();
    assert !agent.IsUsable(a) && !agent.IsUsable(b);
    agent.idleSockets := map[name := [a, b]];
    got := agent.NextIdleSocket(name);
    left := |agent.idleSockets[name]|;
  }
}

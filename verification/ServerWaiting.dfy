/** When can a public connection and an idle work connection of the same peer wait for each
    other? Exactly when the peer may have more streams than the starting table has places:
    a run that fills the starting table and then adds one of each ends in such a state. */
module ServerWaiting {
  import opened Bytes
  import opened Bags
  import opened Metrics
  import opened ServerSpec
  import opened ServerSafety

  const SESSION: u64 := 7

  lemma ReachableStep(c: Config, s: State, e: Event)
    requires Reachable(c, s)
    ensures Reachable(c, Step(s, c, e))
  {
    var control, events :| Started(c, control) && s == Run(Boot(c, control), c, events);
    assert (events + [e])[..|events|] == events;
    assert Step(s, c, e) == Run(Boot(c, control), c, events + [e]);
  }

  ghost predicate Below(s: State, next: nat) { forall fd :: fd in s.os.open ==> fd < next }

  // ----- a peer logs in and registers a service -----

  lemma Boots(c: Config, control: seq<Listener>)
    requires ConfigOk(c) && control == [Listener(0, V4(0, 1))]
    ensures Reachable(c, Boot(c, control)) && Below(Boot(c, control), 1)
  {
    assert Fds(control) == [0];
    assert Started(c, control);
    var s := Boot(c, control);
    assert s == Run(s, c, []);
  }

  lemma Greets(c: Config, a: Auth) returns (s: State)
    requires ConfigOk(c)
    ensures Reachable(c, s) && s.incoming == [Incoming(1, true, c.handshakeMs, "")] && Below(s, 2)
    ensures s.control == [Listener(0, V4(0, 1))] && s.peers == seq(c.compiledClients, _ => Vacant(c))
  {
    var control := [Listener(0, V4(0, 1))];
    Boots(c, control);
    var s1 := Calls(c, Boot(c, control), 1);
    var hello := Arrive(1, false, HelloFrame, true, SESSION, a, 0, []);
    s := Step(s1, c, hello);
    ReachableStep(c, s1, hello);
    FirstIs(s1.incoming, IncomingAt(1), 0);
  }

  lemma LogsIn(c: Config, a: Auth) returns (s: State)
    requires ConfigOk(c) && c.maxClients >= 1
    ensures Reachable(c, s) && s.incoming == [] && Below(s, 2) && s.control == [Listener(0, V4(0, 1))]
    ensures |s.peers| == c.compiledClients && forall i :: 1 <= i < |s.peers| ==> !s.peers[i].active
    ensures s.peers[0] == Vacant(c).(active := true, fd := 1, session := SESSION, auth := a)
  {
    var t := Greets(c, a);
    var e := Arrive(1, false, AuthFrame, true, SESSION, a, 0, []);
    s := Step(t, c, e);
    ReachableStep(c, t, e);
    FirstIs(t.incoming, IncomingAt(1), 0);
    FirstIs(t.peers[..if c.maxClients < |t.peers| then c.maxClients else |t.peers|], IsInactive, 0);
  }

  /** Peer 0 has n starting streams and nothing else in its queues. */
  ghost predicate Loaded(c: Config, s: State, a: Auth, n: nat, next: nat)
  {
    && Reachable(c, s) && Below(s, next) && s.incoming == [] && s.peers != []
    && var p := s.peers[0];
    && p.active && p.session == SESSION && p.auth == a && p.svcs != []
    && p.work == [] && p.pending == [] && |p.starting| == n && Sum(p.relays, IsOpen) == 0
  }

  /** A first service at a free port is accepted. */
  lemma FirstService(c: Config, x: Ps, control: seq<Listener>, peers: seq<Peer>, r: Request, bound: seq<Listener>)
    requires r.valid && !r.udp && x.p.svcs == [] && c.maxServices >= 1 && x.p.auth.maxServices >= 1
    requires Authorized(x.p.auth, r.addr, r.port) && bound != []
    requires !OverlapsAny(bound, control) && forall i :: 0 <= i < |peers| ==> !OverlapsPeer(bound, peers[i])
    ensures var y := Registered(x, c, control, peers, r, bound, []);
      y.p == x.p.(svcs := y.p.svcs) && y.p.svcs != [] && y.os == Opened(x.os, Fds(bound))
  {
  }

  lemma FirstRegistration(c: Config, a: Auth) returns (s: State)
    requires ConfigOk(c) && c.maxClients >= 1 && c.maxServices >= 1 && a.maxServices >= 1 && Authorized(a, "", 2)
    ensures Loaded(c, s, a, 0, 3)
  {
    var t := LogsIn(c, a);
    var bound := [Listener(2, V4(0, 2))];
    assert Fds(bound) == [2];
    var r := Request([], "", 2, false, 0, 0, true);
    FirstService(c, Of(t, 0), t.control, t.peers, r, bound);
    var e := Registers(0, r, bound, [], true);
    s := Step(t, c, e);
    ReachableStep(c, t, e);
    SumZero(t.peers[0].relays, IsOpen);
  }

  // ----- one more stream -----

  /** Peer 0 has one more pending stream; nothing else changed in its tables. */
  ghost predicate Waits(s: State, t: State)
  {
    && t.incoming == s.incoming && |t.peers| == |s.peers| && s.peers != []
    && t.peers[0] == s.peers[0].(pending := t.peers[0].pending)
    && |t.peers[0].pending| == 1
  }

  lemma Connects(c: Config, s: State, a: Auth, n: nat, next: nat) returns (t: State)
    requires Loaded(c, s, a, n, next) && n < StreamLimit(c, a) && c.maxPending >= 1 && ConfigOk(c)
    ensures Reachable(c, t) && Below(t, next + 1) && Waits(s, t)
  {
    var e := Connect(0, 0, next, true, 0, []);
    t := Step(s, c, e);
    ReachableStep(c, s, e);
    assert NewSockets(s.os, [next]);
  }

  lemma Calls(c: Config, s: State, next: nat) returns (t: State)
    requires Reachable(c, s) && Below(s, next) && s.incoming == [] && ConfigOk(c)
    ensures Reachable(c, t) && Below(t, next + 1) && t.peers == s.peers && t.control == s.control
    ensures t.incoming == [Incoming(next, false, c.handshakeMs, "")]
  {
    var e := Accept(next, "", 0);
    t := Step(s, c, e);
    ReachableStep(c, s, e);
    assert NewSockets(s.os, [next]);
  }

  lemma Binds(c: Config, s: State, a: Auth, fd: Socket, next: nat) returns (t: State)
    requires Reachable(c, s) && Below(s, next) && ConfigOk(c) && s.incoming == [Incoming(fd, false, c.handshakeMs, "")]
    requires s.peers != [] && s.peers[0].active && s.peers[0].session == SESSION && s.peers[0].work == []
    ensures Reachable(c, t) && t.incoming == [] && |t.peers| == |s.peers|
    ensures var x := AddWork(Ps(s.peers[0], s.os, s.m), c, fd, 0, []);
      t.peers[0] == x.p && t.os == x.os
  {
    var e := Arrive(fd, false, BindFrame, true, SESSION, a, 0, []);
    t := Step(s, c, e);
    ReachableStep(c, s, e);
    FirstIs(s.peers, InSession(SESSION), 0);
    FirstIs(s.incoming, IncomingAt(fd), 0);
  }

  /** With room in the starting table the two are matched; without, both wait. */
  lemma OneMore(c: Config, s: State, a: Auth, n: nat, next: nat) returns (t: State)
    requires Loaded(c, s, a, n, next) && n < StreamLimit(c, a) && c.maxPending >= 1 && ConfigOk(c)
    ensures n < c.compiledPending ==> Loaded(c, t, a, n + 1, next + 2)
    ensures n == c.compiledPending ==>
      Reachable(c, t) && t.peers != [] && t.peers[0].active && t.peers[0].auth == a
      && t.peers[0].pending != [] && t.peers[0].work != []
  {
    var u := Connects(c, s, a, n, next);
    var v := Calls(c, u, next + 1);
    t := Binds(c, v, a, next + 1, next + 2);
    var x := Ps(v.peers[0].(work := [next + 1]), v.os, Inc(v.m, WORK_IDLE));
    assert v.peers[0].work + [next + 1] == [next + 1];
    if n < c.compiledPending {
      var y := MatchOne(x, c, 0, true);
      assert Match(x, c, 0, []) == Match(y, c, 0, []) == y;
    }
  }

  lemma {:induction false} Fills(c: Config, a: Auth, n: nat) returns (s: State, next: nat)
    requires ConfigOk(c) && c.maxClients >= 1 && c.maxServices >= 1 && c.maxPending >= 1
    requires a.maxServices >= 1 && Authorized(a, "", 2)
    requires n <= c.compiledPending && n < StreamLimit(c, a)
    ensures Loaded(c, s, a, n, next)
    decreases n
  {
    if n == 0 {
      s := FirstRegistration(c, a);
      next := 3;
    } else {
      var t, k := Fills(c, a, n - 1);
      s := OneMore(c, t, a, n - 1, k);
      next := k + 2;
    }
  }

  ghost predicate WaitsForItself(c: Config, limit: nat, s: State, i: nat)
  {
    && Reachable(c, s) && i < |s.peers| && s.peers[i].active && StreamLimit(c, s.peers[i].auth) == limit
    && s.peers[i].pending != [] && s.peers[i].work != []
  }

  /** A peer with this stream limit can hold a pending stream and an idle work connection
      at once if and only if the limit exceeds the size of the starting table. */
  lemma MutualWaitIff(c: Config, limit: nat)
    requires ConfigOk(c) && c.maxClients >= 1 && c.maxServices >= 1 && c.maxPending >= 1 && limit <= c.maxStreams
    ensures (exists s, i :: WaitsForItself(c, limit, s, i)) <==> limit > c.compiledPending
  {
    if limit > c.compiledPending {
      var a := Auth(1, limit, "*", [(2, 2)]);
      assert (2, 2) in a.ports;
      var s, next := Fills(c, a, c.compiledPending);
      var t := OneMore(c, s, a, c.compiledPending, next);
      assert WaitsForItself(c, limit, t, 0);
    }
    if s, i :| WaitsForItself(c, limit, s, i) {
      if limit <= c.compiledPending { NoMutualWait(c, s, i); }
    }
  }
}

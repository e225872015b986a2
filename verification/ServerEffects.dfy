/** What the events of an established peer do, told from outside. */
module ServerEffects {
  import opened Bytes
  import opened Bags
  import opened Metrics
  import opened UdpCodec
  import opened ServerSpec
  import opened ServerSockets
  import opened ServerTables
  import opened ServerInvariants
  import opened ServerOutcomes
  import opened ServerAnswers
  import ReplayWindow

  // ----- a peer is closed -----

  /** Peer i is gone with everything it held, and nothing else changed. */
  ghost predicate ClosedDown(s: State, t: State, i: nat)
  {
    && OnlyPeer(s, t, i) && !t.peers[i].active && Blank(t.peers[i]) && !t.os.fault
    && forall f: Socket :: f in t.os.open <==> f in s.os.open && PeerOwns(s.peers[i], f) == 0
  }

  lemma DownIs(c: Config, s: State, i: nat, y: Ps)
    requires Inv(c, s) && i < |s.peers| && Moves(Of(s, i), y) && y.p == Vacant(c)
    ensures ClosedDown(s, With(s, i, y), i)
  {
    VacantOk(c, y.p);
    forall f: Socket ensures f in y.os.open <==> f in s.os.open && PeerOwns(s.peers[i], f) == 0 {
      assert Delta(Of(s, i), y, f);
      VacantOwns(c, f);
      PeerIsSafe(s, i);
      assert Within(Of(s, i), f);
    }
  }

  /** Losing the control connection closes the peer and every socket it held. */
  lemma LoseOutcome(c: Config, s: State, i: nat)
    requires Inv(c, s) && i < |s.peers|
    ensures var t := Step(s, c, Lose(i)); if s.peers[i].active then ClosedDown(s, t, i) else t == s
  {
    PeerIsSafe(s, i);
    PeerCloseMoves(Of(s, i), c);
    if s.peers[i].active { DownIs(c, s, i, PeerClose(Of(s, i), c)); }
  }

  // ----- an answer on a starting stream -----

  lemma StartingSockets(s: State, i: nat, k: nat)
    requires Owned(s) && i < |s.peers| && k < |s.peers[i].starting|
    ensures var x := s.peers[i].starting[k];
      x.pending.fd in s.os.open && x.work in s.os.open && x.pending.fd != x.work
    ensures var xs := s.peers[i].starting; forall j :: 0 <= j < |xs| && xs[j].work == xs[k].work ==> j == k
  {
    var xs := s.peers[i].starting;
    var a, w := xs[k].pending.fd, xs[k].work;
    PeerIsSafe(s, i);
    assert Within(Of(s, i), a) && Within(Of(s, i), w);
    SumUpdate(xs, k, xs[k], StartingIs(a));
    SumUpdate(xs, k, xs[k], StartingIs(w));
    forall j | 0 <= j < |xs| && xs[j].work == w ensures j == k {
      if j != k { TwoCount(xs, StartingIs(w), if j < k then j else k, if j < k then k else j); }
    }
  }

  /** One closed slot now relays this stream, under its own identifier. */
  ghost predicate RelayAdded(p: Peer, q: Peer, x: Starting)
  {
    exists slot :: 0 <= slot < |p.relays| && p.relays[slot].Closed?
      && q.relays == p.relays[slot := Open(x.pending.fd, x.work, x.id)]
  }

  /** A frame, or an error, on the work connection of a starting stream: the stream is gone
      from its table; a verified READY turns it into a relay of exactly its two sockets and
      its identifier, and anything else closes both. */
  lemma AnswerIff(c: Config, s: State, i: nat, k: nat, broken: bool, ready: bool)
    requires Inv(c, s) && i < |s.peers| && k < |s.peers[i].starting|
    ensures var x := s.peers[i].starting[k];
      var t := Step(s, c, Answer(i, x.work, broken, ready));
      && OnlyPeer(s, t, i) && t.m == s.m
      && t.peers[i] == s.peers[i].(starting := t.peers[i].starting, relays := t.peers[i].relays)
      && (forall e: Starting :: Left(s.peers[i].starting, t.peers[i].starting, x, e))
      && (if !broken && ready then RelayAdded(s.peers[i], t.peers[i], x) && t.os == s.os
          else t.peers[i].relays == s.peers[i].relays && t.os == Os(s.os.open - {x.pending.fd, x.work}, false))
  {
    var xs := s.peers[i].starting;
    StartingSockets(s, i, k);
    FirstIs(xs, StartingOn(xs[k].work), k);
    assert PeerOk(c, s.peers[i]);
    StartingFindsSlot(c, Of(s, i), k);
    forall e: Starting ensures Left(xs, SwapRemove(xs, k), xs[k], e) { SwapLeaves(xs, k, e); }
  }

  // ----- a reply from the client -----

  /** The session of this identifier that a search finds. */
  ghost predicate SessionIs(p: Peer, id: u64, k: nat)
  {
    && k < |p.udp| && p.udp[k].Active? && p.udp[k].id == id
    && forall j :: 0 <= j < k ==> !(p.udp[j].Active? && p.udp[j].id == id)
  }

  /** The reply is for this session's service and source, and its number is acceptable. */
  ghost predicate Replies(c: Config, p: Peer, d: Datagram, k: nat)
  {
    && SessionIs(p, d.session, k)
    && var u := p.udp[k];
    && u.svc < |p.svcs| && p.svcs[u.svc].id == d.service && SameSource(u.peer, d.peer)
    && ReplayWindow.Accept(u.rx, c.window, d.sequence).0
  }

  /** Only session k's time and window changed. */
  ghost predicate Refreshed(c: Config, s: State, t: State, i: nat, d: Datagram, k: nat, now: nat)
    requires i < |s.peers| && k < |s.peers[i].udp| && s.peers[i].udp[k].Active?
  {
    var u := s.peers[i].udp[k];
    var v := u.(lastMs := now, rx := ReplayWindow.Accept(u.rx, c.window, d.sequence).1);
    t == s.(peers := s.peers[i := s.peers[i].(udp := s.peers[i].udp[k := v])])
  }

  lemma SessionFoundIs(p: Peer, id: u64)
    ensures var k := First(p.udp, WithUdpId(id));
      if k < |p.udp| then SessionIs(p, id, k) else forall j: nat :: !SessionIs(p, id, j)
  {
    var k := First(p.udp, WithUdpId(id));
    forall j | 0 <= j < k ensures !(p.udp[j].Active? && p.udp[j].id == id) { BeforeFirst(p.udp, WithUdpId(id), j); }
  }

  lemma SessionIsOne(p: Peer, id: u64, k: nat, j: nat)
    requires SessionIs(p, id, k) && SessionIs(p, id, j)
    ensures k == j
  {
  }

  /** A datagram from the client closes the peer exactly when it goes the wrong way, or is a
      good reply that cannot be sent. A good reply that is sent refreshes its session; one
      refused for its session, service, source or number changes nothing at all. */
  lemma ReplyOutcome(c: Config, s: State, i: nat, d: Datagram, sent: bool, now: nat)
    requires Inv(c, s) && i < |s.peers| && s.peers[i].active && |d.peer.addr| == 16
    ensures var t := Step(s, c, Reply(i, d, sent, now));
      && (d.direction != 1 ==> ClosedDown(s, t, i))
      && (d.direction == 1 && !(exists k: nat :: Replies(c, s.peers[i], d, k)) ==> t == s)
      && (forall k: nat :: d.direction == 1 && Replies(c, s.peers[i], d, k) ==>
            if sent then Refreshed(c, s, t, i, d, k, now) else ClosedDown(s, t, i))
  {
    var x := Of(s, i);
    var t := Step(s, c, Reply(i, d, sent, now));
    var k := First(x.p.udp, WithUdpId(d.session));
    SessionFoundIs(x.p, d.session);
    PeerIsSafe(s, i);
    UdpOutMoves(x, c, d, sent, now);
    forall j: nat | Replies(c, x.p, d, j) ensures j == k { SessionIsOne(x.p, d.session, j, k); }
    if d.direction != 1 {
      DownIs(c, s, i, UdpOut(x, c, d, sent, now));
    } else if k < |x.p.udp| && UdpReplies(x.p, x.p.udp[k], c.window, d) {
      assert Replies(c, x.p, d, k);
      if !sent { DownIs(c, s, i, UdpOut(x, c, d, sent, now)); }
    } else {
      assert !Replies(c, x.p, d, k);
      assert t == s;
    }
  }

  // ----- a datagram from outside -----

  /** The session for this service and source. */
  ghost predicate SourceIs(p: Peer, svc: nat, ep: Endpoint, k: nat)
  {
    k < |p.udp| && p.udp[k].Active? && p.udp[k].svc == svc && SameSource(p.udp[k].peer, ep)
  }

  /** One more datagram has gone out on session k. */
  ghost predicate SentOn(s: State, t: State, i: nat, k: nat, now: nat)
    requires i < |s.peers| && k < |s.peers[i].udp| && s.peers[i].udp[k].Active?
  {
    var u := s.peers[i].udp[k];
    var v := u.(lastMs := now, tx := (u.tx + 1) % U64_LIMIT);
    t == s.(peers := s.peers[i := s.peers[i].(udp := s.peers[i].udp[k := v])])
  }

  /** A new session, under the next identifier, has sent its first datagram. */
  ghost predicate SentNew(s: State, t: State, i: nat, svc: nat, ep: Endpoint, now: nat)
    requires i < |s.peers|
  {
    var p := s.peers[i];
    exists k: nat :: k < |p.udp| && p.udp[k].Idle?
      && t == s.(peers := s.peers[i := p.(ids := NextId(p.ids),
                   udp := p.udp[k := Active(NextId(p.ids).next, svc, ep, now, 1, ReplayWindow.Window(0, 0))])],
                 m := Inc(s.m, UDP_ACTIVE))
  }

  /** There is room for another session of this service. */
  ghost predicate RoomFor(p: Peer, svc: nat)
    requires svc < |p.svcs|
  {
    Sum(p.udp, IsActive) < p.svcs[svc].udpMax && Sum(p.udp, IsActive) < |p.udp|
  }

  ghost predicate Sourced(p: Peer, svc: nat, ep: Endpoint) { exists k: nat :: SourceIs(p, svc, ep, k) }

  lemma SourceFound(c: Config, p: Peer, svc: nat, ep: Endpoint)
    requires PeerOk(c, p) && |ep.addr| == 16
    ensures var k := UdpFind(p.udp, svc, ep);
      if k < |p.udp| then SourceIs(p, svc, ep, k) else !Sourced(p, svc, ep)
  {
    var k := UdpFind(p.udp, svc, ep);
    forall j: nat | j < k ensures !SourceIs(p, svc, ep, j) { assert !UdpMatches(p.udp[j], svc, ep); }
  }

  /** At most one session stands for a service and source. */
  lemma SourceIsOne(c: Config, p: Peer, svc: nat, ep: Endpoint, k: nat, j: nat)
    requires PeerOk(c, p) && SourceIs(p, svc, ep, k) && SourceIs(p, svc, ep, j)
    ensures k == j
  {
    assert k < j ==> !Clash(p.udp[k], p.udp[j]);
    assert j < k ==> !Clash(p.udp[j], p.udp[k]);
  }

  lemma AdmittedIs(x: Ps, svc: nat, ep: Endpoint, now: nat)
    requires svc < |x.p.svcs| && LegalEndpoint(ep) && x.p.active
    requires UdpFind(x.p.udp, svc, ep) < |x.p.udp| || RoomFor(x.p, svc)
    ensures var y := UdpAdmit(x, svc, ep, now); y.1 < |y.0.p.udp| && y.0.p.active
  {
    UdpCreateIff(x, svc, ep, now);
  }

  lemma UnsentVacates(x: Ps, c: Config, svc: nat, ep: Endpoint, now: nat)
    requires svc < |x.p.svcs| && LegalEndpoint(ep) && x.p.active
    requires UdpFind(x.p.udp, svc, ep) < |x.p.udp| || RoomFor(x.p, svc)
    ensures UdpIn(x, c, svc, ep, false, false, now).p == Vacant(c)
  {
    AdmittedIs(x, svc, ep, now);
  }

  /** It should go out and cannot be sent. */
  lemma UnsentIs(c: Config, s: State, i: nat, svc: nat, ep: Endpoint, now: nat)
    requires Inv(c, s) && i < |s.peers| && svc < |s.peers[i].svcs| && LegalEndpoint(ep)
    requires Sourced(s.peers[i], svc, ep) || RoomFor(s.peers[i], svc)
    ensures ClosedDown(s, Step(s, c, DatagramIn(i, svc, ep, false, false, now)), i)
  {
    var x := Of(s, i);
    assert PeerOk(c, x.p);
    SourceFound(c, x.p, svc, ep);
    UnsentVacates(x, c, svc, ep, now);
    PeerIsSafe(s, i);
    UdpInMoves(x, c, svc, ep, false, false, now);
    DownIs(c, s, i, UdpIn(x, c, svc, ep, false, false, now));
  }

  lemma KnownOnIs(c: Config, s: State, i: nat, svc: nat, ep: Endpoint, now: nat, k: nat)
    requires Inv(c, s) && i < |s.peers| && svc < |s.peers[i].svcs| && LegalEndpoint(ep)
    requires SourceIs(s.peers[i], svc, ep, k)
    ensures SentOn(s, Step(s, c, DatagramIn(i, svc, ep, false, true, now)), i, k, now)
  {
    assert PeerOk(c, s.peers[i]);
    SourceFound(c, s.peers[i], svc, ep);
    SourceIsOne(c, s.peers[i], svc, ep, k, UdpFind(s.peers[i].udp, svc, ep));
  }

  lemma DroppedIs(c: Config, s: State, i: nat, svc: nat, ep: Endpoint, sent: bool, now: nat)
    requires Inv(c, s) && i < |s.peers| && svc < |s.peers[i].svcs| && LegalEndpoint(ep)
    requires !Sourced(s.peers[i], svc, ep) && !RoomFor(s.peers[i], svc)
    ensures Step(s, c, DatagramIn(i, svc, ep, false, sent, now)) == s
  {
    assert PeerOk(c, s.peers[i]);
    SourceFound(c, s.peers[i], svc, ep);
    UdpCreateIff(Of(s, i), svc, ep, now);
  }

  /** A datagram from outside goes out on the session of its source, or on a new one while
      there is room; one that is too long or finds no room is dropped and changes nothing. It
      closes the peer exactly when it should go out and cannot be sent. */
  lemma DatagramOutcome(c: Config, s: State, i: nat, svc: nat, ep: Endpoint, oversized: bool, sent: bool, now: nat)
    requires Inv(c, s) && i < |s.peers| && svc < |s.peers[i].svcs| && LegalEndpoint(ep)
    ensures var p, t := s.peers[i], Step(s, c, DatagramIn(i, svc, ep, oversized, sent, now));
      && (oversized || (!Sourced(p, svc, ep) && !RoomFor(p, svc)) ==> t == s)
      && (!oversized && (Sourced(p, svc, ep) || RoomFor(p, svc)) && !sent ==> ClosedDown(s, t, i))
      && (forall k: nat :: !oversized && sent && SourceIs(p, svc, ep, k) ==> SentOn(s, t, i, k, now))
      && (!oversized && sent && !Sourced(p, svc, ep) && RoomFor(p, svc) ==> SentNew(s, t, i, svc, ep, now))
  {
    var p := s.peers[i];
    assert PeerOk(c, p);
    if oversized {
      assert Step(s, c, DatagramIn(i, svc, ep, oversized, sent, now)) == s;
    } else if !Sourced(p, svc, ep) && !RoomFor(p, svc) {
      DroppedIs(c, s, i, svc, ep, sent, now);
    } else if !sent {
      UnsentIs(c, s, i, svc, ep, now);
    } else if Sourced(p, svc, ep) {
      forall k: nat | SourceIs(p, svc, ep, k)
        ensures SentOn(s, Step(s, c, DatagramIn(i, svc, ep, false, true, now)), i, k, now)
      {
        KnownOnIs(c, s, i, svc, ep, now, k);
      }
    } else {
      SourceFound(c, p, svc, ep);
      NewOnIs(s, c, i, svc, ep, now);
    }
  }

  lemma NewOnIs(s: State, c: Config, i: nat, svc: nat, ep: Endpoint, now: nat)
    requires Inv(c, s) && i < |s.peers| && svc < |s.peers[i].svcs| && LegalEndpoint(ep)
    requires UdpFind(s.peers[i].udp, svc, ep) == |s.peers[i].udp| && RoomFor(s.peers[i], svc)
    ensures SentNew(s, Step(s, c, DatagramIn(i, svc, ep, false, true, now)), i, svc, ep, now)
  {
    var p, k := s.peers[i], FreeUdp(s.peers[i].udp);
    UdpCreateIff(Of(s, i), svc, ep, now);
    var u := NewUdp(NextId(p.ids).next, svc, ep, now);
    assert p.udp[k := u][k := Forwarding(u, now)] == p.udp[k := Forwarding(u, now)];
    assert k < |p.udp| && p.udp[k].Idle?;
  }

  // ----- a registration -----

  /** The sockets bound for a request. */
  function BoundFor(r: Request, bound: seq<Listener>, udpFds: seq<Socket>): set<Socket>
  {
    if r.udp then set f | f in udpFds else set f | f in Fds(bound)
  }

  /** Everything register_service asks for. */
  ghost predicate Registrable(c: Config, s: State, i: nat, r: Request, bound: seq<Listener>, udpFds: seq<Socket>)
    requires i < |s.peers|
  {
    var p := s.peers[i];
    && r.valid && (forall k :: 0 <= k < |p.svcs| ==> p.svcs[k].id != r.id)
    && |p.svcs| < p.auth.maxServices && |p.svcs| < c.maxServices
    && (p.auth.allowAddr == "*" || p.auth.allowAddr == r.addr)
    && (exists k :: 0 <= k < |p.auth.ports| && p.auth.ports[k].0 <= r.port <= p.auth.ports[k].1)
    && if r.udp then udpFds != []
       else bound != [] && !OverlapsAny(bound, s.control)
            && forall j :: 0 <= j < |s.peers| ==> Clear(bound, s.peers[j].svcs)
  }

  /** The request and what was bound for it have become the peer's last service. */
  ghost predicate Recorded(p: Peer, q: Peer, r: Request, bound: seq<Listener>, udpFds: seq<Socket>)
  {
    && |q.svcs| == |p.svcs| + 1 && q == p.(svcs := q.svcs) && q.svcs[..|p.svcs|] == p.svcs
    && var n := q.svcs[|p.svcs|];
    && n.id == r.id && n.addr == r.addr && n.port == r.port && n.udp == r.udp
    && n.listeners == (if r.udp then [] else bound) && n.udpFds == (if r.udp then udpFds else [])
    && n.udpMax == r.udpMax && n.udpIdleMs == r.udpIdleMs
  }

  lemma AuthorizedIs(a: Auth, addr: string, port: nat)
    ensures Authorized(a, addr, port) <==>
      && (a.allowAddr == "*" || a.allowAddr == addr)
      && exists k :: 0 <= k < |a.ports| && a.ports[k].0 <= port <= a.ports[k].1
  {
    if k :| 0 <= k < |a.ports| && a.ports[k].0 <= port <= a.ports[k].1 { assert a.ports[k] in a.ports; }
  }

  /** register_service before its reply: the request is recorded with every one of its values
      exactly when all it asks for is given; refused, it changes nothing and leaves nothing
      open. */
  lemma RegisteredIff(c: Config, s: State, i: nat, r: Request, bound: seq<Listener>, udpFds: seq<Socket>)
    requires Inv(c, s) && i < |s.peers| && NewSockets(s.os, if r.udp then udpFds else Fds(bound))
    ensures var y := Registered(Of(s, i), c, s.control, s.peers, r, bound, udpFds);
      y.m == s.m &&
      if Registrable(c, s, i, r, bound, udpFds)
      then Recorded(s.peers[i], y.p, r, bound, udpFds)
           && y.os == Os(s.os.open + BoundFor(r, bound, udpFds), false)
      else y.p == s.peers[i] && y.os == s.os
  {
    AuthorizedIs(s.peers[i].auth, r.addr, r.port);
    OpenedIs(s.os, if r.udp then udpFds else Fds(bound), 0);
    forall j | 0 <= j < |s.peers| ensures OverlapsPeer(bound, s.peers[j]) <==> !Clear(bound, s.peers[j].svcs) {
      assert PeerOk(c, s.peers[j]);
    }
  }

  /** A registration: as above if it can be answered, and the end of the peer if not. */
  lemma RegisterOutcome(c: Config, s: State, i: nat, r: Request, bound: seq<Listener>, udpFds: seq<Socket>,
                        replied: bool)
    requires Inv(c, s) && i < |s.peers| && s.peers[i].active && ListenSet(r.addr, bound) && |udpFds| <= 2
    requires NewSockets(s.os, if r.udp then udpFds else Fds(bound))
    ensures var t := Step(s, c, Registers(i, r, bound, udpFds, replied));
      && (!replied ==> ClosedDown(s, t, i))
      && (replied && Registrable(c, s, i, r, bound, udpFds) ==>
            && OnlyPeer(s, t, i) && t.m == s.m && Recorded(s.peers[i], t.peers[i], r, bound, udpFds)
            && t.os == Os(s.os.open + BoundFor(r, bound, udpFds), false))
      && (replied && !Registrable(c, s, i, r, bound, udpFds) ==> t == s)
  {
    var x, y := Of(s, i), Registered(Of(s, i), c, s.control, s.peers, r, bound, udpFds);
    RegisteredIff(c, s, i, r, bound, udpFds);
    if !replied {
      PeerIsSafe(s, i);
      RegisterMoves(x, c, s.control, s.peers, r, bound, udpFds);
      MovesSafe(x, y);
      PeerCloseMoves(y, c);
      MovesChain(x, y, PeerClose(y, c));
      DownIs(c, s, i, PeerClose(y, c));
    }
  }

  // ----- the sweep -----

  /** Exactly the overdue entries of the peer's tables are gone. */
  ghost predicate Swept(p: Peer, q: Peer, now: nat)
  {
    && q == p.(pending := q.pending, starting := q.starting, udp := q.udp) && |q.udp| == |p.udp|
    && (forall e: Pending :: Often(q.pending, e) == if e.deadline < now then 0 else Often(p.pending, e))
    && (forall e: Starting :: Often(q.starting, e) == if e.deadline <= now then 0 else Often(p.starting, e))
    && forall k :: 0 <= k < |p.udp| ==> q.udp[k] == if TooIdle(p, p.udp[k], now) then Idle else p.udp[k]
  }

  ghost predicate TooIdle(p: Peer, u: UdpSession, now: nat)
  {
    u.Active? && u.svc < |p.svcs| && now > u.lastMs + p.svcs[u.svc].udpIdleMs
  }

  lemma {:induction false} ExpirePendingKeeps(x: Ps, now: nat, j: nat)
    ensures var y := ExpirePending(x, now, j); y.p == x.p.(pending := y.p.pending)
    decreases |x.p.pending| - j
  {
    if j < |x.p.pending| {
      if x.p.pending[j].deadline < now {
        ExpirePendingKeeps(ExpireOne(x, j), now, j);
      } else {
        ExpirePendingKeeps(x, now, j + 1);
      }
    }
  }

  lemma {:induction false} ExpireStartingKeeps(x: Ps, now: nat, j: nat)
    ensures var y := ExpireStarting(x, now, j); y.p == x.p.(starting := y.p.starting)
    decreases |x.p.starting| - j
  {
    if j < |x.p.starting| {
      if x.p.starting[j].deadline <= now {
        var y := DropStarting(x, j);
        ExpireStartingKeeps(y.(m := Inc(y.m, STREAMS_FAILED)), now, j);
      } else {
        ExpireStartingKeeps(x, now, j + 1);
      }
    }
  }

  lemma SweptIs(x: Ps, now: nat)
    ensures Swept(x.p, UdpExpire(ExpireStarting(ExpirePending(x, now, 0), now, 0), now, 0).p, now)
  {
    var a := ExpirePending(x, now, 0);
    var b := ExpireStarting(a, now, 0);
    var z := UdpExpire(b, now, 0);
    ExpirePendingKeeps(x, now, 0);
    ExpireStartingKeeps(a, now, 0);
    UdpExpireKeeps(b, now, 0);
    forall e: Pending ensures Often(z.p.pending, e) == if e.deadline < now then 0 else Often(x.p.pending, e) {
      ExpirePendingDrops(x, now, 0, e);
    }
    forall e: Starting ensures Often(z.p.starting, e) == if e.deadline <= now then 0 else Often(x.p.starting, e) {
      ExpireStartingDrops(a, now, 0, e);
    }
    UdpExpireLength(b, now, 0);
    forall k | 0 <= k < |x.p.udp|
      ensures z.p.udp[k] == if TooIdle(x.p, x.p.udp[k], now) then Idle else x.p.udp[k]
    {
      UdpExpireFrees(b, now, 0, k);
    }
  }

  lemma {:induction false} UdpExpireLength(x: Ps, now: nat, j: nat)
    ensures |UdpExpire(x, now, j).p.udp| == |x.p.udp|
    decreases |x.p.udp| - j
  {
    if j < |x.p.udp| {
      var y := if UdpExpired(x.p, x.p.udp[j], now)
        then x.(p := x.p.(udp := x.p.udp[j := Idle]), m := Dec(x.m, UDP_ACTIVE)) else x;
      UdpExpireLength(y, now, j + 1);
    }
  }

  /** The end-of-loop sweep of an active peer drops exactly what is overdue, in all three
      tables; a silent peer is closed; an inactive one is left alone. */
  lemma SweepOutcome(c: Config, s: State, i: nat, now: nat, silent: bool)
    requires Inv(c, s) && i < |s.peers|
    ensures var t := Step(s, c, ExpirePeer(i, now, silent));
      && (!s.peers[i].active ==> t == s)
      && (s.peers[i].active && !silent ==> OnlyPeer(s, t, i) && Swept(s.peers[i], t.peers[i], now))
      && (s.peers[i].active && silent ==> ClosedDown(s, t, i))
  {
    var x := Of(s, i);
    if s.peers[i].active {
      SweptIs(x, now);
      if silent {
        PeerIsSafe(s, i);
        SweepMoves(x, c, now, silent);
        DownIs(c, s, i, Sweep(x, c, now, silent));
      }
    }
  }

  // ----- connections -----

  /** Peer p has become q by some turns of matching. */
  ghost predicate Turned(p: Peer, q: Peer, c: Config, now: nat, sends: seq<bool>)
  {
    exists k: nat :: Turns(p, q, c, now, sends, k)
  }

  /** A public connection is queued, and the peer matched, exactly when its endpoints are
      known, the pending queue is below its limit and the peer below its quota; refused, it
      leaves no trace. */
  lemma ConnectOutcome(c: Config, s: State, i: nat, svc: nat, fd: Socket, ok: bool, now: nat, sends: seq<bool>)
    requires Inv(c, s) && i < |s.peers| && svc < |s.peers[i].svcs| && NewSockets(s.os, [fd])
    ensures var p, t := s.peers[i], Step(s, c, Connect(i, svc, fd, ok, now, sends));
      if ok && |p.pending| < c.maxPending && ActiveStreams(p) < StreamLimit(c, p.auth)
      then OnlyPeer(s, t, i) && !CanMatch(t.peers[i], c)
           && Turned(p.(pending := p.pending + [Pending(fd, svc, now + c.connectMs)]), t.peers[i], c, now, sends)
      else t == s
  {
    var x := Of(s, i);
    var p := x.p.(pending := x.p.pending + [Pending(fd, svc, now + c.connectMs)]);
    ConnectionKeptIff(c, x, fd, svc, ok, now, sends);
    var k := MatchDoes(Ps(p, Opened(x.os, [fd]), Inc(x.m, PENDING_STREAMS)), c, now, sends);
    var y := Match(Ps(p, Opened(x.os, [fd]), Inc(x.m, PENDING_STREAMS)), c, now, sends);
    assert Turns(p, y.p, c, now, sends, k);
  }

  /** A relay that has closed frees its slot and its two sockets, and nothing else. */
  lemma RelayOutcome(c: Config, s: State, i: nat, k: nat)
    requires Inv(c, s) && i < |s.peers| && k < |s.peers[i].relays|
    ensures var p, t := s.peers[i], Step(s, c, Relay(i, k));
      if p.relays[k].Closed? then t == s
      else t == s.(peers := s.peers[i := p.(relays := p.relays[k := Closed])],
                   os := Os(s.os.open - {p.relays[k].direct, p.relays[k].work}, false))
  {
    var rs := s.peers[i].relays;
    if rs[k].Open? {
      var a, w := rs[k].direct, rs[k].work;
      PeerIsSafe(s, i);
      assert Within(Of(s, i), a) && Within(Of(s, i), w);
      SumUpdate(rs, k, rs[k], SlotIs(a));
      SumUpdate(rs, k, rs[k], SlotIs(w));
    }
  }

  /** A control connection is kept exactly below the table's size and two per address. */
  lemma AcceptOutcome(c: Config, s: State, fd: Socket, remote: string, now: nat)
    requires Inv(c, s) && NewSockets(s.os, [fd])
    ensures var t := Step(s, c, Accept(fd, remote, now));
      if |s.incoming| < c.maxIncoming && CountRemote(s.incoming, remote) < 2
      then t == s.(incoming := s.incoming + [Incoming(fd, false, now + c.handshakeMs, remote)],
                   os := Os(s.os.open + {fd}, false))
      else t == s
  {
    AcceptedIff(c, s, fd, remote, now);
  }

  /** Exactly the incoming connections whose deadline has come are dropped. */
  lemma ExpireIncomingOutcome(c: Config, s: State, now: nat, e: Incoming)
    ensures var t := Step(s, c, ExpireIncoming(now));
      Often(t.incoming, e) == if e.deadline <= now then 0 else Often(s.incoming, e)
    ensures Step(s, c, ExpireIncoming(now)).peers == s.peers
  {
    ExpireIncomingDrops(s, now, 0, e);
    ExpireFromKeeps(s, now, 0);
  }

  lemma {:induction false} ExpireFromKeeps(s: State, now: nat, j: nat)
    ensures ExpireFrom(s, now, j).peers == s.peers
    decreases |s.incoming| - j
  {
    if j < |s.incoming| {
      if s.incoming[j].deadline <= now {
        ExpireFromKeeps(DropIncoming(s, j), now, j);
      } else {
        ExpireFromKeeps(s, now, j + 1);
      }
    }
  }

  // ----- listeners -----

  /** A destination a listener accepts: the wildcard accepts every address. */
  datatype Destination = To4(addr: nat, port: nat) | To6(addr6: nat, scope: nat, port6: nat)

  predicate Concrete(d: Destination) { if d.To4? then d.addr != 0 else d.addr6 != 0 }

  predicate Accepts(a: Address, d: Destination)
  {
    match (a, d)
    case (V4(x, p), To4(y, q)) => p == q && (x == 0 || x == y)
    case (V6(x, s, p), To6(y, t, q)) => p == q && (x == 0 || (x == y && s == t))
    case _ => false
  }

  /** Two listeners overlap exactly when some concrete address and port would reach both. */
  lemma OverlapIff(a: Address, b: Address)
    ensures Overlap(a, b) <==> exists d :: Concrete(d) && Accepts(a, d) && Accepts(b, d)
  {
    if Overlap(a, b) {
      var d :=
        if a.V4? then To4(if a.addr != 0 then a.addr else if b.addr != 0 then b.addr else 1, a.port)
        else if a.addr6 != 0 then To6(a.addr6, a.scope, a.port6)
        else if b.addr6 != 0 then To6(b.addr6, b.scope, b.port6)
        else To6(1, 0, a.port6);
      assert Concrete(d) && Accepts(a, d) && Accepts(b, d);
    }
  }
}

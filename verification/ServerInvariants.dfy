/** What holds of the whole server in every reachable state, and when it has shut down. */
module ServerInvariants {
  import opened Bytes
  import opened Bags
  import opened UdpCodec
  import opened ServerSpec
  import opened ServerSockets
  import opened ServerTables
  import opened ServerGauges

  // ----- the invariant -----

  function IncomingIs(f: Socket): Incoming -> nat { (x: Incoming) => B(x.fd == f) }
  function PeerIs(f: Socket): Peer -> nat { (p: Peer) => PeerOwns(p, f) }

  /** How many places of the server hold the socket. */
  function Owners(s: State, f: Socket): nat
  {
    Count(Fds(s.control), f) + Sum(s.incoming, IncomingIs(f)) + Sum(s.peers, PeerIs(f))
  }

  ghost predicate OwnedOnce(s: State, f: Socket) { Owners(s, f) == B(f in s.os.open) }

  /** Every open socket has one owner, every other socket none, and no socket was ever
      closed while it was not open. */
  ghost predicate Owned(s: State) { !s.os.fault && forall f: Socket :: OwnedOnce(s, f) }

  function PendingOf(p: Peer): nat { |p.pending| }
  function IdleOf(p: Peer): nat { |p.work| }
  function SessionsOf(p: Peer): nat { Sum(p.udp, IsActive) }

  /** The gauges read what the tables hold. */
  ghost predicate Metered(s: State)
  {
    Read(s.m) == Gauges(Sum(s.peers, PendingOf), Sum(s.peers, IdleOf), Sum(s.peers, SessionsOf))
  }

  ghost predicate PeersOk(c: Config, s: State)
  {
    |s.peers| == c.compiledClients && forall i :: 0 <= i < |s.peers| ==> PeerOk(c, s.peers[i])
  }

  /** At most two unfinished connections from any one address. */
  ghost predicate IncomingOk(c: Config, incoming: seq<Incoming>)
  {
    |incoming| <= c.maxIncoming && forall remote: string :: CountRemote(incoming, remote) <= 2
  }

  /** A listener set does not overlap itself. */
  ghost predicate Single(ls: seq<Listener>)
  {
    |ls| <= 2 && forall i, j :: 0 <= i < j < |ls| ==> !Overlap(ls[i].at, ls[j].at)
  }

  ghost predicate Clear(ls: seq<Listener>, svcs: seq<Service>)
  {
    forall k :: 0 <= k < |svcs| ==> !OverlapsAny(ls, svcs[k].listeners)
  }

  ghost predicate InnerClear(svcs: seq<Service>)
  {
    && (forall k :: 0 <= k < |svcs| ==> Single(svcs[k].listeners))
    && forall k, l :: 0 <= k < l < |svcs| ==> !OverlapsAny(svcs[l].listeners, svcs[k].listeners)
  }

  ghost predicate ClearOf(a: seq<Service>, b: seq<Service>)
  {
    forall k :: 0 <= k < |a| ==> Clear(a[k].listeners, b)
  }

  /** The control listeners and the TCP listeners of all services of all peers are pairwise
      non-overlapping. */
  ghost predicate Disjoint(s: State)
  {
    && Single(s.control)
    && (forall i :: 0 <= i < |s.peers| ==> Clear(s.control, s.peers[i].svcs) && InnerClear(s.peers[i].svcs))
    && forall i, j :: 0 <= i < |s.peers| && 0 <= j < |s.peers| && i != j ==> ClearOf(s.peers[i].svcs, s.peers[j].svcs)
  }

  ghost predicate Inv(c: Config, s: State)
  {
    ConfigOk(c) && PeersOk(c, s) && IncomingOk(c, s.incoming) && Owned(s) && Metered(s) && Disjoint(s)
  }

  // ----- from the whole server to one peer and back -----

  lemma PeerIsSafe(s: State, i: nat)
    requires Owned(s) && i < |s.peers|
    ensures Safe(Of(s, i))
  {
    forall f: Socket ensures Within(Of(s, i), f) {
      assert OwnedOnce(s, f);
      SumUpdate(s.peers, i, s.peers[i], PeerIs(f));
    }
  }

  lemma WithOwned(s: State, i: nat, y: Ps)
    requires Owned(s) && i < |s.peers| && Moves(Of(s, i), y)
    ensures Owned(With(s, i, y))
  {
    var t := With(s, i, y);
    forall f: Socket ensures OwnedOnce(t, f) {
      assert OwnedOnce(s, f) && Delta(Of(s, i), y, f);
      SumUpdate(s.peers, i, y.p, PeerIs(f));
    }
  }

  lemma PeerIsCovered(s: State, i: nat)
    requires Metered(s) && i < |s.peers|
    ensures Covered(Of(s, i))
  {
    SumUpdate(s.peers, i, s.peers[i], PendingOf);
    SumUpdate(s.peers, i, s.peers[i], IdleOf);
    SumUpdate(s.peers, i, s.peers[i], SessionsOf);
  }

  lemma WithMetered(s: State, i: nat, y: Ps)
    requires Metered(s) && i < |s.peers| && Tracks(Of(s, i), y)
    ensures Metered(With(s, i, y))
  {
    SumUpdate(s.peers, i, y.p, PendingOf);
    SumUpdate(s.peers, i, y.p, IdleOf);
    SumUpdate(s.peers, i, y.p, SessionsOf);
  }

  lemma SessionsFit(p: Peer)
    ensures SessionsOf(p) <= |p.udp|
  {
    SumBound(p.udp, IsActive, 1);
  }

  /** The tables are too small to saturate a gauge. */
  lemma NeverSaturated(c: Config, s: State)
    requires ConfigOk(c) && PeersOk(c, s) && Metered(s)
    ensures Roomy(s.m)
  {
    forall p | p in s.peers ensures |p.pending| <= 1024 && |p.work| <= 4096 && SessionsOf(p) <= 8192 { SessionsFit(p); }
    SumBound(s.peers, PendingOf, 1024);
    SumBound(s.peers, IdleOf, 4096);
    SumBound(s.peers, SessionsOf, 8192);
  }

  lemma WithDisjoint(s: State, i: nat, y: Ps)
    requires Disjoint(s) && i < |s.peers| && SvcsKept(s.peers[i], y.p)
    ensures Disjoint(With(s, i, y))
  {
    var t := With(s, i, y);
    forall a, b | 0 <= a < |t.peers| && 0 <= b < |t.peers| && a != b ensures ClearOf(t.peers[a].svcs, t.peers[b].svcs) {
      assert ClearOf(s.peers[a].svcs, s.peers[b].svcs);
    }
  }

  /** A step of one peer that keeps that peer's part keeps the whole. */
  lemma PeerStep(c: Config, s: State, i: nat, y: Ps)
    requires Inv(c, s) && i < |s.peers|
    requires Moves(Of(s, i), y) && Tracks(Of(s, i), y) && PeerOk(c, y.p) && SvcsKept(s.peers[i], y.p)
    ensures Inv(c, With(s, i, y))
  {
    WithOwned(s, i, y);
    WithMetered(s, i, y);
    WithDisjoint(s, i, y);
  }

  lemma Ready(c: Config, s: State, i: nat)
    requires Inv(c, s) && i < |s.peers|
    ensures Safe(Of(s, i)) && Covered(Of(s, i)) && Roomy(s.m) && PeerOk(c, s.peers[i])
  {
    PeerIsSafe(s, i);
    PeerIsCovered(s, i);
    NeverSaturated(c, s);
  }

  // ----- registration -----

  lemma OverlapSymmetric(ls: seq<Listener>, ks: seq<Listener>)
    ensures OverlapsAny(ls, ks) <==> OverlapsAny(ks, ls)
  {
    forall i, j | 0 <= i < |ls| && 0 <= j < |ks| ensures Overlap(ls[i].at, ks[j].at) == Overlap(ks[j].at, ls[i].at) {}
  }

  /** A service whose listeners overlap no existing one joins the table. */
  lemma ServiceJoins(s: State, i: nat, y: Ps, n: Service)
    requires Disjoint(s) && i < |s.peers| && y.p.svcs == s.peers[i].svcs + [n]
    requires Single(n.listeners) && !OverlapsAny(n.listeners, s.control)
    requires forall j :: 0 <= j < |s.peers| ==> Clear(n.listeners, s.peers[j].svcs)
    ensures Disjoint(With(s, i, y))
  {
    var t := With(s, i, y);
    OverlapSymmetric(n.listeners, s.control);
    forall a, b | 0 <= a < |t.peers| && 0 <= b < |t.peers| && a != b ensures ClearOf(t.peers[a].svcs, t.peers[b].svcs) {
      assert ClearOf(s.peers[a].svcs, s.peers[b].svcs);
      if b == i { JoinsAfter(s.peers[a].svcs, s.peers[i].svcs, n); }
    }
  }

  lemma JoinsAfter(a: seq<Service>, b: seq<Service>, n: Service)
    requires ClearOf(a, b) && Clear(n.listeners, a)
    ensures ClearOf(a, b + [n])
  {
    forall k | 0 <= k < |a| ensures Clear(a[k].listeners, b + [n]) {
      OverlapSymmetric(n.listeners, a[k].listeners);
    }
  }

  lemma RegisterDisjoint(c: Config, s: State, i: nat, r: Request, bound: seq<Listener>, udpFds: seq<Socket>)
    requires Inv(c, s) && i < |s.peers| && s.peers[i].active && ListenSet(r.addr, bound)
    ensures Disjoint(With(s, i, Registered(Of(s, i), c, s.control, s.peers, r, bound, udpFds)))
  {
    var x, y := Of(s, i), Registered(Of(s, i), c, s.control, s.peers, r, bound, udpFds);
    if y.p == x.p {
      WithDisjoint(s, i, y);
    } else if r.udp {
      ServiceJoins(s, i, y, Service(r.id, r.addr, r.port, true, [], udpFds, r.udpMax, r.udpIdleMs));
    } else {
      forall j | 0 <= j < |s.peers| ensures Clear(bound, s.peers[j].svcs) {
        assert !OverlapsPeer(bound, s.peers[j]);
        if !s.peers[j].active { assert PeerOk(c, s.peers[j]); }
      }
      ServiceJoins(s, i, y, Service(r.id, r.addr, r.port, false, bound, [], r.udpMax, r.udpIdleMs));
    }
  }

  lemma RegisterStep(c: Config, s: State, i: nat, r: Request, bound: seq<Listener>, udpFds: seq<Socket>)
    requires Inv(c, s) && i < |s.peers| && s.peers[i].active && ListenSet(r.addr, bound) && |udpFds| <= 2
    requires NewSockets(s.os, if r.udp then udpFds else Fds(bound))
    ensures Inv(c, With(s, i, Registered(Of(s, i), c, s.control, s.peers, r, bound, udpFds)))
  {
    var x, y := Of(s, i), Registered(Of(s, i), c, s.control, s.peers, r, bound, udpFds);
    Ready(c, s, i);
    RegisterMoves(x, c, s.control, s.peers, r, bound, udpFds);
    RegisterTracks(x, c, s.control, s.peers, r, bound, udpFds);
    RegisterOk(x, c, s.control, s.peers, r, bound, udpFds);
    WithOwned(s, i, y);
    WithMetered(s, i, y);
    RegisterDisjoint(c, s, i, r, bound, udpFds);
  }

  lemma WithTwice(s: State, i: nat, y: Ps, z: Ps)
    requires i < |s.peers|
    ensures Of(With(s, i, y), i) == y && With(With(s, i, y), i, z) == With(s, i, z)
  {
  }

  /** The reply could not be sent, which closes the peer after all. */
  lemma UnansweredStep(c: Config, s: State, i: nat, y: Ps)
    requires i < |s.peers| && Inv(c, With(s, i, y))
    ensures Inv(c, With(s, i, PeerClose(y, c)))
  {
    WithTwice(s, i, y, PeerClose(y, c));
    LoseStep(c, With(s, i, y), i);
  }

  lemma LoseStep(c: Config, s: State, i: nat)
    requires Inv(c, s) && i < |s.peers|
    ensures Inv(c, With(s, i, PeerClose(Of(s, i), c)))
  {
    var x := Of(s, i);
    Ready(c, s, i);
    PeerCloseMoves(x, c);
    PeerCloseTracks(x, c);
    PeerCloseOk(x, c);
    PeerStep(c, s, i, PeerClose(x, c));
  }

  // ----- incoming connections -----

  lemma Shorter(c: Config, xs: seq<Incoming>, k: nat)
    requires IncomingOk(c, xs) && k < |xs|
    ensures IncomingOk(c, SwapRemove(xs, k))
  {
    forall remote: string ensures CountRemote(SwapRemove(xs, k), remote) <= 2 {
      assert CountRemote(xs, remote) <= 2;
      SumSwapRemove(xs, k, IsFrom(remote));
    }
  }

  lemma DropIncomingStep(c: Config, s: State, k: nat)
    requires Inv(c, s) && k < |s.incoming|
    ensures Inv(c, DropIncoming(s, k))
  {
    var t, fd := DropIncoming(s, k), s.incoming[k].fd;
    Shorter(c, s.incoming, k);
    assert OwnedOnce(s, fd);
    SumSwapRemove(s.incoming, k, IncomingIs(fd));
    forall f: Socket ensures OwnedOnce(t, f) {
      assert OwnedOnce(s, f);
      SumSwapRemove(s.incoming, k, IncomingIs(f));
    }
  }

  lemma AcceptedStep(c: Config, s: State, fd: Socket, remote: string, now: nat)
    requires Inv(c, s) && NewSockets(s.os, [fd])
    ensures Inv(c, Accepted(s, c, fd, remote, now))
  {
    var t, n := Accepted(s, c, fd, remote, now), Incoming(fd, false, now + c.handshakeMs, remote);
    OpenedOneIs(s.os, fd, fd);
    if t.incoming != s.incoming {
      forall r: string ensures CountRemote(t.incoming, r) <= 2 {
        assert CountRemote(s.incoming, r) <= 2;
        SumAppend(s.incoming, n, IsFrom(r));
      }
      forall f: Socket ensures OwnedOnce(t, f) {
        assert OwnedOnce(s, f);
        OpenedOneIs(s.os, fd, f);
        SumAppend(s.incoming, n, IncomingIs(f));
      }
    }
  }

  lemma WaitingStep(c: Config, s: State, k: nat)
    requires Inv(c, s) && k < |s.incoming|
    ensures Inv(c, s.(incoming := s.incoming[k := s.incoming[k].(waiting := true)]))
  {
    var x := s.incoming[k].(waiting := true);
    var t := s.(incoming := s.incoming[k := x]);
    forall r: string ensures CountRemote(t.incoming, r) <= 2 {
      assert CountRemote(s.incoming, r) <= 2;
      SumUpdate(s.incoming, k, x, IsFrom(r));
    }
    forall f: Socket ensures OwnedOnce(t, f) {
      assert OwnedOnce(s, f);
      SumUpdate(s.incoming, k, x, IncomingIs(f));
    }
  }

  /** An incoming connection becomes an idle work connection of peer i. */
  lemma BindStep(c: Config, s: State, k: nat, i: nat, now: nat, sends: seq<bool>)
    requires Inv(c, s) && k < |s.incoming| && i < |s.peers| && s.peers[i].active
    requires |s.peers[i].work| < c.compiledStreams
    ensures var t := s.(incoming := SwapRemove(s.incoming, k));
      Inv(c, With(t, i, AddWork(Of(t, i), c, s.incoming[k].fd, now, sends)))
  {
    var t, fd := s.(incoming := SwapRemove(s.incoming, k)), s.incoming[k].fd;
    var x, y := Of(t, i), AddWork(Of(t, i), c, fd, now, sends);
    Ready(c, s, i);
    Shorter(c, s.incoming, k);
    BindOwned(c, s, k, i, now, sends);
    AddWorkTracks(x, c, fd, now, sends);
    WithMetered(t, i, y);
    AddWorkOk(x, c, fd, now, sends);
    WithDisjoint(t, i, y);
  }

  lemma BindOwned(c: Config, s: State, k: nat, i: nat, now: nat, sends: seq<bool>)
    requires Owned(s) && k < |s.incoming| && i < |s.peers|
    ensures var t := s.(incoming := SwapRemove(s.incoming, k));
      Owned(With(t, i, AddWork(Of(t, i), c, s.incoming[k].fd, now, sends)))
  {
    var t, fd := s.(incoming := SwapRemove(s.incoming, k)), s.incoming[k].fd;
    var x, y := Of(t, i), AddWork(Of(t, i), c, fd, now, sends);
    forall f: Socket ensures PeerOwns(x.p, f) + B(fd == f) <= B(f in x.os.open) {
      assert OwnedOnce(s, f);
      SumUpdate(s.peers, i, y.p, PeerIs(f));
      SumSwapRemove(s.incoming, k, IncomingIs(f));
    }
    AddWorkMoves(x, c, fd, now, sends);
    forall f: Socket ensures OwnedOnce(With(t, i, y), f) {
      assert OwnedOnce(s, f) && Took(x, y, f, fd);
      SumUpdate(s.peers, i, y.p, PeerIs(f));
      SumSwapRemove(s.incoming, k, IncomingIs(f));
    }
  }

  lemma LoginOwned(c: Config, s: State, k: nat, i: nat, v: Peer)
    requires Owned(s) && k < |s.incoming| && i < |s.peers| && !s.peers[i].active && Blank(s.peers[i])
    requires v == Vacant(c).(active := true, fd := s.incoming[k].fd, session := v.session, auth := v.auth, ids := v.ids)
    ensures Owned(s.(incoming := SwapRemove(s.incoming, k), peers := s.peers[i := v]))
  {
    var t := s.(incoming := SwapRemove(s.incoming, k), peers := s.peers[i := v]);
    forall f: Socket ensures OwnedOnce(t, f) {
      assert OwnedOnce(s, f);
      VacantOwns(c, f);
      BlankOwns(s.peers[i], f);
      SumUpdate(s.peers, i, v, PeerIs(f));
      SumSwapRemove(s.incoming, k, IncomingIs(f));
    }
  }

  /** An incoming connection becomes the control connection of a new peer. */
  lemma LoginStep(c: Config, s: State, k: nat, i: nat, v: Peer)
    requires Inv(c, s) && k < |s.incoming| && i < |s.peers| && !s.peers[i].active
    requires v == Vacant(c).(active := true, fd := s.incoming[k].fd, session := v.session, auth := v.auth, ids := v.ids)
    ensures Inv(c, s.(incoming := SwapRemove(s.incoming, k), peers := s.peers[i := v]))
  {
    var y := Ps(v, s.os, s.m);
    Shorter(c, s.incoming, k);
    VacantOk(c, v);
    SumZero(v.udp, IsActive);
    assert PeerOk(c, s.peers[i]);
    WithMetered(s, i, y);
    WithDisjoint(s, i, y);
    LoginOwned(c, s, k, i, v);
  }

  lemma {:induction false} NoOpenSlot(rs: seq<Slot>, f: Socket)
    requires Sum(rs, IsOpen) == 0
    ensures Sum(rs, SlotIs(f)) == 0
    decreases |rs|
  {
    if rs != [] { NoOpenSlot(rs[..|rs| - 1], f); }
  }

  lemma BlankOwns(p: Peer, f: Socket)
    requires !p.active && Blank(p)
    ensures PeerOwns(p, f) == 0
  {
    NoOpenSlot(p.relays, f);
  }

  lemma ArrivedStep(c: Config, s: State, k: nat, broken: bool, frame: ServerSpec.Frame, good: bool,
                    session: u64, auth: Auth, now: nat, sends: seq<bool>)
    requires Inv(c, s) && k < |s.incoming|
    ensures Inv(c, Arrived(s, c, k, broken, frame, good, session, auth, now, sends))
  {
    var x := s.incoming[k];
    DropIncomingStep(c, s, k);
    if !broken && good {
      if !x.waiting && frame == HelloFrame {
        WaitingStep(c, s, k);
      } else if !x.waiting && frame == BindFrame {
        var i := FindSession(s.peers, session);
        if i < |s.peers| && |s.peers[i].work| != c.compiledStreams {
          assert PeerOk(c, s.peers[i]);
          BindStep(c, s, k, i, now, sends);
        }
      } else if x.waiting && frame == AuthFrame {
        var i := FreePeer(s.peers, c.maxClients);
        if i < |s.peers| {
          LoginStep(c, s, k, i, Vacant(c).(active := true, fd := x.fd, session := session, auth := auth,
                                           ids := Counter(now % U64_LIMIT, false)));
        }
      }
    }
  }

  lemma {:induction false} ExpireFromStep(c: Config, s: State, now: nat, j: nat)
    requires Inv(c, s)
    ensures Inv(c, ExpireFrom(s, now, j))
    decreases |s.incoming| - j
  {
    if j < |s.incoming| {
      if s.incoming[j].deadline <= now {
        DropIncomingStep(c, s, j);
        ExpireFromStep(c, DropIncoming(s, j), now, j);
      } else {
        ExpireFromStep(c, s, now, j + 1);
      }
    }
  }

  // ----- every step -----

  lemma AnswerStep(c: Config, s: State, i: nat, k: nat, broken: bool, ready: bool)
    requires Inv(c, s) && i < |s.peers| && k < |s.peers[i].starting|
    ensures Inv(c, With(s, i, if broken then DropStarting(Of(s, i), k) else FinishStarting(Of(s, i), k, ready)))
  {
    var x := Of(s, i);
    var y := if broken then DropStarting(x, k) else FinishStarting(x, k, ready);
    Ready(c, s, i);
    FinishStartingTracks(x, k, ready);
    if broken {
      DropStartingMoves(x, k);
      DropStartingFewer(x, k);
    } else {
      FinishStartingMoves(x, k, ready);
      FinishStartingFewer(x, k, ready);
    }
    FewerOk(c, x.p, y.p);
    PeerStep(c, s, i, y);
  }

  lemma ConnectStep(c: Config, s: State, i: nat, svc: nat, fd: Socket, ok: bool, now: nat, sends: seq<bool>)
    requires Inv(c, s) && i < |s.peers| && svc < |s.peers[i].svcs| && NewSockets(s.os, [fd])
    ensures Inv(c, With(s, i, AddPending(Of(s, i), c, fd, svc, ok, now, sends)))
  {
    var x := Of(s, i);
    Ready(c, s, i);
    AddPendingMoves(x, c, fd, svc, ok, now, sends);
    AddPendingTracks(x, c, fd, svc, ok, now, sends);
    AddPendingOk(x, c, fd, svc, ok, now, sends);
    PeerStep(c, s, i, AddPending(x, c, fd, svc, ok, now, sends));
  }

  lemma DatagramStep(c: Config, s: State, i: nat, svc: nat, ep: Endpoint, oversized: bool, sent: bool, now: nat)
    requires Inv(c, s) && i < |s.peers| && |ep.addr| == 16
    ensures Inv(c, With(s, i, UdpIn(Of(s, i), c, svc, ep, oversized, sent, now)))
  {
    var x := Of(s, i);
    Ready(c, s, i);
    UdpInMoves(x, c, svc, ep, oversized, sent, now);
    UdpInTracks(x, c, svc, ep, oversized, sent, now);
    UdpInOk(x, c, svc, ep, oversized, sent, now);
    PeerStep(c, s, i, UdpIn(x, c, svc, ep, oversized, sent, now));
  }

  lemma ReplyStep(c: Config, s: State, i: nat, d: Datagram, sent: bool, now: nat)
    requires Inv(c, s) && i < |s.peers| && |d.peer.addr| == 16
    ensures Inv(c, With(s, i, UdpOut(Of(s, i), c, d, sent, now)))
  {
    var x := Of(s, i);
    Ready(c, s, i);
    UdpOutMoves(x, c, d, sent, now);
    UdpOutTracks(x, c, d, sent, now);
    UdpOutOk(x, c, d, sent, now);
    PeerStep(c, s, i, UdpOut(x, c, d, sent, now));
  }

  lemma RelayStep(c: Config, s: State, i: nat, k: nat)
    requires Inv(c, s) && i < |s.peers| && k < |s.peers[i].relays|
    ensures Inv(c, With(s, i, CloseRelay(Of(s, i), k)))
  {
    var x := Of(s, i);
    Ready(c, s, i);
    CloseRelayMoves(x, k);
    CloseRelayFewer(x, k);
    FewerOk(c, x.p, CloseRelay(x, k).p);
    PeerStep(c, s, i, CloseRelay(x, k));
  }

  lemma SweepStep(c: Config, s: State, i: nat, now: nat, silent: bool)
    requires Inv(c, s) && i < |s.peers|
    ensures Inv(c, With(s, i, Sweep(Of(s, i), c, now, silent)))
  {
    var x := Of(s, i);
    Ready(c, s, i);
    SweepMoves(x, c, now, silent);
    SweepTracks(x, c, now, silent);
    SweepOk(x, c, now, silent);
    PeerStep(c, s, i, Sweep(x, c, now, silent));
  }

  lemma ConnectionEventKeeps(c: Config, s: State, e: Event)
    requires Inv(c, s) && (e.Accept? || e.Arrive? || e.ExpireIncoming?)
    ensures Inv(c, Step(s, c, e))
  {
    match e
    case Accept(fd, remote, now) =>
      if NewSockets(s.os, [fd]) { AcceptedStep(c, s, fd, remote, now); }
    case Arrive(fd, broken, frame, good, session, auth, now, sends) =>
      var k := FindIncoming(s.incoming, fd);
      if k < |s.incoming| { ArrivedStep(c, s, k, broken, frame, good, session, auth, now, sends); }
    case ExpireIncoming(now) => ExpireFromStep(c, s, now, 0);
  }

  lemma RegistersKeeps(c: Config, s: State, e: Event)
    requires Inv(c, s) && e.Registers?
    ensures Inv(c, Step(s, c, e))
  {
    var (i, r) := (e.rpeer, e.req);
    if i < |s.peers| && s.peers[i].active && ListenSet(r.addr, e.bound) && |e.udpFds| <= 2
       && NewSockets(s.os, if r.udp then e.udpFds else Fds(e.bound)) {
      RegisterStep(c, s, i, r, e.bound, e.udpFds);
      UnansweredStep(c, s, i, Registered(Of(s, i), c, s.control, s.peers, r, e.bound, e.udpFds));
    }
  }

  lemma AnswerKeeps(c: Config, s: State, e: Event)
    requires Inv(c, s) && e.Answer?
    ensures Inv(c, Step(s, c, e))
  {
    if e.speer < |s.peers| {
      var k := FindStarting(s.peers[e.speer].starting, e.swork);
      if k < |s.peers[e.speer].starting| { AnswerStep(c, s, e.speer, k, e.sbroken, e.ready); }
    }
  }

  lemma ConnectKeeps(c: Config, s: State, e: Event)
    requires Inv(c, s) && e.Connect?
    ensures Inv(c, Step(s, c, e))
  {
    if e.cpeer < |s.peers| && e.csvc < |s.peers[e.cpeer].svcs| && NewSockets(s.os, [e.cfd]) {
      ConnectStep(c, s, e.cpeer, e.csvc, e.cfd, e.endpointsOk, e.cnow, e.csends);
    }
  }

  lemma ClosingEventKeeps(c: Config, s: State, e: Event)
    requires Inv(c, s) && (e.Lose? || e.Relay?)
    ensures Inv(c, Step(s, c, e))
  {
    match e
    case Lose(i) => if i < |s.peers| { LoseStep(c, s, i); }
    case Relay(i, k) => if i < |s.peers| && k < |s.peers[i].relays| { RelayStep(c, s, i, k); }
  }

  lemma ExpirePeerKeeps(c: Config, s: State, e: Event)
    requires Inv(c, s) && e.ExpirePeer?
    ensures Inv(c, Step(s, c, e))
  {
    if e.xpeer < |s.peers| { SweepStep(c, s, e.xpeer, e.xnow, e.silent); }
  }

  lemma SessionEventKeeps(c: Config, s: State, e: Event)
    requires Inv(c, s) && (e.DatagramIn? || e.Reply?)
    ensures Inv(c, Step(s, c, e))
  {
    match e
    case DatagramIn(i, svc, ep, oversized, sent, now) =>
      if i < |s.peers| && LegalEndpoint(ep) { DatagramStep(c, s, i, svc, ep, oversized, sent, now); }
    case Reply(i, d, sent, now) => if i < |s.peers| && |d.peer.addr| == 16 { ReplyStep(c, s, i, d, sent, now); }
  }

  /** Every event, with every outcome of every call that can fail, keeps the invariant. */
  lemma StepKeeps(c: Config, s: State, e: Event)
    requires Inv(c, s)
    ensures Inv(c, Step(s, c, e))
  {
    if e.Registers? { RegistersKeeps(c, s, e); }
    else if e.Accept? || e.Arrive? || e.ExpireIncoming? { ConnectionEventKeeps(c, s, e); }
    else if e.Answer? { AnswerKeeps(c, s, e); }
    else if e.Connect? { ConnectKeeps(c, s, e); }
    else if e.DatagramIn? || e.Reply? { SessionEventKeeps(c, s, e); }
    else if e.ExpirePeer? { ExpirePeerKeeps(c, s, e); }
    else { ClosingEventKeeps(c, s, e); }
  }
}

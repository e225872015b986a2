/** Who owns each socket, one peer at a time: a step of a peer changes the open sockets by
    exactly what it changes in the peer's tables, and closes nothing that is not open.
    Ownership is counted socket by socket. */
module ServerSockets {
  import opened Bags
  import opened Metrics
  import opened ServerSpec

  // ----- how often a socket is owned -----

  function B(b: bool): nat { if b then 1 else 0 }

  function Is(f: Socket): Socket -> nat { (x: Socket) => B(x == f) }
  function Count(fds: seq<Socket>, f: Socket): nat { Sum(fds, Is(f)) }

  function ListenIs(f: Socket): Service -> nat { (s: Service) => Count(Fds(s.listeners), f) }
  function UdpFdIs(f: Socket): Service -> nat { (s: Service) => Count(s.udpFds, f) }
  function PendingIs(f: Socket): Pending -> nat { (x: Pending) => B(x.fd == f) }
  function StartingIs(f: Socket): Starting -> nat { (x: Starting) => B(x.pending.fd == f) + B(x.work == f) }
  function SlotIs(f: Socket): Slot -> nat
  {
    (x: Slot) => if x.Open? then B(x.direct == f) + B(x.work == f) else 0
  }

  function QueueOwns(p: Peer, f: Socket): nat
  {
    Count(p.work, f) + Sum(p.pending, PendingIs(f)) + Sum(p.starting, StartingIs(f)) + Sum(p.relays, SlotIs(f))
  }

  function ServicesOwn(p: Peer, f: Socket): nat { Sum(p.svcs, ListenIs(f)) + Sum(p.svcs, UdpFdIs(f)) }

  /** How many places of a peer's tables hold the socket. */
  function PeerOwns(p: Peer, f: Socket): nat
  {
    B(p.active && p.fd == f) + ServicesOwn(p, f) + QueueOwns(p, f)
  }

  ghost predicate Within(x: Ps, f: Socket) { PeerOwns(x.p, f) <= B(f in x.os.open) }

  /** Nothing was closed twice, and the peer owns open sockets only, each once. */
  ghost predicate Safe(x: Ps) { !x.os.fault && forall f: Socket :: Within(x, f) }

  ghost predicate Delta(x: Ps, y: Ps, f: Socket)
  {
    B(f in y.os.open) + PeerOwns(x.p, f) == B(f in x.os.open) + PeerOwns(y.p, f)
  }

  /** From x to y, the open sockets change by exactly what the peer owns more or less, and
      nothing is closed twice. */
  ghost predicate Moves(x: Ps, y: Ps) { !y.os.fault && forall f: Socket :: Delta(x, y, f) }

  lemma MovesSafe(x: Ps, y: Ps)
    requires Safe(x) && Moves(x, y)
    ensures Safe(y)
  {
    forall f: Socket ensures Within(y, f) { assert Delta(x, y, f) && Within(x, f); }
  }

  lemma MovesChain(x: Ps, y: Ps, z: Ps)
    requires Moves(x, y) && Moves(y, z)
    ensures Moves(x, z)
  {
    forall f: Socket ensures Delta(x, z, f) { assert Delta(x, y, f) && Delta(y, z, f); }
  }

  // ----- closing and opening -----

  lemma CountLast(fds: seq<Socket>, f: Socket)
    requires fds != []
    ensures Count(fds, f) == Count(fds[..|fds| - 1], f) + B(fds[|fds| - 1] == f)
  {
  }

  ghost predicate Has(os: Os, fds: seq<Socket>, f: Socket) { Count(fds, f) <= B(f in os.open) }

  lemma {:induction false} CloseAllIs(os: Os, fds: seq<Socket>, f: Socket)
    requires !os.fault && forall g: Socket :: Has(os, fds, g)
    ensures !CloseAll(os, fds).fault
    ensures B(f in CloseAll(os, fds).open) + Count(fds, f) == B(f in os.open)
    decreases |fds|
  {
    if fds != [] {
      var init, last := fds[..|fds| - 1], fds[|fds| - 1];
      forall g: Socket ensures Has(os, init, g) { assert Has(os, fds, g); CountLast(fds, g); }
      CountLast(fds, f);
      CountLast(fds, last);
      CloseAllIs(os, init, f);
      CloseAllIs(os, init, last);
      assert Has(os, fds, last);
    }
  }

  lemma {:induction false} CountMember(fds: seq<Socket>, f: Socket)
    ensures f !in fds ==> Count(fds, f) == 0
    ensures f in fds ==> Count(fds, f) >= 1
    decreases |fds|
  {
    if fds != [] {
      var init, last := fds[..|fds| - 1], fds[|fds| - 1];
      CountLast(fds, f);
      CountMember(init, f);
      assert fds == init + [last];
    }
  }

  lemma {:induction false} CountDistinct(fds: seq<Socket>, f: Socket)
    requires forall i, j :: 0 <= i < j < |fds| ==> fds[i] != fds[j]
    ensures Count(fds, f) == B(f in fds)
    decreases |fds|
  {
    CountMember(fds, f);
    if fds != [] {
      var init, last := fds[..|fds| - 1], fds[|fds| - 1];
      CountLast(fds, f);
      CountDistinct(init, f);
      assert last !in init;
    }
  }

  /** Opening new sockets adds each of them once; closing them again undoes it. */
  lemma OpenedIs(os: Os, fds: seq<Socket>, f: Socket)
    requires !os.fault && NewSockets(os, fds)
    ensures B(f in Opened(os, fds).open) == B(f in os.open) + Count(fds, f)
    ensures CloseAll(Opened(os, fds), fds) == os
  {
    CountDistinct(fds, f);
    var n := Opened(os, fds);
    forall g: Socket ensures Has(n, fds, g) { CountDistinct(fds, g); }
    var z := CloseAll(n, fds);
    forall g: Socket ensures g in z.open <==> g in os.open { CloseAllIs(n, fds, g); CountDistinct(fds, g); }
    CloseAllIs(n, fds, f);
    assert z.open == os.open;
  }

  lemma OneIs(a: Socket, f: Socket)
    ensures Count([a], f) == B(a == f)
  {
    SumOne(a, Is(f));
  }

  lemma TwoIs(a: Socket, b: Socket, f: Socket)
    ensures Count([a, b], f) == B(a == f) + B(b == f)
  {
    OneIs(a, f);
    assert [a, b][..1] == [a];
  }

  /** A public connection that is accepted and refused at once leaves no trace. */
  lemma OpenedOneIs(os: Os, fd: Socket, f: Socket)
    requires !os.fault && NewSockets(os, [fd])
    ensures B(f in Opened(os, [fd]).open) == B(f in os.open) + B(fd == f)
    ensures CloseFd(Opened(os, [fd]), fd) == os
  {
    OpenedIs(os, [fd], f);
    OneIs(fd, f);
    assert [fd][..0] == [];
  }

  lemma {:induction false} FlatCounts<T>(xs: seq<T>, g: T -> seq<Socket>, h: T -> nat, f: Socket)
    requires forall x: T :: x in xs ==> h(x) == Count(g(x), f)
    ensures Count(Flat(xs, g), f) == Sum(xs, h)
    decreases |xs|
  {
    if xs != [] {
      FlatCounts(xs[..|xs| - 1], g, h, f);
      SumConcat(Flat(xs[..|xs| - 1], g), g(xs[|xs| - 1]), Is(f));
    }
  }

  lemma QueueFdsCount(p: Peer, f: Socket)
    ensures Count(QueueFds(p), f) == QueueOwns(p, f)
  {
    forall x: Pending | x in p.pending ensures PendingIs(f)(x) == Count(PendingFds(x), f) { OneIs(x.fd, f); }
    FlatCounts(p.pending, PendingFds, PendingIs(f), f);
    forall x: Starting | x in p.starting ensures StartingIs(f)(x) == Count(StartingFds(x), f) {
      TwoIs(x.pending.fd, x.work, f);
    }
    FlatCounts(p.starting, StartingFds, StartingIs(f), f);
    forall x: Slot | x in p.relays ensures SlotIs(f)(x) == Count(SlotFds(x), f) {
      if x.Open? { TwoIs(x.direct, x.work, f); }
    }
    FlatCounts(p.relays, SlotFds, SlotIs(f), f);
    SumConcat(p.work, Flat(p.pending, PendingFds), Is(f));
    SumConcat(p.work + Flat(p.pending, PendingFds), Flat(p.starting, StartingFds), Is(f));
    SumConcat(p.work + Flat(p.pending, PendingFds) + Flat(p.starting, StartingFds), Flat(p.relays, SlotFds), Is(f));
  }

  lemma ServiceFdsCount(p: Peer, f: Socket)
    ensures Count(ServiceFds(p), f) == B(p.fd == f) + ServicesOwn(p, f)
  {
    FlatCounts(p.svcs, ListenFds, ListenIs(f), f);
    FlatCounts(p.svcs, UdpFdsOf, UdpFdIs(f), f);
    OneIs(p.fd, f);
    SumConcat([p.fd], Flat(p.svcs, ListenFds), Is(f));
    SumConcat([p.fd] + Flat(p.svcs, ListenFds), Flat(p.svcs, UdpFdsOf), Is(f));
  }

  lemma PeerFdsCount(p: Peer, f: Socket)
    requires p.active
    ensures Count(PeerFds(p), f) == PeerOwns(p, f)
  {
    ServiceFdsCount(p, f);
    QueueFdsCount(p, f);
    SumConcat(ServiceFds(p), QueueFds(p), Is(f));
  }

  lemma VacantOwns(c: Config, f: Socket)
    ensures PeerOwns(Vacant(c), f) == 0
  {
    SumZero(Vacant(c).relays, SlotIs(f));
  }

  /** peer_close closes every socket of the peer exactly once. */
  lemma PeerCloseMoves(x: Ps, c: Config)
    requires Safe(x)
    ensures Moves(x, PeerClose(x, c))
  {
    if x.p.active {
      var y, fds := PeerClose(x, c), PeerFds(x.p);
      forall f: Socket ensures Has(x.os, fds, f) { PeerFdsCount(x.p, f); assert Within(x, f); }
      CloseAllIs(x.os, fds, 0);
      forall f: Socket ensures Delta(x, y, f) {
        CloseAllIs(x.os, fds, f);
        PeerFdsCount(x.p, f);
        VacantOwns(c, f);
      }
    }
  }

  // ----- moves inside a peer -----

  /** A step that closes the two sockets a and b of the peer. */
  lemma CloseTwoMoves(x: Ps, y: Ps, a: Socket, b: Socket)
    requires Safe(x) && y.os == CloseFd(CloseFd(x.os, a), b)
    requires forall f: Socket :: Gave(x.p, y.p, f, a, b)
    ensures Moves(x, y)
  {
    assert Gave(x.p, y.p, a, a, b) && Within(x, a);
    assert Gave(x.p, y.p, b, a, b) && Within(x, b);
    forall f: Socket ensures Delta(x, y, f) { assert Gave(x.p, y.p, f, a, b); }
  }

  ghost predicate Gave(p: Peer, q: Peer, f: Socket, a: Socket, b: Socket)
  {
    PeerOwns(q, f) + B(a == f) + B(b == f) == PeerOwns(p, f)
  }

  lemma MatchOneCount(x: Ps, c: Config, now: nat, sent: bool, f: Socket)
    requires x.p.pending != [] && x.p.work != []
    ensures var pc, w, q := x.p.pending[0], x.p.work[|x.p.work| - 1], MatchOne(x, c, now, sent).p;
      QueueOwns(q, f) + (if sent then 0 else B(pc.fd == f) + B(w == f)) == QueueOwns(x.p, f)
  {
    var p := x.p;
    var pc, w := p.pending[0], p.work[|p.work| - 1];
    SumFirst(p.pending, PendingIs(f));
    if sent { SumAppend(p.starting, Starting(pc, w, NextId(p.ids).next, now + c.connectMs), StartingIs(f)); }
  }

  lemma MatchOneMoves(x: Ps, c: Config, now: nat, sent: bool)
    requires Safe(x) && x.p.pending != [] && x.p.work != []
    ensures Moves(x, MatchOne(x, c, now, sent))
  {
    var pc, w, y := x.p.pending[0], x.p.work[|x.p.work| - 1], MatchOne(x, c, now, sent);
    if sent {
      forall f: Socket ensures Delta(x, y, f) { MatchOneCount(x, c, now, sent, f); }
    } else {
      forall f: Socket ensures Gave(x.p, y.p, f, pc.fd, w) { MatchOneCount(x, c, now, sent, f); }
      CloseTwoMoves(x, y, pc.fd, w);
    }
  }

  lemma {:induction false} MatchMoves(x: Ps, c: Config, now: nat, sends: seq<bool>)
    requires Safe(x)
    ensures Moves(x, Match(x, c, now, sends))
    decreases |x.p.pending|
  {
    if CanMatch(x.p, c) {
      var sent := sends == [] || sends[0];
      var y, rest := MatchOne(x, c, now, sent), if sends == [] then [] else sends[1..];
      MatchOneMoves(x, c, now, sent);
      MovesSafe(x, y);
      MatchMoves(y, c, now, rest);
      MovesChain(x, y, Match(y, c, now, rest));
    }
  }

  ghost predicate Took(x: Ps, y: Ps, f: Socket, fd: Socket)
  {
    B(f in y.os.open) + PeerOwns(x.p, f) + B(fd == f) == B(f in x.os.open) + PeerOwns(y.p, f)
  }

  /** A work connection handed over by the table of incoming connections. */
  lemma AddWorkMoves(x: Ps, c: Config, fd: Socket, now: nat, sends: seq<bool>)
    requires !x.os.fault && forall f: Socket :: PeerOwns(x.p, f) + B(fd == f) <= B(f in x.os.open)
    ensures !AddWork(x, c, fd, now, sends).os.fault
    ensures forall f: Socket :: Took(x, AddWork(x, c, fd, now, sends), f, fd)
  {
    var y := Ps(x.p.(work := x.p.work + [fd]), x.os, Inc(x.m, WORK_IDLE));
    var z := AddWork(x, c, fd, now, sends);
    forall f: Socket ensures PeerOwns(y.p, f) == PeerOwns(x.p, f) + B(fd == f) { SumAppend(x.p.work, fd, Is(f)); }
    forall f: Socket ensures Within(y, f) {}
    MatchMoves(y, c, now, sends);
    forall f: Socket ensures Took(x, z, f, fd) { assert Delta(y, z, f); }
  }

  lemma QueuedMoves(x: Ps, n: Pending, m: Counters)
    requires Safe(x) && NewSockets(x.os, [n.fd])
    ensures Moves(x, Ps(x.p.(pending := x.p.pending + [n]), Opened(x.os, [n.fd]), m))
  {
    var y := Ps(x.p.(pending := x.p.pending + [n]), Opened(x.os, [n.fd]), m);
    forall f: Socket ensures Delta(x, y, f) {
      OpenedOneIs(x.os, n.fd, f);
      SumAppend(x.p.pending, n, PendingIs(f));
    }
  }

  lemma AddPendingMoves(x: Ps, c: Config, fd: Socket, svc: nat, ok: bool, now: nat, sends: seq<bool>)
    requires Safe(x) && NewSockets(x.os, [fd])
    ensures Moves(x, AddPending(x, c, fd, svc, ok, now, sends))
  {
    var n := Pending(fd, svc, now + c.connectMs);
    var y := Ps(x.p.(pending := x.p.pending + [n]), Opened(x.os, [fd]), Inc(x.m, PENDING_STREAMS));
    OpenedOneIs(x.os, fd, fd);
    QueuedMoves(x, n, y.m);
    MovesSafe(x, y);
    MatchMoves(y, c, now, sends);
    MovesChain(x, y, Match(y, c, now, sends));
  }

  lemma DropStartingMoves(x: Ps, i: nat)
    requires Safe(x) && i < |x.p.starting|
    ensures Moves(x, DropStarting(x, i))
  {
    var s, y := x.p.starting[i], DropStarting(x, i);
    forall f: Socket ensures Gave(x.p, y.p, f, s.pending.fd, s.work) {
      SumSwapRemove(x.p.starting, i, StartingIs(f));
    }
    CloseTwoMoves(x, y, s.pending.fd, s.work);
  }

  lemma FinishStartingMoves(x: Ps, i: nat, ready: bool)
    requires Safe(x) && i < |x.p.starting|
    ensures Moves(x, FinishStarting(x, i, ready))
  {
    var s, k, y := x.p.starting[i], FreeSlot(x.p.relays), FinishStarting(x, i, ready);
    if ready && k < |x.p.relays| {
      forall f: Socket ensures Delta(x, y, f) {
        SumSwapRemove(x.p.starting, i, StartingIs(f));
        SumUpdate(x.p.relays, k, Open(s.pending.fd, s.work, s.id), SlotIs(f));
      }
    } else {
      DropStartingMoves(x, i);
    }
  }

  lemma CloseRelayMoves(x: Ps, k: nat)
    requires Safe(x) && k < |x.p.relays|
    ensures Moves(x, CloseRelay(x, k))
  {
    match x.p.relays[k]
    case Closed =>
    case Open(d, w, _) =>
      var y := CloseRelay(x, k);
      forall f: Socket ensures Gave(x.p, y.p, f, d, w) { SumUpdate(x.p.relays, k, Closed, SlotIs(f)); }
      CloseTwoMoves(x, y, d, w);
  }

  lemma ExpireOneMoves(x: Ps, j: nat)
    requires Safe(x) && j < |x.p.pending|
    ensures Moves(x, ExpireOne(x, j))
  {
    var fd, y := x.p.pending[j].fd, ExpireOne(x, j);
    forall f: Socket ensures PeerOwns(y.p, f) + B(fd == f) == PeerOwns(x.p, f) {
      SumSwapRemove(x.p.pending, j, PendingIs(f));
    }
    assert Within(x, fd);
    forall f: Socket ensures Delta(x, y, f) {}
  }

  lemma {:induction false} ExpirePendingMoves(x: Ps, now: nat, j: nat)
    requires Safe(x)
    ensures Moves(x, ExpirePending(x, now, j))
    decreases |x.p.pending| - j
  {
    if j < |x.p.pending| {
      if x.p.pending[j].deadline < now {
        var y := ExpireOne(x, j);
        ExpireOneMoves(x, j);
        MovesSafe(x, y);
        ExpirePendingMoves(y, now, j);
        MovesChain(x, y, ExpirePending(y, now, j));
      } else {
        ExpirePendingMoves(x, now, j + 1);
      }
    }
  }

  lemma {:induction false} ExpireStartingMoves(x: Ps, now: nat, j: nat)
    requires Safe(x)
    ensures Moves(x, ExpireStarting(x, now, j))
    decreases |x.p.starting| - j
  {
    if j < |x.p.starting| {
      if x.p.starting[j].deadline <= now {
        var d := DropStarting(x, j);
        var y := d.(m := Inc(d.m, STREAMS_FAILED));
        DropStartingMoves(x, j);
        SameSockets(x, d, y);
        MovesSafe(x, y);
        ExpireStartingMoves(y, now, j);
        MovesChain(x, y, ExpireStarting(y, now, j));
      } else {
        ExpireStartingMoves(x, now, j + 1);
      }
    }
  }

  lemma SameSockets(x: Ps, d: Ps, y: Ps)
    requires Moves(x, d) && y.p == d.p && y.os == d.os
    ensures Moves(x, y)
  {
    forall f: Socket ensures Delta(x, y, f) { assert Delta(x, d, f); }
  }

  // ----- UDP, registration and the sweep -----

  /** Steps of the session table own no sockets. */
  lemma UdpMoves(x: Ps, y: Ps)
    requires Safe(x) && y.os == x.os && y.p == x.p.(udp := y.p.udp, ids := y.p.ids)
    ensures Moves(x, y)
  {
    forall f: Socket ensures Delta(x, y, f) {}
  }

  lemma UdpInMoves(x: Ps, c: Config, svc: nat, ep: UdpCodec.Endpoint, oversized: bool, sent: bool, now: nat)
    requires Safe(x) && |ep.addr| == 16
    ensures Moves(x, UdpIn(x, c, svc, ep, oversized, sent, now))
  {
    if svc >= |x.p.svcs| || oversized {
      UdpMoves(x, x);
    } else {
      var y := UdpAdmit(x, svc, ep, now).0;
      UdpMoves(x, y);
      MovesSafe(x, y);
      PeerCloseMoves(y, c);
      MovesChain(x, y, PeerClose(y, c));
    }
  }

  lemma UdpOutMoves(x: Ps, c: Config, d: UdpCodec.Datagram, sent: bool, now: nat)
    requires Safe(x) && |d.peer.addr| == 16
    ensures Moves(x, UdpOut(x, c, d, sent, now))
  {
    var y := UdpReply(x, c.window, d, now).0;
    UdpMoves(x, y);
    MovesSafe(x, y);
    PeerCloseMoves(x, c);
    PeerCloseMoves(y, c);
    MovesChain(x, y, PeerClose(y, c));
  }

  lemma {:induction false} UdpExpireKeeps(x: Ps, now: nat, j: nat)
    ensures UdpExpire(x, now, j).os == x.os
    ensures UdpExpire(x, now, j).p == x.p.(udp := UdpExpire(x, now, j).p.udp)
    decreases |x.p.udp| - j
  {
    if j < |x.p.udp| {
      if UdpExpired(x.p, x.p.udp[j], now) {
        UdpExpireKeeps(x.(p := x.p.(udp := x.p.udp[j := Idle]), m := Dec(x.m, UDP_ACTIVE)), now, j + 1);
      } else {
        UdpExpireKeeps(x, now, j + 1);
      }
    }
  }

  lemma SweepMoves(x: Ps, c: Config, now: nat, silent: bool)
    requires Safe(x)
    ensures Moves(x, Sweep(x, c, now, silent))
  {
    if x.p.active {
      var a := ExpirePending(x, now, 0);
      ExpirePendingMoves(x, now, 0);
      MovesSafe(x, a);
      var b := ExpireStarting(a, now, 0);
      ExpireStartingMoves(a, now, 0);
      MovesSafe(a, b);
      MovesChain(x, a, b);
      var d := UdpExpire(b, now, 0);
      UdpExpireKeeps(b, now, 0);
      UdpMoves(b, d);
      MovesSafe(b, d);
      MovesChain(x, b, d);
      PeerCloseMoves(d, c);
      MovesChain(x, d, PeerClose(d, c));
    } else {
      UdpMoves(x, x);
    }
  }

  /** A registered service owns exactly the sockets that were bound for it. */
  lemma NewServiceMoves(x: Ps, s: Service, fds: seq<Socket>)
    requires Safe(x) && NewSockets(x.os, fds)
    requires (s.listeners == [] && s.udpFds == fds) || (Fds(s.listeners) == fds && s.udpFds == [])
    ensures Moves(x, Ps(x.p.(svcs := x.p.svcs + [s]), Opened(x.os, fds), x.m))
  {
    var y := Ps(x.p.(svcs := x.p.svcs + [s]), Opened(x.os, fds), x.m);
    forall f: Socket ensures Delta(x, y, f) {
      OpenedIs(x.os, fds, f);
      SumAppend(x.p.svcs, s, ListenIs(f));
      SumAppend(x.p.svcs, s, UdpFdIs(f));
    }
  }

  lemma RegisterMoves(x: Ps, c: Config, control: seq<Listener>, peers: seq<Peer>, r: Request,
                      bound: seq<Listener>, udpFds: seq<Socket>)
    requires Safe(x) && NewSockets(x.os, if r.udp then udpFds else Fds(bound))
    ensures Moves(x, Registered(x, c, control, peers, r, bound, udpFds))
  {
    var y := Registered(x, c, control, peers, r, bound, udpFds);
    if y.p == x.p {
      if !r.udp { OpenedIs(x.os, Fds(bound), 0); }
      UdpMoves(x, y);
    } else if r.udp {
      NewServiceMoves(x, Service(r.id, r.addr, r.port, true, [], udpFds, r.udpMax, r.udpIdleMs), udpFds);
    } else {
      NewServiceMoves(x, Service(r.id, r.addr, r.port, false, bound, [], r.udpMax, r.udpIdleMs), Fds(bound));
    }
  }
}

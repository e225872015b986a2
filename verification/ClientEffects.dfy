/** What the events of a client session do, told from outside. */
module ClientEffects {
  import opened Bytes
  import opened Bags
  import opened Metrics
  import opened UdpCodec
  import opened ServerSpec
  import opened ServerSockets
  import opened ServerTables
  import opened ServerOutcomes
  import opened ClientSpec
  import opened ClientSafety
  import opened ClientOutcomes
  import ReplayWindow

  // ----- work connections and relays -----

  /** A work connection that was made is kept exactly while the table has room. */
  lemma NewWorkOutcome(l: Limits, x: Client, fd: Socket)
    requires Inv(l, x) && NewSockets(x.os, [fd])
    ensures var y := ClientStep(x, l, NewWork(fd));
      if |x.work| < l.streams
      then y == x.(work := x.work + [fd], os := Os(x.os.open + {fd}, false), m := Inc(x.m, WORK_IDLE))
      else y == x
  {
  }

  /** The connection has left the idle table, once. */
  ghost predicate NoLongerIdle(x: Client, y: Client, fd: Socket)
  {
    && fd !in y.work && y.udp == x.udp
    && forall e: Socket :: Often(y.work, e) == if e == fd then 0 else Often(x.work, e)
  }

  lemma IdleOnce(x: Client, i: nat)
    requires Owned(x) && i < |x.work|
    ensures x.work[i] in x.os.open && Often(x.work, x.work[i]) == 1
    ensures First(x.work, OnSocket(x.work[i])) == i
  {
    var fd := x.work[i];
    CountMember(x.work, fd);
    assert OwnedOnce(x, fd);
    OftenIsCount(x.work, fd);
    forall j | 0 <= j < i ensures x.work[j] != fd {
      if x.work[j] == fd { TwoCount(x.work, Is(fd), j, i); }
    }
    FirstIs(x.work, OnSocket(fd), i);
  }

  lemma {:induction false} OftenIsCount(fds: seq<Socket>, fd: Socket)
    ensures Often(fds, fd) == Count(fds, fd)
    decreases |fds|
  {
    if fds != [] {
      var n := |fds| - 1;
      OftenIsCount(fds[..n], fd);
      CountLast(fds, fd);
      assert Equals(fd)(fds[n]) == B(fds[n] == fd);
    }
  }

  /** A frame, or an error, on an idle work connection: it leaves the table; a relay between it
      and the local socket starts exactly when START was accepted, the service was reached, a
      slot is free and READY was sent, and otherwise both are closed. */
  lemma WorkFrameOutcome(l: Limits, x: Client, i: nat, broken: bool, started: bool, local: Option<Socket>,
                         ready: bool, stream: nat)
    requires Inv(l, x) && i < |x.work| && (local.Some? ==> NewSockets(x.os, [local.value]))
    ensures var fd, y := x.work[i], ClientStep(x, l, WorkFrame(x.work[i], broken, started, local, ready, stream));
      var starts := !broken && started && local.Some? && ready && Sum(x.relays, IsOpen) < |x.relays|;
      && NoLongerIdle(x, y, fd)
      && (starts ==>
            && y.os.open == x.os.open + {local.value}
            && exists k :: 0 <= k < |x.relays| && x.relays[k].Closed?
                 && y.relays == x.relays[k := Open(local.value, fd, stream)])
      && (!starts ==> y.relays == x.relays && y.os == Os(x.os.open - {fd}, false))
  {
    var fd := x.work[i];
    IdleOnce(x, i);
    FrameStartsIff(l, x, i, broken, started, local, ready, stream);
    var y := StartFrame(x, i, broken, started, local, ready, stream);
    assert y.work == SwapRemove(x.work, i);
    forall e: Socket ensures Often(y.work, e) == if e == fd then 0 else Often(x.work, e) {
      SumSwapRemove(x.work, i, Equals(e));
    }
    OftenIsCount(y.work, fd);
    CountMember(y.work, fd);
  }

  /** A relay that has closed frees its slot and its two sockets, and nothing else. */
  lemma RelayDoneOutcome(l: Limits, x: Client, k: nat)
    requires Inv(l, x) && k < |x.relays|
    ensures var y := ClientStep(x, l, RelayDone(k));
      if x.relays[k].Closed? then y == x
      else y == x.(relays := x.relays[k := Closed],
                   os := Os(x.os.open - {x.relays[k].direct, x.relays[k].work}, false))
  {
    if x.relays[k].Open? {
      var a, w := x.relays[k].direct, x.relays[k].work;
      assert OwnedOnce(x, a) && OwnedOnce(x, w);
      SumUpdate(x.relays, k, x.relays[k], SlotIs(a));
      SumUpdate(x.relays, k, x.relays[k], SlotIs(w));
    }
  }

  // ----- UDP -----

  /** The datagram is for this session's service and source, short enough, and its number is
      acceptable. */
  ghost predicate Passes(l: Limits, u: Session, d: Datagram)
  {
    && u.Live? && u.svc < |l.offers| && l.offers[u.svc].id == d.service && SameSource(u.peer, d.peer)
    && |d.payload| <= l.offers[u.svc].maxDatagram && ReplayWindow.Accept(u.rx, l.window, d.sequence).0
  }

  /** The session after a datagram for it. */
  ghost function Hit(l: Limits, u: Session, d: Datagram, now: nat): Session
    requires u.Live?
  {
    if Passes(l, u, d) then u.(lastMs := now, rx := ReplayWindow.Accept(u.rx, l.window, d.sequence).1) else u
  }

  ghost predicate IsSession(x: Client, id: u64, k: nat) { k < |x.udp| && x.udp[k].Live? && x.udp[k].id == id }
  ghost predicate HasSession(x: Client, id: u64) { exists k: nat :: IsSession(x, id, k) }

  lemma SessionOnce(l: Limits, x: Client, id: u64, k: nat)
    requires Inv(l, x) && IsSession(x, id, k)
    ensures First(x.udp, WithId(id)) == k
  {
    forall j | 0 <= j < k ensures !(x.udp[j].Live? && x.udp[j].id == id) { assert !Twins(x.udp[j], x.udp[k]); }
    FirstIs(x.udp, WithId(id), k);
  }

  /** A new session for the datagram's service and source, on this socket, hit by it at once. */
  ghost predicate OpenedFor(l: Limits, x: Client, y: Client, d: Datagram, fd: Socket, now: nat)
  {
    exists k: nat, v: nat :: OpenedAt(l, x, y, d, fd, now, k, v)
  }

  ghost predicate OpenedAt(l: Limits, x: Client, y: Client, d: Datagram, fd: Socket, now: nat, k: nat, v: nat)
  {
    && k < |x.udp| && x.udp[k].Unused? && FirstOffer(l, d.service, v)
    && var u := Live(d.session, v, d.peer, fd, now, 0, ReplayWindow.Window(0, 0));
    y == x.(udp := x.udp[k := Hit(l, u, d, now)], os := Os(x.os.open + {fd}, false), m := Inc(x.m, UDP_ACTIVE))
  }

  /** The client can open a session for the datagram. */
  ghost predicate CanOpen(l: Limits, x: Client, d: Datagram, fd: Option<Socket>)
  {
    fd.Some? && exists v: nat :: v < |l.offers| && FirstOffer(l, d.service, v)
                                 && l.offers[v].udp && Sum(x.udp, IsLive) < l.offers[v].udpMax
  }

  /** A datagram from the server, for a session the client has. */
  lemma KnownDatagram(l: Limits, x: Client, d: Datagram, fd: Option<Socket>, now: nat, k: nat)
    requires Inv(l, x) && d.direction == 0 && |d.peer.addr| == 16 && IsSession(x, d.session, k)
    ensures Deliver(x, l, d, fd, now) == (x.(udp := x.udp[k := Hit(l, x.udp[k], d, now)]), Passes(l, x.udp[k], d))
  {
    SessionOnce(l, x, d.session, k);
    assert SessionOk(l, x.udp[k]);
    assert x.udp[k := x.udp[k]] == x.udp;
  }

  lemma NewDatagram(l: Limits, x: Client, d: Datagram, fd: Option<Socket>, now: nat)
    requires Inv(l, x) && d.direction == 0 && |d.peer.addr| == 16 && !HasSession(x, d.session)
    requires fd.Some? ==> NewSockets(x.os, [fd.value])
    ensures var y := Deliver(x, l, d, fd, now).0;
      if CanOpen(l, x, d, fd) then OpenedFor(l, x, y, d, fd.value, now) else y == x
  {
    var found := First(x.udp, WithId(d.session));
    if found < |x.udp| { assert IsSession(x, d.session, found); }
    SessionOpenedIff(l, x, d, fd, now);
    var (y, k) := CreateSession(x, l, d, fd, now);
    var v := First(l.offers, Serves(d.service));
    if v < |l.offers| { FirstOfferIs(l, d.service, v); }
    UnusedExists(x.udp);
    if k < |y.udp| {
      var u := Live(d.session, v, d.peer, fd.value, now, 0, ReplayWindow.Window(0, 0));
      assert y.udp == x.udp[k := u];
      assert x.udp[k := u][k := Hit(l, u, d, now)] == x.udp[k := Hit(l, u, d, now)];
      assert OpenedAt(l, x, Deliver(x, l, d, fd, now).0, d, fd.value, now, k, v);
    }
  }

  /** What a datagram from the server does: one going the wrong way, or for which a session
      can be neither found nor opened, changes nothing; one for a session refreshes it exactly
      if it passes every check, and otherwise leaves it as it was. */
  lemma FromServerOutcome(l: Limits, x: Client, d: Datagram, fd: Option<Socket>, now: nat)
    requires Inv(l, x) && |d.peer.addr| == 16 && (fd.Some? ==> NewSockets(x.os, [fd.value]))
    ensures var y := ClientStep(x, l, FromServer(d, fd, now));
      && (d.direction != 0 ==> y == x)
      && (forall k: nat :: d.direction == 0 && IsSession(x, d.session, k) ==>
            y == x.(udp := x.udp[k := Hit(l, x.udp[k], d, now)]))
      && (d.direction == 0 && !HasSession(x, d.session) ==>
            if CanOpen(l, x, d, fd) then OpenedFor(l, x, y, d, fd.value, now) else y == x)
  {
    if d.direction == 0 {
      forall k: nat | IsSession(x, d.session, k)
        ensures Deliver(x, l, d, fd, now).0 == x.(udp := x.udp[k := Hit(l, x.udp[k], d, now)])
      {
        KnownDatagram(l, x, d, fd, now, k);
      }
      if !HasSession(x, d.session) { NewDatagram(l, x, d, fd, now); }
    }
  }

  /** A reply read from a session's socket numbers and refreshes it. */
  lemma FromLocalOutcome(l: Limits, x: Client, k: nat, now: nat)
    requires k < |x.udp|
    ensures var y := ClientStep(x, l, FromLocal(k, now));
      if x.udp[k].Live?
      then y == x.(udp := x.udp[k := x.udp[k].(lastMs := now, tx := (x.udp[k].tx + 1) % U64_LIMIT)])
      else y == x
  {
  }

  /** Exactly the sessions idle for too long are closed, and only they change. */
  lemma ExpireOutcome(l: Limits, x: Client, now: nat)
    ensures var y := ClientStep(x, l, ClientSpec.Expire(now));
      && y == x.(udp := y.udp, os := y.os, m := y.m) && |y.udp| == |x.udp|
      && forall k :: 0 <= k < |x.udp| ==>
           y.udp[k] == var u := x.udp[k];
             if u.Live? && u.svc < |l.offers| && now > u.lastMs + l.offers[u.svc].udpIdleMs then Unused else u
  {
    ExpireOnly(x, l, now, 0);
    forall k | 0 <= k < |x.udp|
      ensures ExpireSessions(x, l, now, 0).udp[k] == if Overdue(l, x.udp[k], now) then Unused else x.udp[k]
    {
      ExpireCloses(x, l, now, 0, k);
    }
  }

  lemma {:induction false} ExpireOnly(x: Client, l: Limits, now: nat, j: nat)
    ensures var y := ExpireSessions(x, l, now, j);
      y == x.(udp := y.udp, os := y.os, m := y.m) && |y.udp| == |x.udp|
    decreases |x.udp| - j
  {
    if j < |x.udp| { ExpireOnly(if Overdue(l, x.udp[j], now) then DropSession(x, j) else x, l, now, j + 1); }
  }
}

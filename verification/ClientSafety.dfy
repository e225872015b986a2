/** What every run of a client session keeps, and that its exit closes everything. */
module ClientSafety {
  import opened Bytes
  import opened Bags
  import opened Metrics
  import opened UdpCodec
  import ReplayWindow
  import opened ServerSpec
  import opened ServerSockets
  import opened ClientSpec

  // ----- the invariant -----

  function SessionIs(f: Socket): Session -> nat { (u: Session) => B(u.Live? && u.fd == f) }

  /** How many places of the client hold the socket. */
  function Owners(x: Client, f: Socket): nat
  {
    B(x.fd == f) + Count(x.work, f) + Sum(x.relays, SlotIs(f)) + Sum(x.udp, SessionIs(f))
  }

  ghost predicate OwnedOnce(x: Client, f: Socket) { Owners(x, f) == B(f in x.os.open) }
  ghost predicate Owned(x: Client) { !x.os.fault && forall f: Socket :: OwnedOnce(x, f) }

  ghost predicate Bounded(l: Limits, x: Client)
  {
    |x.work| <= l.streams && |x.relays| == l.streams && |x.udp| == l.sessions
  }

  ghost predicate Metered(x: Client)
  {
    x.m[WORK_IDLE] == |x.work| && x.m[UDP_ACTIVE] == Sum(x.udp, IsLive)
  }

  function OfOffer(k: nat): Session -> nat { (u: Session) => B(u.Live? && u.svc == k) }

  ghost predicate SessionOk(l: Limits, u: Session)
  {
    u.Live? ==> u.svc < |l.offers| && l.offers[u.svc].udp && |u.peer.addr| == 16
  }

  /** At most one live session per identifier, each for a configured UDP service and within
      its limit. */
  ghost predicate SessionsOk(l: Limits, us: seq<Session>)
  {
    && (forall i :: 0 <= i < |us| ==> SessionOk(l, us[i]))
    && (forall i, j :: 0 <= i < j < |us| ==> !Twins(us[i], us[j]))
    && forall k :: 0 <= k < |l.offers| ==> Sum(us, OfOffer(k)) <= l.offers[k].udpMax
  }

  ghost predicate Inv(l: Limits, x: Client)
  {
    LimitsOk(l) && Bounded(l, x) && Owned(x) && Metered(x) && SessionsOk(l, x.udp)
  }

  // ----- sessions -----

  /** A session replaced by one with the same identifier and service. */
  lemma SessionKept(l: Limits, us: seq<Session>, k: nat, u: Session)
    requires SessionsOk(l, us) && k < |us| && us[k].Live? && u.Live?
    requires u.id == us[k].id && u.svc == us[k].svc && u.peer == us[k].peer
    ensures SessionsOk(l, us[k := u])
  {
    var vs := us[k := u];
    forall i, j | 0 <= i < j < |vs| ensures !Twins(vs[i], vs[j]) { assert !Twins(us[i], us[j]); }
    forall s | 0 <= s < |l.offers| ensures Sum(vs, OfOffer(s)) <= l.offers[s].udpMax {
      SumUpdate(us, k, u, OfOffer(s));
    }
  }

  lemma SessionGone(l: Limits, us: seq<Session>, k: nat)
    requires SessionsOk(l, us) && k < |us|
    ensures SessionsOk(l, us[k := Unused])
  {
    var vs := us[k := Unused];
    forall i, j | 0 <= i < j < |vs| ensures !Twins(vs[i], vs[j]) { assert !Twins(us[i], us[j]); }
    forall s | 0 <= s < |l.offers| ensures Sum(vs, OfOffer(s)) <= l.offers[s].udpMax {
      SumUpdate(us, k, Unused, OfOffer(s));
    }
  }

  lemma SessionNew(l: Limits, us: seq<Session>, k: nat, u: Session)
    requires SessionsOk(l, us) && k < |us| && us[k].Unused? && u.Live? && SessionOk(l, u)
    requires First(us, WithId(u.id)) == |us|
    requires u.svc < |l.offers| && Sum(us, IsLive) < l.offers[u.svc].udpMax
    ensures SessionsOk(l, us[k := u])
  {
    var vs := us[k := u];
    forall i | 0 <= i < |us| ensures !Twins(us[i], u) && !Twins(u, us[i]) { NotFound(us, WithId(u.id), i); }
    forall i, j | 0 <= i < j < |vs| ensures !Twins(vs[i], vs[j]) { assert !Twins(us[i], us[j]); }
    forall s | 0 <= s < |l.offers| ensures Sum(vs, OfOffer(s)) <= l.offers[s].udpMax {
      SumUpdate(us, k, u, OfOffer(s));
      SumPoint(us, OfOffer(s), IsLive);
    }
  }

  /** A session within its service's limit always finds a place in the table. */
  lemma UnusedExists(us: seq<Session>)
    ensures First(us, IsUnused) < |us| <==> Sum(us, IsLive) < |us|
    ensures Sum(us, IsLive) <= |us|
  {
    FirstExists(us, IsUnused, IsLive);
  }

  // ----- steps -----

  lemma AddIdleKeeps(l: Limits, x: Client, fd: Socket)
    requires Inv(l, x) && NewSockets(x.os, [fd])
    ensures Inv(l, AddIdle(x, l, fd))
  {
    var y := AddIdle(x, l, fd);
    if y != x {
      forall f: Socket ensures OwnedOnce(y, f) {
        assert OwnedOnce(x, f);
        OpenedOneIs(x.os, fd, f);
        SumAppend(x.work, fd, Is(f));
      }
    }
  }

  lemma TakenCount(x: Client, i: nat, f: Socket)
    requires Owned(x) && i < |x.work|
    ensures Owners(TakeIdle(x, i), f) + B(x.work[i] == f) == B(f in x.os.open)
  {
    assert OwnedOnce(x, f);
    SumSwapRemove(x.work, i, Is(f));
  }

  lemma FrameKeeps(l: Limits, x: Client, i: nat, broken: bool, started: bool, local: Option<Socket>,
                   ready: bool, stream: nat)
    requires Inv(l, x) && i < |x.work| && (local.Some? ==> NewSockets(x.os, [local.value]))
    ensures Inv(l, StartFrame(x, i, broken, started, local, ready, stream))
  {
    var y, fd, z := TakeIdle(x, i), x.work[i], StartFrame(x, i, broken, started, local, ready, stream);
    TakenCount(x, i, fd);
    if broken || !started || local.None? {
      forall f: Socket ensures OwnedOnce(z, f) { TakenCount(x, i, f); }
    } else {
      OpenedOneIs(x.os, local.value, local.value);
      var k := First(y.relays, IsClosed);
      if k == |y.relays| || !ready {
        forall f: Socket ensures OwnedOnce(z, f) { TakenCount(x, i, f); }
      } else {
        forall f: Socket ensures OwnedOnce(z, f) {
          TakenCount(x, i, f);
          OpenedOneIs(x.os, local.value, f);
          SumUpdate(y.relays, k, Open(local.value, fd, stream), SlotIs(f));
        }
      }
    }
  }

  lemma DropRelayKeeps(l: Limits, x: Client, k: nat)
    requires Inv(l, x) && k < |x.relays|
    ensures Inv(l, DropRelay(x, k))
  {
    match x.relays[k]
    case Closed =>
    case Open(d, w, _) =>
      var y := DropRelay(x, k);
      assert OwnedOnce(x, d) && OwnedOnce(x, w);
      SumUpdate(x.relays, k, Closed, SlotIs(d));
      SumUpdate(x.relays, k, Closed, SlotIs(w));
      forall f: Socket ensures OwnedOnce(y, f) { assert OwnedOnce(x, f); SumUpdate(x.relays, k, Closed, SlotIs(f)); }
  }

  /** A session with the same socket in the same place. */
  lemma SameOwners(x: Client, k: nat, u: Session)
    requires Owned(x) && Metered(x) && k < |x.udp| && x.udp[k].Live? && u.Live? && u.fd == x.udp[k].fd
    ensures Owned(x.(udp := x.udp[k := u])) && Metered(x.(udp := x.udp[k := u]))
  {
    var y := x.(udp := x.udp[k := u]);
    SumUpdate(x.udp, k, u, IsLive);
    forall f: Socket ensures OwnedOnce(y, f) { assert OwnedOnce(x, f); SumUpdate(x.udp, k, u, SessionIs(f)); }
  }

  lemma RefreshKeeps(l: Limits, x: Client, k: nat, now: nat)
    requires Inv(l, x) && k < |x.udp|
    ensures Inv(l, Refresh(x, k, now))
  {
    if x.udp[k].Live? {
      var u := x.udp[k].(lastMs := now, tx := (x.udp[k].tx + 1) % U64_LIMIT);
      SameOwners(x, k, u);
      SessionKept(l, x.udp, k, u);
    }
  }

  lemma ReceiveKeeps(l: Limits, x: Client, k: nat, d: Datagram, now: nat)
    requires Inv(l, x) && |d.peer.addr| == 16 && k < |x.udp| && x.udp[k].Live?
    ensures Inv(l, Receive(x, l, k, d, now).0)
  {
    var u := x.udp[k].(lastMs := now, rx := ReplayWindow.Accept(x.udp[k].rx, l.window, d.sequence).1);
    SameOwners(x, k, u);
    SessionKept(l, x.udp, k, u);
  }

  lemma CreateOwned(x: Client, k: nat, u: Session, m: Counters)
    requires Owned(x) && k < |x.udp| && x.udp[k].Unused? && u.Live? && NewSockets(x.os, [u.fd])
    ensures Owned(x.(udp := x.udp[k := u], os := Opened(x.os, [u.fd]), m := m))
  {
    var y := x.(udp := x.udp[k := u], os := Opened(x.os, [u.fd]), m := m);
    forall f: Socket ensures OwnedOnce(y, f) {
      assert OwnedOnce(x, f);
      OpenedOneIs(x.os, u.fd, f);
      SumUpdate(x.udp, k, u, SessionIs(f));
    }
  }

  lemma OpenedKeeps(l: Limits, x: Client, k: nat, u: Session)
    requires Inv(l, x) && k < |x.udp| && x.udp[k].Unused? && u.Live? && SessionOk(l, u) && NewSockets(x.os, [u.fd])
    requires First(x.udp, WithId(u.id)) == |x.udp| && Sum(x.udp, IsLive) < l.offers[u.svc].udpMax
    ensures Inv(l, x.(udp := x.udp[k := u], os := Opened(x.os, [u.fd]), m := Inc(x.m, UDP_ACTIVE)))
  {
    CreateOwned(x, k, u, Inc(x.m, UDP_ACTIVE));
    SessionNew(l, x.udp, k, u);
    SumUpdate(x.udp, k, u, IsLive);
  }

  lemma CreateKeeps(l: Limits, x: Client, d: Datagram, fd: Option<Socket>, now: nat)
    requires Inv(l, x) && |d.peer.addr| == 16 && (fd.Some? ==> NewSockets(x.os, [fd.value]))
    requires First(x.udp, WithId(d.session)) == |x.udp|
    ensures Inv(l, CreateSession(x, l, d, fd, now).0)
  {
    var v := First(l.offers, Serves(d.service));
    if v < |l.offers| && l.offers[v].udp && Sum(x.udp, IsLive) < l.offers[v].udpMax && fd.Some? {
      UnusedExists(x.udp);
      OpenedKeeps(l, x, First(x.udp, IsUnused),
                  Live(d.session, v, d.peer, fd.value, now, 0, ReplayWindow.Window(0, 0)));
    }
  }

  lemma DeliverKeeps(l: Limits, x: Client, d: Datagram, fd: Option<Socket>, now: nat)
    requires Inv(l, x) && |d.peer.addr| == 16 && (fd.Some? ==> NewSockets(x.os, [fd.value]))
    ensures Inv(l, Deliver(x, l, d, fd, now).0)
  {
    var k := First(x.udp, WithId(d.session));
    if k < |x.udp| {
      ReceiveKeeps(l, x, k, d, now);
    } else {
      CreateKeeps(l, x, d, fd, now);
      var y := CreateSession(x, l, d, fd, now);
      if y.1 < |y.0.udp| { ReceiveKeeps(l, y.0, y.1, d, now); }
    }
  }

  lemma DropSessionKeeps(l: Limits, x: Client, k: nat)
    requires Inv(l, x) && k < |x.udp|
    ensures Inv(l, DropSession(x, k))
  {
    if x.udp[k].Live? {
      var y, fd := DropSession(x, k), x.udp[k].fd;
      SessionGone(l, x.udp, k);
      SumUpdate(x.udp, k, Unused, IsLive);
      assert OwnedOnce(x, fd);
      SumUpdate(x.udp, k, Unused, SessionIs(fd));
      forall f: Socket ensures OwnedOnce(y, f) { assert OwnedOnce(x, f); SumUpdate(x.udp, k, Unused, SessionIs(f)); }
    }
  }

  lemma {:induction false} ExpireKeeps(l: Limits, x: Client, now: nat, j: nat)
    requires Inv(l, x)
    ensures Inv(l, ExpireSessions(x, l, now, j))
    decreases |x.udp| - j
  {
    if j < |x.udp| {
      DropSessionKeeps(l, x, j);
      ExpireKeeps(l, if Overdue(l, x.udp[j], now) then DropSession(x, j) else x, now, j + 1);
    }
  }

  lemma StepKeeps(l: Limits, x: Client, e: ClientEvent)
    requires Inv(l, x)
    ensures Inv(l, ClientStep(x, l, e))
  {
    match e
    case NewWork(fd) => if NewSockets(x.os, [fd]) { AddIdleKeeps(l, x, fd); }
    case WorkFrame(fd, broken, started, local, ready, stream) =>
      var i := First(x.work, OnSocket(fd));
      if i < |x.work| && (local.Some? ==> NewSockets(x.os, [local.value])) {
        FrameKeeps(l, x, i, broken, started, local, ready, stream);
      }
    case RelayDone(k) => if k < |x.relays| { DropRelayKeeps(l, x, k); }
    case FromServer(d, fd, now) =>
      if |d.peer.addr| == 16 && (fd.Some? ==> NewSockets(x.os, [fd.value])) { DeliverKeeps(l, x, d, fd, now); }
    case FromLocal(k, now) => if k < |x.udp| { RefreshKeeps(l, x, k, now); }
    case Expire(now) => ExpireKeeps(l, x, now, 0);
  }

  lemma BeginInv(l: Limits, fd: Socket)
    requires LimitsOk(l)
    ensures Inv(l, Begin(l, fd))
  {
    var x := Begin(l, fd);
    SumZero(x.udp, IsLive);
    forall k | 0 <= k < |l.offers| ensures Sum(x.udp, OfOffer(k)) == 0 { SumZero(x.udp, OfOffer(k)); }
    forall f: Socket ensures OwnedOnce(x, f) { SumZero(x.udp, SessionIs(f)); SumZero(x.relays, SlotIs(f)); }
  }

  /** In every run: every open socket has one owner and nothing is closed twice, both gauges
      are exact, every table is within bounds, at most one live session carries any given
      identifier, and each service stays within its limit. */
  lemma {:induction false} ClientKeeps(l: Limits, fd: Socket, events: seq<ClientEvent>)
    requires LimitsOk(l)
    ensures Inv(l, ClientRun(Begin(l, fd), l, events))
    decreases |events|
  {
    if events == [] {
      BeginInv(l, fd);
    } else {
      ClientKeeps(l, fd, events[..|events| - 1]);
      StepKeeps(l, ClientRun(Begin(l, fd), l, events[..|events| - 1]), events[|events| - 1]);
    }
  }

  /** The event table has an entry per socket at most. */
  lemma ClientRefsFit(l: Limits, fd: Socket, events: seq<ClientEvent>)
    requires LimitsOk(l)
    ensures var x := ClientRun(Begin(l, fd), l, events);
      1 + |x.work| + 2 * Sum(x.relays, IsOpen) + Sum(x.udp, IsLive) <= 1 + l.streams + 2 * l.streams + l.sessions
  {
    ClientKeeps(l, fd, events);
    var x := ClientRun(Begin(l, fd), l, events);
    SumBound(x.relays, IsOpen, 1);
    SumBound(x.udp, IsLive, 1);
  }

  // ----- exit -----

  /** Closing the idle work connections, then the relays. */
  lemma WorkClosed(x: Client)
    requires Owned(x)
    ensures Owned(x.(work := [], os := CloseAll(x.os, x.work), m := DecBy(x.m, WORK_IDLE, |x.work|)))
  {
    var y := x.(work := [], os := CloseAll(x.os, x.work), m := DecBy(x.m, WORK_IDLE, |x.work|));
    forall f: Socket ensures Has(x.os, x.work, f) { assert OwnedOnce(x, f); }
    CloseAllIs(x.os, x.work, 0);
    forall f: Socket ensures OwnedOnce(y, f) { assert OwnedOnce(x, f); CloseAllIs(x.os, x.work, f); }
  }

  lemma SlotFdsCount(rs: seq<Slot>, f: Socket)
    ensures Count(Flat(rs, SlotFds), f) == Sum(rs, SlotIs(f))
  {
    forall s: Slot | s in rs ensures SlotIs(f)(s) == Count(SlotFds(s), f) {
      if s.Open? { TwoIs(s.direct, s.work, f); }
    }
    FlatCounts(rs, SlotFds, SlotIs(f), f);
  }

  lemma RelaysClosed(x: Client)
    requires Owned(x)
    ensures Owned(x.(relays := seq(|x.relays|, _ => Closed), os := CloseAll(x.os, Flat(x.relays, SlotFds))))
  {
    var fds := Flat(x.relays, SlotFds);
    var y := x.(relays := seq(|x.relays|, _ => Closed), os := CloseAll(x.os, fds));
    forall f: Socket ensures Has(x.os, fds, f) { assert OwnedOnce(x, f); SlotFdsCount(x.relays, f); }
    CloseAllIs(x.os, fds, 0);
    forall f: Socket ensures OwnedOnce(y, f) {
      assert OwnedOnce(x, f);
      CloseAllIs(x.os, fds, f);
      SlotFdsCount(x.relays, f);
      SumZero(y.relays, SlotIs(f));
    }
  }

  lemma DropOwned(x: Client, k: nat)
    requires Owned(x) && k < |x.udp|
    ensures Owned(DropSession(x, k))
  {
    if x.udp[k].Live? {
      var y, fd := DropSession(x, k), x.udp[k].fd;
      assert OwnedOnce(x, fd);
      SumUpdate(x.udp, k, Unused, SessionIs(fd));
      forall f: Socket ensures OwnedOnce(y, f) { assert OwnedOnce(x, f); SumUpdate(x.udp, k, Unused, SessionIs(f)); }
    }
  }

  ghost predicate UnusedUpTo(x: Client, j: nat) { j <= |x.udp| && forall i :: 0 <= i < j ==> x.udp[i].Unused? }

  lemma {:induction false} SessionsClosed(x: Client, j: nat)
    requires Owned(x) && UnusedUpTo(x, j)
    ensures var y := DropSessions(x, j);
      Owned(y) && UnusedUpTo(y, |y.udp|) && y.work == x.work && y.relays == x.relays && y.fd == x.fd
    decreases |x.udp| - j
  {
    if j < |x.udp| {
      DropOwned(x, j);
      SessionsClosed(DropSession(x, j), j + 1);
    }
  }

  /** However the session went, its exit closes every socket it opened, each once. */
  lemma ExitLeavesNothing(l: Limits, fd: Socket, events: seq<ClientEvent>)
    requires LimitsOk(l)
    ensures End(ClientRun(Begin(l, fd), l, events)).os == Os({}, false)
  {
    ClientKeeps(l, fd, events);
    var x := ClientRun(Begin(l, fd), l, events);
    WorkClosed(x);
    var a := x.(work := [], os := CloseAll(x.os, x.work), m := DecBy(x.m, WORK_IDLE, |x.work|));
    RelaysClosed(a);
    var b := a.(relays := seq(|a.relays|, _ => Closed), os := CloseAll(a.os, Flat(a.relays, SlotFds)));
    SessionsClosed(b, 0);
    var d := DropSessions(b, 0);
    forall f: Socket ensures B(f in d.os.open) == B(d.fd == f) {
      assert OwnedOnce(d, f);
      SumZero(d.udp, SessionIs(f));
      SumZero(d.relays, SlotIs(f));
    }
    assert d.fd in d.os.open;
    assert d.os.open - {d.fd} == {};
  }
}

/** What every step keeps about one peer's tables: array bounds, the stream quota, the
    matching of pending streams with idle work connections, the registered services, and
    the identifiers and UDP pseudo-sessions. */
module ServerTables {
  import opened Bags
  import opened Metrics
  import opened UdpCodec
  import opened ServerSpec
  import opened ServerSockets

  // ----- the invariants -----

  ghost predicate Bounds(c: Config, p: Peer)
  {
    && |p.work| <= c.compiledStreams && |p.pending| <= c.compiledPending && |p.starting| <= c.compiledPending
    && |p.relays| == c.compiledStreams && |p.udp| == c.compiledUdp
  }

  /** Pending, starting and relayed streams together stay within both limits. */
  ghost predicate Quota(c: Config, p: Peer) { ActiveStreams(p) <= StreamLimit(c, p.auth) }

  /** A stream and a work connection never wait for each other, if the limit on streams is
      at most the size of the starting table. */
  ghost predicate Matched(c: Config, p: Peer)
  {
    StreamLimit(c, p.auth) <= c.compiledPending ==> p.pending == [] || p.work == []
  }

  ghost predicate Allowed(a: Auth, s: Service) { Authorized(a, s.addr, s.port) && |s.listeners| <= 2 && |s.udpFds| <= 2
    && (s.listeners == [] || s.udpFds == []) }

  ghost predicate Services(c: Config, p: Peer)
  {
    && |p.svcs| <= p.auth.maxServices && |p.svcs| <= c.maxServices
    && (forall k :: 0 <= k < |p.svcs| ==> Allowed(p.auth, p.svcs[k]))
    && forall k, l :: 0 <= k < l < |p.svcs| ==> p.svcs[k].id != p.svcs[l].id
  }

  /** Every reference to a service is to a registered one. */
  ghost predicate Refers(p: Peer)
  {
    && (forall x :: x in p.pending ==> x.svc < |p.svcs|)
    && (forall x :: x in p.starting ==> x.pending.svc < |p.svcs|)
    && forall x :: x in p.udp ==> x.Active? ==> x.svc < |p.svcs|
  }

  function StartIdIs(id: nat): Starting -> nat { (x: Starting) => B(x.id == id) }
  function SlotIdIs(id: nat): Slot -> nat { (x: Slot) => B(x.Open? && x.id == id) }
  function SessionIdIs(id: nat): UdpSession -> nat { (x: UdpSession) => B(x.Active? && x.id == id) }

  /** How many streams and sessions of the peer carry this identifier. */
  function IdCount(p: Peer, id: nat): nat
  {
    Sum(p.starting, StartIdIs(id)) + Sum(p.relays, SlotIdIs(id)) + Sum(p.udp, SessionIdIs(id))
  }

  ghost predicate IdOnce(p: Peer, id: nat) { IdCount(p, id) <= B(1 <= id <= p.ids.next) }

  /** Until the identifiers wrap around, each one in use was handed out and is in use once. */
  ghost predicate IdsOk(p: Peer) { p.ids.wrapped || forall id: nat :: IdOnce(p, id) }

  /** Two sessions for the same service and source. */
  ghost predicate Clash(u: UdpSession, v: UdpSession)
  {
    u.Active? && v.Active? && u.svc == v.svc && SameSource(u.peer, v.peer)
  }

  ghost predicate SameSource(a: Endpoint, b: Endpoint) { |a.addr| == 16 && |b.addr| == 16 && SameEndpoint(a, b) }

  function OfService(svc: nat): UdpSession -> nat { (x: UdpSession) => B(x.Active? && x.svc == svc) }

  ghost predicate SessionsOk(svcs: seq<Service>, udp: seq<UdpSession>)
  {
    && (forall i, j :: 0 <= i < j < |udp| ==> !Clash(udp[i], udp[j]))
    && forall k :: 0 <= k < |svcs| ==> Sum(udp, OfService(k)) <= svcs[k].udpMax
  }

  ghost predicate Tables(c: Config, p: Peer)
  {
    Bounds(c, p) && Quota(c, p) && Services(c, p) && Refers(p) && IdsOk(p) && SessionsOk(p.svcs, p.udp)
  }

  /** An inactive peer has nothing in its tables. */
  ghost predicate Blank(p: Peer)
  {
    p.svcs == [] && p.work == [] && p.pending == [] && p.starting == []
    && Sum(p.relays, IsOpen) == 0 && Sum(p.udp, IsActive) == 0
  }

  ghost predicate PeerOk(c: Config, p: Peer) { Tables(c, p) && Matched(c, p) && (!p.active ==> Blank(p)) }

  // ----- steps that only give up or move what is there -----

  ghost predicate Later(a: Counter, b: Counter) { b.wrapped || (!a.wrapped && a.next <= b.next) }

  ghost predicate FewerIds(p: Peer, q: Peer, id: nat) { IdCount(q, id) <= IdCount(p, id) }

  ghost predicate FewerQueued(p: Peer, q: Peer)
  {
    && |q.pending| <= |p.pending| && |q.starting| <= |p.starting| && |q.relays| == |p.relays|
    && (forall x :: x in q.pending ==> x in p.pending)
    && (forall x :: x in q.starting ==> x in p.starting)
    && ActiveStreams(q) <= ActiveStreams(p)
  }

  /** Everything in q was in p, except that identifiers may have been passed over. */
  ghost predicate Fewer(p: Peer, q: Peer)
  {
    && q.active == p.active && q.auth == p.auth && q.svcs == p.svcs && q.udp == p.udp && |q.work| <= |p.work|
    && Later(p.ids, q.ids)
    && FewerQueued(p, q)
    && forall id: nat :: FewerIds(p, q, id)
  }

  lemma FewerChain(p: Peer, q: Peer, r: Peer)
    requires Fewer(p, q) && Fewer(q, r)
    ensures Fewer(p, r)
  {
    forall id: nat ensures FewerIds(p, r, id) { assert FewerIds(p, q, id) && FewerIds(q, r, id); }
  }

  lemma FewerIdsOk(p: Peer, q: Peer)
    requires Fewer(p, q) && IdsOk(p)
    ensures IdsOk(q)
  {
    if !q.ids.wrapped {
      forall id: nat ensures IdOnce(q, id) { assert IdOnce(p, id) && FewerIds(p, q, id); }
    }
  }

  lemma FewerTables(c: Config, p: Peer, q: Peer)
    requires Fewer(p, q) && Tables(c, p)
    ensures Tables(c, q)
    ensures Matched(c, p) ==> Matched(c, q)
  {
    FewerIdsOk(p, q);
  }

  lemma DropStartingFewer(x: Ps, i: nat)
    requires i < |x.p.starting|
    ensures Fewer(x.p, DropStarting(x, i).p)
  {
    var q := DropStarting(x, i).p;
    SwapRemoveFrom(x.p.starting, i);
    forall id: nat ensures FewerIds(x.p, q, id) { SumSwapRemove(x.p.starting, i, StartIdIs(id)); }
  }

  lemma FinishStartingFewer(x: Ps, i: nat, ready: bool)
    requires i < |x.p.starting|
    ensures Fewer(x.p, FinishStarting(x, i, ready).p)
  {
    var s, k, q := x.p.starting[i], FreeSlot(x.p.relays), FinishStarting(x, i, ready).p;
    if ready && k < |x.p.relays| {
      var o := Open(s.pending.fd, s.work, s.id);
      SwapRemoveFrom(x.p.starting, i);
      SumUpdate(x.p.relays, k, o, IsOpen);
      forall id: nat ensures FewerIds(x.p, q, id) {
        SumSwapRemove(x.p.starting, i, StartIdIs(id));
        SumUpdate(x.p.relays, k, o, SlotIdIs(id));
      }
    } else {
      DropStartingFewer(x, i);
    }
  }

  lemma CloseRelayFewer(x: Ps, k: nat)
    requires k < |x.p.relays|
    ensures Fewer(x.p, CloseRelay(x, k).p)
  {
    var q := CloseRelay(x, k).p;
    if x.p.relays[k].Open? { SumUpdate(x.p.relays, k, Closed, IsOpen); }
    forall id: nat ensures FewerIds(x.p, q, id) {
      if x.p.relays[k].Open? { SumUpdate(x.p.relays, k, Closed, SlotIdIs(id)); }
    }
  }

  lemma ExpireOneFewer(x: Ps, j: nat)
    requires j < |x.p.pending|
    ensures Fewer(x.p, ExpireOne(x, j).p)
  {
    var q := ExpireOne(x, j).p;
    SwapRemoveFrom(x.p.pending, j);
    forall id: nat ensures FewerIds(x.p, q, id) {}
  }

  lemma {:induction false} ExpirePendingFewer(x: Ps, now: nat, j: nat)
    ensures Fewer(x.p, ExpirePending(x, now, j).p)
    decreases |x.p.pending| - j
  {
    if j < |x.p.pending| && x.p.pending[j].deadline < now {
      var y := ExpireOne(x, j);
      ExpireOneFewer(x, j);
      ExpirePendingFewer(y, now, j);
      FewerChain(x.p, y.p, ExpirePending(y, now, j).p);
    } else if j < |x.p.pending| {
      ExpirePendingFewer(x, now, j + 1);
    } else {
      forall id: nat ensures FewerIds(x.p, x.p, id) {}
    }
  }

  lemma {:induction false} ExpireStartingFewer(x: Ps, now: nat, j: nat)
    ensures Fewer(x.p, ExpireStarting(x, now, j).p)
    decreases |x.p.starting| - j
  {
    if j < |x.p.starting| && x.p.starting[j].deadline <= now {
      var d := DropStarting(x, j);
      var y := d.(m := Inc(d.m, STREAMS_FAILED));
      DropStartingFewer(x, j);
      ExpireStartingFewer(y, now, j);
      FewerChain(x.p, y.p, ExpireStarting(y, now, j).p);
    } else if j < |x.p.starting| {
      ExpireStartingFewer(x, now, j + 1);
    } else {
      forall id: nat ensures FewerIds(x.p, x.p, id) {}
    }
  }

  // ----- matching -----

  lemma GivenUpFewer(x: Ps, c: Config, now: nat)
    requires x.p.pending != [] && x.p.work != []
    ensures Fewer(x.p, MatchOne(x, c, now, false).p)
  {
    var q := MatchOne(x, c, now, false).p;
    forall id: nat ensures FewerIds(x.p, q, id) {}
  }

  lemma StartedIds(x: Ps, c: Config, now: nat)
    requires x.p.pending != [] && x.p.work != [] && IdsOk(x.p)
    ensures IdsOk(MatchOne(x, c, now, true).p)
  {
    var p, q := x.p, MatchOne(x, c, now, true).p;
    var n := Starting(p.pending[0], p.work[|p.work| - 1], NextId(p.ids).next, now + c.connectMs);
    if !q.ids.wrapped {
      forall id: nat ensures IdOnce(q, id) {
        assert IdOnce(p, id);
        SumAppend(p.starting, n, StartIdIs(id));
      }
    }
  }

  lemma MatchOneTables(x: Ps, c: Config, now: nat, sent: bool)
    requires Tables(c, x.p) && CanMatch(x.p, c)
    ensures Tables(c, MatchOne(x, c, now, sent).p)
  {
    if sent {
      StartedIds(x, c, now);
    } else {
      GivenUpFewer(x, c, now);
      FewerTables(c, x.p, MatchOne(x, c, now, false).p);
    }
  }

  /** match_pending keeps the tables; when it stops, either a queue is empty or the starting
      table is full, and the quota rules the second case out for small limits. */
  lemma {:induction false} MatchTables(x: Ps, c: Config, now: nat, sends: seq<bool>)
    requires Tables(c, x.p)
    ensures Tables(c, Match(x, c, now, sends).p) && Matched(c, Match(x, c, now, sends).p)
    ensures Match(x, c, now, sends).p.active == x.p.active && Match(x, c, now, sends).p.svcs == x.p.svcs
    decreases |x.p.pending|
  {
    if CanMatch(x.p, c) {
      var sent := sends == [] || sends[0];
      MatchOneTables(x, c, now, sent);
      MatchTables(MatchOne(x, c, now, sent), c, now, if sends == [] then [] else sends[1..]);
    }
  }

  lemma SameIds(p: Peer, q: Peer)
    requires IdsOk(p) && q.starting == p.starting && q.relays == p.relays && q.udp == p.udp && q.ids == p.ids
    ensures IdsOk(q)
  {
    if !q.ids.wrapped {
      forall id: nat ensures IdOnce(q, id) { assert IdOnce(p, id); }
    }
  }

  lemma AddWorkOk(x: Ps, c: Config, fd: Socket, now: nat, sends: seq<bool>)
    requires PeerOk(c, x.p) && x.p.active && |x.p.work| < c.compiledStreams
    ensures PeerOk(c, AddWork(x, c, fd, now, sends).p) && AddWork(x, c, fd, now, sends).p.svcs == x.p.svcs
  {
    var y := Ps(x.p.(work := x.p.work + [fd]), x.os, Inc(x.m, WORK_IDLE));
    SameIds(x.p, y.p);
    MatchTables(y, c, now, sends);
  }

  lemma AddPendingOk(x: Ps, c: Config, fd: Socket, svc: nat, ok: bool, now: nat, sends: seq<bool>)
    requires ConfigOk(c) && PeerOk(c, x.p) && svc < |x.p.svcs|
    ensures PeerOk(c, AddPending(x, c, fd, svc, ok, now, sends).p)
    ensures AddPending(x, c, fd, svc, ok, now, sends).p.svcs == x.p.svcs
  {
    var n := Pending(fd, svc, now + c.connectMs);
    var y := Ps(x.p.(pending := x.p.pending + [n]), Opened(x.os, [fd]), Inc(x.m, PENDING_STREAMS));
    SameIds(x.p, y.p);
    if AddPending(x, c, fd, svc, ok, now, sends).p != x.p {
      MatchTables(y, c, now, sends);
    }
  }

  // ----- a starting stream finds a slot -----

  /** Whenever a starting stream becomes ready there is a closed relay slot for it, so
      READY always starts the relay. */
  lemma StartingFindsSlot(c: Config, x: Ps, i: nat)
    requires ConfigOk(c) && PeerOk(c, x.p) && i < |x.p.starting|
    ensures var k, s := FreeSlot(x.p.relays), x.p.starting[i];
      && k < |x.p.relays| && x.p.relays[k].Closed?
      && FinishStarting(x, i, true).p.relays == x.p.relays[k := Open(s.pending.fd, s.work, s.id)]
      && FinishStarting(x, i, true).os == x.os
  {
    FirstExists(x.p.relays, IsClosed, IsOpen);
  }

  // ----- UDP pseudo-sessions -----

  /** A session replaced by one for the same source. */
  ghost predicate SameSession(u: UdpSession, v: UdpSession)
  {
    u.Active? && v.Active? && v.id == u.id && v.svc == u.svc && v.peer == u.peer
  }

  lemma KeptOk(c: Config, p: Peer, k: nat, u: UdpSession)
    requires PeerOk(c, p) && k < |p.udp| && SameSession(p.udp[k], u)
    ensures PeerOk(c, p.(udp := p.udp[k := u]))
  {
    var q := p.(udp := p.udp[k := u]);
    SumUpdate(p.udp, k, u, IsActive);
    forall id: nat ensures IdCount(q, id) == IdCount(p, id) { SumUpdate(p.udp, k, u, SessionIdIs(id)); }
    if !q.ids.wrapped { forall id: nat ensures IdOnce(q, id) { assert IdOnce(p, id); } }
    KeptSessions(p.svcs, p.udp, k, u);
  }

  lemma KeptSessions(svcs: seq<Service>, us: seq<UdpSession>, k: nat, u: UdpSession)
    requires SessionsOk(svcs, us) && k < |us| && SameSession(us[k], u)
    ensures SessionsOk(svcs, us[k := u])
  {
    var vs := us[k := u];
    forall i, j | 0 <= i < j < |vs| ensures !Clash(vs[i], vs[j]) { assert !Clash(us[i], us[j]); }
    forall s | 0 <= s < |svcs| ensures Sum(vs, OfService(s)) <= svcs[s].udpMax { SumUpdate(us, k, u, OfService(s)); }
  }

  /** The new session clashes with none, and its service is within its limit. */
  lemma CreateSessions(svcs: seq<Service>, us: seq<UdpSession>, k: nat, u: UdpSession)
    requires SessionsOk(svcs, us) && k < |us| && us[k].Idle? && u.Active? && |u.peer.addr| == 16
    requires UdpFind(us, u.svc, u.peer) == |us|
    requires u.svc < |svcs| && Sum(us, IsActive) < svcs[u.svc].udpMax
    ensures SessionsOk(svcs, us[k := u])
  {
    var vs := us[k := u];
    forall i | 0 <= i < |us| ensures !Clash(us[i], u) && !Clash(u, us[i]) {
      assert !UdpMatches(us[i], u.svc, u.peer);
    }
    forall i, j | 0 <= i < j < |vs| ensures !Clash(vs[i], vs[j]) { assert !Clash(us[i], us[j]); }
    forall s | 0 <= s < |svcs| ensures Sum(vs, OfService(s)) <= svcs[s].udpMax {
      SumUpdate(us, k, u, OfService(s));
      SumPoint(us, OfService(s), IsActive);
    }
  }

  lemma CreateIds(p: Peer, k: nat, u: UdpSession)
    requires IdsOk(p) && k < |p.udp| && p.udp[k].Idle? && u.Active? && u.id == NextId(p.ids).next
    ensures IdsOk(p.(udp := p.udp[k := u], ids := NextId(p.ids)))
  {
    var q := p.(udp := p.udp[k := u], ids := NextId(p.ids));
    if !q.ids.wrapped {
      forall id: nat ensures IdOnce(q, id) {
        assert IdOnce(p, id);
        SumUpdate(p.udp, k, u, SessionIdIs(id));
      }
    }
  }

  lemma UdpCreateOk(x: Ps, c: Config, svc: nat, ep: Endpoint, now: nat)
    requires PeerOk(c, x.p) && svc < |x.p.svcs| && |ep.addr| == 16 && UdpFind(x.p.udp, svc, ep) == |x.p.udp|
    ensures PeerOk(c, UdpCreate(x, svc, ep, now).0.p)
  {
    var k, u := FreeUdp(x.p.udp), NewUdp(NextId(x.p.ids).next, svc, ep, now);
    if UdpCreate(x, svc, ep, now).1 < |x.p.udp| {
      CreateIds(x.p, k, u);
      CreateSessions(x.p.svcs, x.p.udp, k, u);
    }
  }

  /** A session is refused exactly when the active sessions of all services together have
      reached this service's limit or the size of the table. */
  lemma UdpCreateIff(x: Ps, svc: nat, ep: Endpoint, now: nat)
    requires svc < |x.p.svcs|
    ensures UdpCreate(x, svc, ep, now).1 < |x.p.udp| <==>
      Sum(x.p.udp, IsActive) < x.p.svcs[svc].udpMax && Sum(x.p.udp, IsActive) < |x.p.udp|
  {
    FirstExists(x.p.udp, IsIdle, IsActive);
  }

  lemma ExpiredSessionOk(c: Config, p: Peer, k: nat)
    requires PeerOk(c, p) && k < |p.udp|
    ensures PeerOk(c, p.(udp := p.udp[k := Idle]))
  {
    var q := p.(udp := p.udp[k := Idle]);
    var us, vs := p.udp, q.udp;
    SumUpdate(us, k, Idle, IsActive);
    if !q.ids.wrapped {
      forall id: nat ensures IdOnce(q, id) { assert IdOnce(p, id); SumUpdate(us, k, Idle, SessionIdIs(id)); }
    }
    forall i, j | 0 <= i < j < |vs| ensures !Clash(vs[i], vs[j]) { assert !Clash(us[i], us[j]); }
    forall s | 0 <= s < |p.svcs| ensures Sum(vs, OfService(s)) <= p.svcs[s].udpMax {
      SumUpdate(us, k, Idle, OfService(s));
    }
  }

  lemma {:induction false} UdpExpireOk(x: Ps, c: Config, now: nat, j: nat)
    requires PeerOk(c, x.p)
    ensures PeerOk(c, UdpExpire(x, now, j).p) && UdpExpire(x, now, j).p.svcs == x.p.svcs
    decreases |x.p.udp| - j
  {
    if j < |x.p.udp| {
      if UdpExpired(x.p, x.p.udp[j], now) {
        ExpiredSessionOk(c, x.p, j);
        UdpExpireOk(x.(p := x.p.(udp := x.p.udp[j := Idle]), m := Dec(x.m, UDP_ACTIVE)), c, now, j + 1);
      } else {
        UdpExpireOk(x, c, now, j + 1);
      }
    }
  }

  // ----- whole-peer steps -----

  ghost predicate SvcsKept(p: Peer, q: Peer) { q.svcs == p.svcs || q.svcs == [] }

  /** A peer whose tables are those of a vacant one. */
  lemma VacantOk(c: Config, v: Peer)
    requires v == Vacant(c).(active := v.active, fd := v.fd, session := v.session, auth := v.auth, ids := v.ids)
    ensures PeerOk(c, v)
  {
    SumZero(v.relays, IsOpen);
    SumZero(v.udp, IsActive);
    forall id: nat ensures IdOnce(v, id) { SumZero(v.relays, SlotIdIs(id)); SumZero(v.udp, SessionIdIs(id)); }
  }

  lemma PeerCloseOk(x: Ps, c: Config)
    requires PeerOk(c, x.p)
    ensures PeerOk(c, PeerClose(x, c).p) && SvcsKept(x.p, PeerClose(x, c).p)
  {
    VacantOk(c, Vacant(c));
  }

  lemma UdpAdmitOk(x: Ps, c: Config, svc: nat, ep: Endpoint, now: nat)
    requires PeerOk(c, x.p) && |ep.addr| == 16 && svc < |x.p.svcs|
    ensures PeerOk(c, UdpAdmit(x, svc, ep, now).0.p) && UdpAdmit(x, svc, ep, now).0.p.svcs == x.p.svcs
  {
    if UdpFind(x.p.udp, svc, ep) == |x.p.udp| { UdpCreateOk(x, c, svc, ep, now); }
    var (y, k) := UdpFound(x, svc, ep, now);
    if k < |y.p.udp| { KeptOk(c, y.p, k, Forwarding(y.p.udp[k], now)); }
  }

  lemma UdpReplyOk(x: Ps, c: Config, d: Datagram, now: nat)
    requires PeerOk(c, x.p) && |d.peer.addr| == 16
    ensures PeerOk(c, UdpReply(x, c.window, d, now).0.p) && UdpReply(x, c.window, d, now).0.p.svcs == x.p.svcs
  {
    var k := First(x.p.udp, WithUdpId(d.session));
    if k < |x.p.udp| { KeptOk(c, x.p, k, Answered(x.p.udp[k], c.window, d, now)); }
  }

  lemma UdpOutOk(x: Ps, c: Config, d: Datagram, sent: bool, now: nat)
    requires PeerOk(c, x.p) && |d.peer.addr| == 16
    ensures PeerOk(c, UdpOut(x, c, d, sent, now).p) && SvcsKept(x.p, UdpOut(x, c, d, sent, now).p)
  {
    UdpReplyOk(x, c, d, now);
    PeerCloseOk(x, c);
    PeerCloseOk(UdpReply(x, c.window, d, now).0, c);
  }

  lemma UdpInOk(x: Ps, c: Config, svc: nat, ep: Endpoint, oversized: bool, sent: bool, now: nat)
    requires PeerOk(c, x.p) && |ep.addr| == 16
    ensures PeerOk(c, UdpIn(x, c, svc, ep, oversized, sent, now).p)
    ensures SvcsKept(x.p, UdpIn(x, c, svc, ep, oversized, sent, now).p)
  {
    if svc < |x.p.svcs| && !oversized {
      UdpAdmitOk(x, c, svc, ep, now);
      PeerCloseOk(UdpAdmit(x, svc, ep, now).0, c);
    }
  }

  lemma FewerOk(c: Config, p: Peer, q: Peer)
    requires Fewer(p, q) && PeerOk(c, p)
    ensures PeerOk(c, q)
  {
    FewerTables(c, p, q);
  }

  lemma SweepOk(x: Ps, c: Config, now: nat, silent: bool)
    requires PeerOk(c, x.p)
    ensures PeerOk(c, Sweep(x, c, now, silent).p) && SvcsKept(x.p, Sweep(x, c, now, silent).p)
  {
    if x.p.active {
      var a := ExpirePending(x, now, 0);
      ExpirePendingFewer(x, now, 0);
      FewerOk(c, x.p, a.p);
      var b := ExpireStarting(a, now, 0);
      ExpireStartingFewer(a, now, 0);
      FewerOk(c, a.p, b.p);
      UdpExpireOk(b, c, now, 0);
      PeerCloseOk(UdpExpire(b, now, 0), c);
    }
  }

  // ----- registration -----

  /** A service added to the table. Sessions of a service that did not exist: none. */
  lemma NewServiceOk(c: Config, p: Peer, s: Service)
    requires PeerOk(c, p) && p.active && Allowed(p.auth, s) && !HasService(p, s.id)
    requires |p.svcs| < p.auth.maxServices && |p.svcs| < c.maxServices
    ensures PeerOk(c, p.(svcs := p.svcs + [s]))
  {
    var q := p.(svcs := p.svcs + [s]);
    SameIds(p, q);
    SumZero(p.udp, OfService(|p.svcs|));
  }

  lemma RegisterOk(x: Ps, c: Config, control: seq<Listener>, peers: seq<Peer>, r: Request,
                   bound: seq<Listener>, udpFds: seq<Socket>)
    requires PeerOk(c, x.p) && x.p.active && ListenSet(r.addr, bound) && |udpFds| <= 2
    ensures PeerOk(c, Registered(x, c, control, peers, r, bound, udpFds).p)
  {
    if Registered(x, c, control, peers, r, bound, udpFds).p != x.p {
      if r.udp {
        NewServiceOk(c, x.p, Service(r.id, r.addr, r.port, true, [], udpFds, r.udpMax, r.udpIdleMs));
      } else {
        NewServiceOk(c, x.p, Service(r.id, r.addr, r.port, false, bound, [], r.udpMax, r.udpIdleMs));
      }
    }
  }
}

/** The three gauges the server keeps beside its tables: every step of a peer changes each
    gauge by exactly what it changes in the table, so no decrement ever clamps. */
module ServerGauges {
  import opened Bytes
  import opened Bags
  import opened Metrics
  import opened UdpCodec
  import opened ServerSpec

  /** A reading of the three gauges. */
  datatype Gauges = Gauges(pending: nat, idle: nat, udp: nat)

  function Read(m: Counters): Gauges { Gauges(m[PENDING_STREAMS], m[WORK_IDLE], m[UDP_ACTIVE]) }

  /** What the peer's tables account for. */
  function Share(p: Peer): Gauges { Gauges(|p.pending|, |p.work|, Sum(p.udp, IsActive)) }

  predicate Leq(a: Gauges, b: Gauges) { a.pending <= b.pending && a.idle <= b.idle && a.udp <= b.udp }
  function Plus(a: Gauges, b: Gauges): Gauges { Gauges(a.pending + b.pending, a.idle + b.idle, a.udp + b.udp) }

  ghost predicate Covered(x: Ps) { Leq(Share(x.p), Read(x.m)) }

  /** Readings and tables change together. */
  ghost predicate Tracks(x: Ps, y: Ps) { Plus(Read(y.m), Share(x.p)) == Plus(Read(x.m), Share(y.p)) }

  /** No gauge is saturated. */
  ghost predicate Roomy(m: Counters)
  {
    m[PENDING_STREAMS] < U64_MAX && m[WORK_IDLE] < U64_MAX && m[UDP_ACTIVE] < U64_MAX
  }

  lemma {:induction false} DecByIs(m: Counters, id: nat, n: nat)
    requires id < COUNT && m[id] >= n
    ensures forall i :: 0 <= i < COUNT && i != id ==> DecBy(m, id, n)[i] == m[i]
    ensures DecBy(m, id, n)[id] + n == m[id]
    decreases n
  {
    if n > 0 { DecByIs(m, id, n - 1); }
  }

  /** peer_close hands back the peer's whole share. */
  lemma PeerCloseTracks(x: Ps, c: Config)
    requires Covered(x)
    ensures Tracks(x, PeerClose(x, c))
  {
    if x.p.active {
      SumZero(Vacant(c).udp, IsActive);
      var a := DecBy(x.m, WORK_IDLE, |x.p.work|);
      DecByIs(x.m, WORK_IDLE, |x.p.work|);
      var b := DecBy(a, PENDING_STREAMS, |x.p.pending|);
      DecByIs(a, PENDING_STREAMS, |x.p.pending|);
      DecByIs(b, UDP_ACTIVE, Sum(x.p.udp, IsActive));
    }
  }

  lemma {:induction false} MatchTracks(x: Ps, c: Config, now: nat, sends: seq<bool>)
    requires Covered(x)
    ensures Tracks(x, Match(x, c, now, sends))
    decreases |x.p.pending|
  {
    if CanMatch(x.p, c) {
      var sent := sends == [] || sends[0];
      MatchOneTracks(x, c, now, sent);
      MatchTracks(MatchOne(x, c, now, sent), c, now, if sends == [] then [] else sends[1..]);
    }
  }

  lemma MatchOneTracks(x: Ps, c: Config, now: nat, sent: bool)
    requires Covered(x) && x.p.pending != [] && x.p.work != []
    ensures Tracks(x, MatchOne(x, c, now, sent))
  {
  }

  lemma AddWorkTracks(x: Ps, c: Config, fd: Socket, now: nat, sends: seq<bool>)
    requires Covered(x) && Roomy(x.m)
    ensures Tracks(x, AddWork(x, c, fd, now, sends))
  {
    MatchTracks(Ps(x.p.(work := x.p.work + [fd]), x.os, Inc(x.m, WORK_IDLE)), c, now, sends);
  }

  lemma AddPendingTracks(x: Ps, c: Config, fd: Socket, svc: nat, ok: bool, now: nat, sends: seq<bool>)
    requires Covered(x) && Roomy(x.m)
    ensures Tracks(x, AddPending(x, c, fd, svc, ok, now, sends))
  {
    MatchTracks(Ps(x.p.(pending := x.p.pending + [Pending(fd, svc, now + c.connectMs)]), Opened(x.os, [fd]),
                   Inc(x.m, PENDING_STREAMS)), c, now, sends);
  }

  lemma FinishStartingTracks(x: Ps, i: nat, ready: bool)
    requires i < |x.p.starting|
    ensures Tracks(x, FinishStarting(x, i, ready)) && Tracks(x, DropStarting(x, i))
  {
  }

  lemma {:induction false} ExpirePendingTracks(x: Ps, now: nat, j: nat)
    requires Covered(x)
    ensures Tracks(x, ExpirePending(x, now, j))
    decreases |x.p.pending| - j
  {
    if j < |x.p.pending| {
      if x.p.pending[j].deadline < now {
        ExpirePendingTracks(ExpireOne(x, j), now, j);
      } else {
        ExpirePendingTracks(x, now, j + 1);
      }
    }
  }

  lemma {:induction false} ExpireStartingTracks(x: Ps, now: nat, j: nat)
    requires Covered(x)
    ensures Tracks(x, ExpireStarting(x, now, j))
    decreases |x.p.starting| - j
  {
    if j < |x.p.starting| {
      if x.p.starting[j].deadline <= now {
        var y := DropStarting(x, j);
        ExpireStartingTracks(y.(m := Inc(y.m, STREAMS_FAILED)), now, j);
      } else {
        ExpireStartingTracks(x, now, j + 1);
      }
    }
  }

  lemma {:induction false} UdpExpireTracks(x: Ps, now: nat, j: nat)
    requires Covered(x)
    ensures Tracks(x, UdpExpire(x, now, j))
    decreases |x.p.udp| - j
  {
    if j < |x.p.udp| {
      if UdpExpired(x.p, x.p.udp[j], now) {
        SumUpdate(x.p.udp, j, Idle, IsActive);
        UdpExpireTracks(x.(p := x.p.(udp := x.p.udp[j := Idle]), m := Dec(x.m, UDP_ACTIVE)), now, j + 1);
      } else {
        UdpExpireTracks(x, now, j + 1);
      }
    }
  }

  lemma UdpCreateTracks(x: Ps, svc: nat, ep: Endpoint, now: nat)
    requires Roomy(x.m) && svc < |x.p.svcs|
    ensures Tracks(x, UdpCreate(x, svc, ep, now).0)
  {
    var k := FreeUdp(x.p.udp);
    if k < |x.p.udp| { SumUpdate(x.p.udp, k, NewUdp(NextId(x.p.ids).next, svc, ep, now), IsActive); }
  }

  lemma UdpSetTracks(x: Ps, k: nat, u: UdpSession)
    requires k < |x.p.udp| && x.p.udp[k].Active? && u.Active?
    ensures Tracks(x, UdpSet(x, k, u))
  {
    SumUpdate(x.p.udp, k, u, IsActive);
  }

  lemma UdpAdmitTracks(x: Ps, svc: nat, ep: Endpoint, now: nat)
    requires Roomy(x.m) && |ep.addr| == 16 && svc < |x.p.svcs|
    ensures Tracks(x, UdpAdmit(x, svc, ep, now).0)
  {
    UdpCreateTracks(x, svc, ep, now);
    var (y, k) := UdpFound(x, svc, ep, now);
    if k < |y.p.udp| { UdpSetTracks(y, k, Forwarding(y.p.udp[k], now)); }
  }

  lemma UdpInTracks(x: Ps, c: Config, svc: nat, ep: Endpoint, oversized: bool, sent: bool, now: nat)
    requires Covered(x) && Roomy(x.m) && |ep.addr| == 16
    ensures Tracks(x, UdpIn(x, c, svc, ep, oversized, sent, now))
  {
    if svc < |x.p.svcs| && !oversized {
      UdpAdmitTracks(x, svc, ep, now);
      PeerCloseTracks(UdpAdmit(x, svc, ep, now).0, c);
    }
  }

  lemma UdpOutTracks(x: Ps, c: Config, d: Datagram, sent: bool, now: nat)
    requires Covered(x) && |d.peer.addr| == 16
    ensures Tracks(x, UdpOut(x, c, d, sent, now))
  {
    var k := First(x.p.udp, WithUdpId(d.session));
    if k < |x.p.udp| { UdpSetTracks(x, k, Answered(x.p.udp[k], c.window, d, now)); }
    PeerCloseTracks(x, c);
    PeerCloseTracks(UdpReply(x, c.window, d, now).0, c);
  }

  lemma SweepTracks(x: Ps, c: Config, now: nat, silent: bool)
    requires Covered(x)
    ensures Tracks(x, Sweep(x, c, now, silent))
  {
    var a := ExpirePending(x, now, 0);
    ExpirePendingTracks(x, now, 0);
    var b := ExpireStarting(a, now, 0);
    ExpireStartingTracks(a, now, 0);
    UdpExpireTracks(b, now, 0);
    PeerCloseTracks(UdpExpire(b, now, 0), c);
  }

  lemma RegisterTracks(x: Ps, c: Config, control: seq<Listener>, peers: seq<Peer>, r: Request,
                       bound: seq<Listener>, udpFds: seq<Socket>)
    ensures Tracks(x, Registered(x, c, control, peers, r, bound, udpFds))
  {
  }
}

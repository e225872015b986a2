/** The server's tables updated in place, as the loop of src/server/server.c does it. Peers
    are an array of records; queues shrink by shifting or swap-remove; each method is proved
    against the function of the same step, so everything proved of runs holds of it. */
module Servers {
  import opened Bytes
  import opened Bags
  import opened Metrics
  import opened UdpCodec
  import opened ServerSpec
  import ReplayWindow

  // ----- small facts about the specification -----

  lemma {:induction false} CloseAllConcat(os: Os, a: seq<Socket>, b: seq<Socket>)
    ensures CloseAll(os, a + b) == CloseAll(CloseAll(os, a), b)
    decreases |b|
  {
    if b == [] {
      assert a + b == a;
    } else {
      var n := |b| - 1;
      CloseAllConcat(os, a, b[..n]);
      assert (a + b)[..|a + b| - 1] == a + b[..n];
    }
  }

  lemma FlatNext<T>(xs: seq<T>, k: nat, g: T -> seq<Socket>)
    requires k < |xs|
    ensures Flat(xs[..k + 1], g) == Flat(xs[..k], g) + g(xs[k])
  {
    assert xs[..k + 1][..k] == xs[..k];
  }

  lemma SumNext<T>(xs: seq<T>, k: nat, f: T -> nat)
    requires k < |xs|
    ensures Sum(xs[..k + 1], f) == Sum(xs[..k], f) + f(xs[k])
  {
    assert xs[..k + 1][..k] == xs[..k];
  }

  lemma CloseNext<T>(os: Os, xs: seq<T>, k: nat, g: T -> seq<Socket>)
    requires k < |xs|
    ensures CloseAll(os, Flat(xs[..k + 1], g)) == CloseAll(CloseAll(os, Flat(xs[..k], g)), g(xs[k]))
  {
    FlatNext(xs, k, g);
    CloseAllConcat(os, Flat(xs[..k], g), g(xs[k]));
  }

  lemma CloseTwo(os: Os, a: Socket, b: Socket)
    ensures CloseAll(os, [a, b]) == CloseFd(CloseFd(os, a), b)
  {
    assert [a, b][..1] == [a] && [a][..0] == [];
    assert CloseAll(os, [a]) == CloseFd(os, a);
  }

  lemma PeerFdsClosed(os: Os, p: Peer)
    ensures CloseAll(os, PeerFds(p)) ==
      CloseAll(CloseAll(CloseAll(CloseAll(CloseAll(CloseAll(CloseFd(os, p.fd), Flat(p.svcs, ListenFds)),
        Flat(p.svcs, UdpFdsOf)), p.work), Flat(p.pending, PendingFds)), Flat(p.starting, StartingFds)),
        Flat(p.relays, SlotFds))
  {
    var a, b := [p.fd], Flat(p.svcs, ListenFds);
    assert a[..0] == [];
    assert CloseAll(os, a) == CloseFd(os, p.fd);
    CloseAllConcat(os, ServiceFds(p), QueueFds(p));
    CloseAllConcat(os, a + b, Flat(p.svcs, UdpFdsOf));
    CloseAllConcat(os, a, b);
    var o := CloseAll(os, ServiceFds(p));
    CloseAllConcat(o, p.work + Flat(p.pending, PendingFds) + Flat(p.starting, StartingFds), Flat(p.relays, SlotFds));
    CloseAllConcat(o, p.work + Flat(p.pending, PendingFds), Flat(p.starting, StartingFds));
    CloseAllConcat(o, p.work, Flat(p.pending, PendingFds));
  }

  /** The linear searches of the server's tables. */
  method Search<T>(xs: seq<T>, p: T -> bool) returns (k: nat)
    ensures k == First(xs, p)
  {
    k := 0;
    while k < |xs| && !p(xs[k])
      invariant 0 <= k <= |xs| && forall j :: 0 <= j < k ==> !p(xs[j])
    {
      k := k + 1;
    }
    FirstIs(xs, p, k);
  }

  /** incoming_for_remote. */
  method Connections(xs: seq<Incoming>, remote: string) returns (n: nat)
    ensures n == CountRemote(xs, remote)
  {
    n := 0;
    for k := 0 to |xs|
      invariant n == Sum(xs[..k], IsFrom(remote))
    {
      SumNext(xs, k, IsFrom(remote));
      if xs[k].remote == remote { n := n + 1; }
    }
    assert xs[..|xs|] == xs;
  }

  class Server {
    const c: Config
    const peers: array<Peer>
    var control: seq<Listener>
    var incoming: seq<Incoming>
    /** The descriptor table of the process. */
    var os: Os
    var m: Counters

    ghost function Now(): State
      reads this, peers
    {
      State(control, incoming, peers[..], os, m)
    }

    ghost function Here(i: nat): Ps
      requires i < peers.Length
      reads this, peers
    {
      Ps(peers[i], os, m)
    }

    constructor (c: Config, control: seq<Listener>)
      ensures this.c == c && fresh(peers) && Now() == Boot(c, control)
    {
      this.c := c;
      peers := new Peer[c.compiledClients](_ => Vacant(c));
      this.control, incoming := control, [];
      os, m := Os(set fd | fd in Fds(control), false), Zeros(COUNT);
    }

    // ----- closing -----

    method CloseSockets(fds: seq<Socket>)
      modifies this`os
      ensures os == CloseAll(old(os), fds)
    {
      for k := 0 to |fds|
        invariant os == CloseAll(old(os), fds[..k])
      {
        assert fds[..k + 1][..k] == fds[..k];
        os := CloseFd(os, fds[k]);
      }
      assert fds[..|fds|] == fds;
    }

    method CloseEach<T>(xs: seq<T>, g: T -> seq<Socket>)
      modifies this`os
      ensures os == CloseAll(old(os), Flat(xs, g))
    {
      for k := 0 to |xs|
        invariant os == CloseAll(old(os), Flat(xs[..k], g))
      {
        CloseNext(old(os), xs, k, g);
        CloseSockets(g(xs[k]));
      }
      assert xs[..|xs|] == xs;
    }

    method Lower(id: nat, n: nat)
      modifies this`m
      ensures m == DecBy(old(m), id, n)
    {
      for k := 0 to n
        invariant m == DecBy(old(m), id, k)
      {
        m := Dec(m, id);
      }
    }

    method CountSessions(i: nat) returns (n: nat)
      requires i < peers.Length
      ensures n == Sum(peers[i].udp, IsActive)
    {
      n := 0;
      var us := peers[i].udp;
      for k := 0 to |us|
        invariant n == Sum(us[..k], IsActive)
      {
        SumNext(us, k, IsActive);
        if us[k].Active? { n := n + 1; }
      }
      assert us[..|us|] == us;
    }

    /** peer_close. */
    method ClosePeer(i: nat)
      requires i < peers.Length
      modifies this`os, this`m, peers
      ensures peers[..] == old(peers[..])[i := peers[i]]
      ensures Here(i) == PeerClose(old(Here(i)), c)
    {
      var p := peers[i];
      if !p.active { return; }
      PeerFdsClosed(os, p);
      os := CloseFd(os, p.fd);
      CloseEach(p.svcs, ListenFds);
      CloseEach(p.svcs, UdpFdsOf);
      CloseSockets(p.work);
      Lower(WORK_IDLE, |p.work|);
      CloseEach(p.pending, PendingFds);
      Lower(PENDING_STREAMS, |p.pending|);
      CloseEach(p.starting, StartingFds);
      CloseEach(p.relays, SlotFds);
      var n := CountSessions(i);
      Lower(UDP_ACTIVE, n);
      peers[i] := Vacant(c);
    }

    // ----- streams -----

    /** active_streams. */
    method CountStreams(i: nat) returns (n: nat)
      requires i < peers.Length
      ensures n == ActiveStreams(peers[i])
    {
      var rs := peers[i].relays;
      n := |peers[i].pending| + |peers[i].starting|;
      for k := 0 to |rs|
        invariant n == |peers[i].pending| + |peers[i].starting| + Sum(rs[..k], IsOpen)
      {
        SumNext(rs, k, IsOpen);
        if rs[k].Open? { n := n + 1; }
      }
      assert rs[..|rs|] == rs;
    }

    /** start_relay_begin: fails on a full table, otherwise numbers the stream and queues it
        if START was sent. */
    method BeginRelay(i: nat, pc: Pending, work: Socket, now: nat, sent: bool) returns (ok: bool)
      requires i < peers.Length
      modifies peers
      ensures ok == (sent && |old(peers[i]).starting| != c.compiledPending)
      ensures peers[..] == old(peers[..])[i := peers[i]]
      ensures |old(peers[i]).starting| == c.compiledPending ==> peers[i] == old(peers[i])
      ensures |old(peers[i]).starting| != c.compiledPending ==> var ids := NextId(old(peers[i]).ids);
        peers[i] == old(peers[i]).(ids := ids, starting := old(peers[i]).starting
                    + if sent then [Starting(pc, work, ids.next, now + c.connectMs)] else [])
    {
      var p := peers[i];
      if |p.starting| == c.compiledPending { return false; }
      var ids := if p.ids.next == U64_MAX then Counter(1, true) else Counter(p.ids.next + 1, p.ids.wrapped);
      p := p.(ids := ids);
      if sent { p := p.(starting := p.starting + [Starting(pc, work, ids.next, now + c.connectMs)]); }
      peers[i] := p;
      assert p.starting + [] == p.starting;
      return sent;
    }

    /** match_pending. */
    method MatchPending(i: nat, now: nat, sends: seq<bool>)
      requires i < peers.Length
      modifies this`os, this`m, peers
      ensures peers[..] == old(peers[..])[i := peers[i]]
      ensures Here(i) == Match(old(Here(i)), c, now, sends)
    {
      var rest := sends;
      while peers[i].pending != [] && peers[i].work != [] && |peers[i].starting| < c.compiledPending
        invariant peers[..] == old(peers[..])[i := peers[i]]
        invariant Match(Here(i), c, now, rest) == Match(old(Here(i)), c, now, sends)
        decreases |peers[i].pending|
      {
        ghost var was := Here(i);
        var sent := rest == [] || rest[0];
        var pc, w := peers[i].pending[0], peers[i].work[|peers[i].work| - 1];
        peers[i] := peers[i].(pending := peers[i].pending[1..], work := peers[i].work[..|peers[i].work| - 1]);
        m := Dec(Dec(m, PENDING_STREAMS), WORK_IDLE);
        var ok := BeginRelay(i, pc, w, now, sent);
        if !ok {
          os := CloseFd(CloseFd(os, pc.fd), w);
          m := Inc(m, STREAMS_FAILED);
        }
        assert Here(i) == MatchOne(was, c, now, sent);
        rest := if rest == [] then [] else rest[1..];
      }
    }

    /** remove_starting. */
    method RemoveStarting(i: nat, k: nat, close: bool)
      requires i < peers.Length && k < |peers[i].starting|
      modifies this`os, peers
      ensures peers[..] == old(peers[..])[i := peers[i]]
      ensures peers[i] == old(peers[i]).(starting := SwapRemove(old(peers[i]).starting, k))
      ensures os == if close then DropStarting(old(Here(i)), k).os else old(os)
    {
      var s := peers[i].starting;
      if close { os := CloseFd(CloseFd(os, s[k].pending.fd), s[k].work); }
      peers[i] := peers[i].(starting := s[k := s[|s| - 1]][..|s| - 1]);
    }

    /** start_relay_finish and its caller. */
    method FinishRelay(i: nat, k: nat, ready: bool)
      requires i < peers.Length && k < |peers[i].starting|
      modifies this`os, peers
      ensures peers[..] == old(peers[..])[i := peers[i]]
      ensures Here(i) == FinishStarting(old(Here(i)), k, ready)
    {
      var slot := Search(peers[i].relays, IsClosed);
      if slot == |peers[i].relays| || !ready {
        RemoveStarting(i, k, true);
      } else {
        var s := peers[i].starting[k];
        peers[i] := peers[i].(relays := peers[i].relays[slot := Open(s.pending.fd, s.work, s.id)]);
        RemoveStarting(i, k, false);
      }
    }

    /** A frame, or an error, on the work connection of a starting stream. */
    method AnswerArrives(i: nat, work: Socket, broken: bool, ready: bool)
      requires i < peers.Length
      modifies this`os, peers
      ensures Now() == Step(old(Now()), c, Answer(i, work, broken, ready))
    {
      var k := Search(peers[i].starting, StartingOn(work));
      if k == |peers[i].starting| { return; }
      if broken { RemoveStarting(i, k, true); } else { FinishRelay(i, k, ready); }
    }

    /** A connection accepted on a listener of service svc. */
    method Connected(i: nat, svc: nat, fd: Socket, endpointsOk: bool, now: nat, sends: seq<bool>)
      requires i < peers.Length
      modifies this`os, this`m, peers
      ensures peers[..] == old(peers[..])[i := peers[i]]
      ensures Here(i) == AddPending(old(Here(i)), c, fd, svc, endpointsOk, now, sends)
    {
      os := Opened(os, [fd]);
      if !endpointsOk { os := CloseFd(os, fd); return; }
      var streams := CountStreams(i);
      if |peers[i].pending| >= c.maxPending || |peers[i].pending| == c.compiledPending
         || streams >= peers[i].auth.maxStreams || streams >= c.maxStreams {
        os := CloseFd(os, fd);
        return;
      }
      peers[i] := peers[i].(pending := peers[i].pending + [Pending(fd, svc, now + c.connectMs)]);
      m := Inc(m, PENDING_STREAMS);
      MatchPending(i, now, sends);
    }

    // ----- expiry -----

    method ExpirePendingOf(i: nat, now: nat)
      requires i < peers.Length
      modifies this`os, this`m, peers
      ensures peers[..] == old(peers[..])[i := peers[i]]
      ensures Here(i) == ExpirePending(old(Here(i)), now, 0)
    {
      var j := 0;
      while j < |peers[i].pending|
        invariant peers[..] == old(peers[..])[i := peers[i]]
        invariant ExpirePending(Here(i), now, j) == ExpirePending(old(Here(i)), now, 0)
        decreases |peers[i].pending| - j
      {
        var s := peers[i].pending;
        if s[j].deadline < now {
          ghost var was := Here(i);
          os := CloseFd(os, s[j].fd);
          peers[i] := peers[i].(pending := s[j := s[|s| - 1]][..|s| - 1]);
          m := Inc(Dec(m, PENDING_STREAMS), STREAMS_FAILED);
          assert Here(i) == ExpireOne(was, j);
        } else {
          j := j + 1;
        }
      }
    }

    method ExpireStartingOf(i: nat, now: nat)
      requires i < peers.Length
      modifies this`os, this`m, peers
      ensures peers[..] == old(peers[..])[i := peers[i]]
      ensures Here(i) == ExpireStarting(old(Here(i)), now, 0)
    {
      var j := 0;
      while j < |peers[i].starting|
        invariant peers[..] == old(peers[..])[i := peers[i]]
        invariant ExpireStarting(Here(i), now, j) == ExpireStarting(old(Here(i)), now, 0)
        decreases |peers[i].starting| - j
      {
        if peers[i].starting[j].deadline <= now {
          RemoveStarting(i, j, true);
          m := Inc(m, STREAMS_FAILED);
        } else {
          j := j + 1;
        }
      }
    }

    /** server_udp_expire. */
    method ExpireSessions(i: nat, now: nat)
      requires i < peers.Length
      modifies this`m, peers
      ensures peers[..] == old(peers[..])[i := peers[i]]
      ensures Here(i) == UdpExpire(old(Here(i)), now, 0)
    {
      var j := 0;
      while j < |peers[i].udp|
        invariant peers[..] == old(peers[..])[i := peers[i]]
        invariant UdpExpire(Here(i), now, j) == UdpExpire(old(Here(i)), now, 0)
        decreases |peers[i].udp| - j
      {
        if UdpExpired(peers[i], peers[i].udp[j], now) {
          peers[i] := peers[i].(udp := peers[i].udp[j := Idle]);
          m := Dec(m, UDP_ACTIVE);
        }
        j := j + 1;
      }
    }

    /** The end-of-loop sweep of one peer. */
    method SweepPeer(i: nat, now: nat, silent: bool)
      requires i < peers.Length
      modifies this`os, this`m, peers
      ensures Now() == Step(old(Now()), c, ExpirePeer(i, now, silent))
    {
      if !peers[i].active { return; }
      ExpirePendingOf(i, now);
      ExpireStartingOf(i, now);
      ExpireSessions(i, now);
      if silent { ClosePeer(i); }
    }

    // ----- registration -----

    /** listen_set_overlaps_existing. */
    method Overlaps(ls: seq<Listener>) returns (found: bool)
      ensures found == OverlapsExisting(ls, control, peers[..])
    {
      found := OverlapsOneSet(ls, control);
      if found { return; }
      for i := 0 to peers.Length
        invariant forall a :: 0 <= a < i ==> !OverlapsPeer(ls, peers[a])
      {
        if peers[i].active {
          for k := 0 to |peers[i].svcs|
            invariant forall b :: 0 <= b < k ==> !OverlapsAny(ls, peers[i].svcs[b].listeners)
          {
            found := OverlapsOneSet(ls, peers[i].svcs[k].listeners);
            if found {
              assert OverlapsPeer(ls, peers[..][i]);
              return;
            }
          }
        }
      }
      found := false;
    }

    method OverlapsOneSet(ls: seq<Listener>, ks: seq<Listener>) returns (found: bool)
      ensures found == OverlapsAny(ls, ks)
    {
      for i := 0 to |ls|
        invariant forall a, b :: 0 <= a < i && 0 <= b < |ks| ==> !Overlap(ls[a].at, ks[b].at)
      {
        for j := 0 to |ks|
          invariant forall b :: 0 <= b < j ==> !Overlap(ls[i].at, ks[b].at)
        {
          if Overlap(ls[i].at, ks[j].at) { return true; }
        }
      }
      return false;
    }

    /** find_service. */
    method KnowsService(i: nat, id: seq<byte>) returns (found: bool)
      requires i < peers.Length
      ensures found == HasService(peers[i], id)
    {
      for k := 0 to |peers[i].svcs|
        invariant forall a :: 0 <= a < k ==> peers[i].svcs[a].id != id
      {
        if peers[i].svcs[k].id == id { return true; }
      }
      return false;
    }

    /** register_service. */
    method RegisterService(i: nat, r: Request, bound: seq<Listener>, udpFds: seq<Socket>)
      requires i < peers.Length && peers[i].active
      modifies this`os, peers
      ensures Now() == With(old(Now()), i, Registered(old(Here(i)), c, control, old(peers[..]), r, bound, udpFds))
    {
      var p := peers[i];
      var known := KnowsService(i, r.id);
      if !r.valid || known || |p.svcs| >= p.auth.maxServices || |p.svcs| >= c.maxServices
         || !Authorized(p.auth, r.addr, r.port) {
        return;
      }
      var s := Service(r.id, r.addr, r.port, r.udp, if r.udp then [] else bound, if r.udp then udpFds else [],
                       r.udpMax, r.udpIdleMs);
      if !r.udp && bound != [] {
        os := Opened(os, Fds(bound));
        var conflict := Overlaps(bound);
        if conflict { CloseSockets(Fds(bound)); } else { peers[i] := p.(svcs := p.svcs + [s]); }
      } else if r.udp && udpFds != [] {
        os := Opened(os, udpFds);
        peers[i] := p.(svcs := p.svcs + [s]);
      }
    }

    // ----- UDP sessions -----

    /** server_udp_find, or the size of the table. */
    method FindUdp(i: nat, svc: nat, ep: Endpoint) returns (k: nat)
      requires i < peers.Length && |ep.addr| == 16
      ensures k == UdpFind(peers[i].udp, svc, ep)
    {
      var us := peers[i].udp;
      k := 0;
      while k < |us| && !UdpMatches(us[k], svc, ep)
        invariant 0 <= k <= |us| && forall j :: 0 <= j < k ==> !UdpMatches(us[j], svc, ep)
      {
        k := k + 1;
      }
    }

    /** server_udp_create. */
    method CreateUdp(i: nat, svc: nat, ep: Endpoint, now: nat) returns (k: nat)
      requires i < peers.Length && svc < |peers[i].svcs|
      modifies this`m, peers
      ensures peers[..] == old(peers[..])[i := peers[i]]
      ensures (Here(i), k) == UdpCreate(old(Here(i)), svc, ep, now)
    {
      var n := CountSessions(i);
      if n >= peers[i].svcs[svc].udpMax { return |peers[i].udp|; }
      var us := peers[i].udp;
      k := Search(us, IsIdle);
      if k == |us| { return; }
      var ids := NextId(peers[i].ids);
      peers[i] := peers[i].(udp := us[k := NewUdp(ids.next, svc, ep, now)], ids := ids);
      m := Inc(m, UDP_ACTIVE);
    }

    /** The session for a datagram, found or created, with its next sequence number. */
    method AdmitUdp(i: nat, svc: nat, ep: Endpoint, now: nat) returns (k: nat)
      requires i < peers.Length && svc < |peers[i].svcs| && |ep.addr| == 16
      modifies this`m, peers
      ensures peers[..] == old(peers[..])[i := peers[i]]
      ensures (Here(i), k) == UdpAdmit(old(Here(i)), svc, ep, now)
    {
      k := FindUdp(i, svc, ep);
      if k == |peers[i].udp| { k := CreateUdp(i, svc, ep, now); }
      if k == |peers[i].udp| { return; }
      var u := peers[i].udp[k];
      peers[i] := peers[i].(udp := peers[i].udp[k := u.(lastMs := now, tx := (u.tx + 1) % U64_LIMIT)]);
    }

    /** server_udp_from_external. */
    method DatagramArrives(i: nat, svc: nat, ep: Endpoint, oversized: bool, sent: bool, now: nat)
      requires i < peers.Length && svc < |peers[i].svcs| && |ep.addr| == 16
      modifies this`os, this`m, peers
      ensures peers[..] == old(peers[..])[i := peers[i]]
      ensures Here(i) == UdpIn(old(Here(i)), c, svc, ep, oversized, sent, now)
    {
      if oversized { return; }
      var k := AdmitUdp(i, svc, ep, now);
      if k < |peers[i].udp| && !sent { ClosePeer(i); }
    }

    /** server_udp_from_client. */
    method ReplyArrives(i: nat, d: Datagram, sent: bool, now: nat)
      requires i < peers.Length && |d.peer.addr| == 16
      modifies this`os, this`m, peers
      ensures peers[..] == old(peers[..])[i := peers[i]]
      ensures Here(i) == UdpOut(old(Here(i)), c, d, sent, now)
    {
      if d.direction != 1 { ClosePeer(i); return; }
      var p := peers[i];
      var k := Search(p.udp, WithUdpId(d.session));
      if k == |p.udp| { return; }
      var u := p.udp[k];
      if u.svc >= |p.svcs| || p.svcs[u.svc].id != d.service || |u.peer.addr| != 16 || !SameEndpoint(u.peer, d.peer) {
        return;
      }
      var t := ReplayWindow.Accept(u.rx, c.window, d.sequence);
      if !t.0 { return; }
      peers[i] := p.(udp := p.udp[k := u.(lastMs := now, rx := t.1)]);
      if !sent { ClosePeer(i); }
    }

    // ----- incoming connections and shutdown -----

    /** remove_incoming. */
    method RemoveIncoming(k: nat, close: bool)
      requires k < |incoming|
      modifies this`incoming, this`os
      ensures incoming == SwapRemove(old(incoming), k)
      ensures os == if close then CloseFd(old(os), old(incoming)[k].fd) else old(os)
    {
      if close { os := CloseFd(os, incoming[k].fd); }
      incoming := incoming[k := incoming[|incoming| - 1]][..|incoming| - 1];
    }

    /** A connection accepted on a control listener. */
    method AcceptConnection(fd: Socket, remote: string, now: nat)
      requires NewSockets(os, [fd])
      modifies this`incoming, this`os
      ensures Now() == Step(old(Now()), c, Accept(fd, remote, now))
    {
      os := Opened(os, [fd]);
      var n := Connections(incoming, remote);
      if |incoming| == c.maxIncoming || n >= 2 {
        os := CloseFd(os, fd);
      } else {
        incoming := incoming + [Incoming(fd, false, now + c.handshakeMs, remote)];
      }
    }

    /** A work connection bound to this peer's session. */
    method TakeWork(i: nat, k: nat, now: nat, sends: seq<bool>)
      requires i < peers.Length && k < |incoming|
      modifies this`incoming, this`os, this`m, peers
      ensures incoming == SwapRemove(old(incoming), k)
      ensures peers[..] == old(peers[..])[i := peers[i]]
      ensures Here(i) == AddWork(old(Here(i)), c, old(incoming)[k].fd, now, sends)
    {
      peers[i] := peers[i].(work := peers[i].work + [incoming[k].fd]);
      m := Inc(m, WORK_IDLE);
      RemoveIncoming(k, false);
      MatchPending(i, now, sends);
    }

    /** The peer slot for a client that has authenticated, or the number of slots. */
    method VacantPeer() returns (i: nat)
      ensures i == FreePeer(peers[..], c.maxClients)
    {
      var n := if c.maxClients < peers.Length then c.maxClients else peers.Length;
      i := Search(peers[..n], IsInactive);
      assert peers[..][..n] == peers[..n];
      if i == n { i := peers.Length; }
    }

    /** A frame, or an error, on the incoming connection fd. */
    method FrameArrives(fd: Socket, broken: bool, frame: ServerSpec.Frame, good: bool, session: u64,
                        auth: Auth, now: nat, sends: seq<bool>)
      modifies this`incoming, this`os, this`m, peers
      ensures Now() == Step(old(Now()), c, Arrive(fd, broken, frame, good, session, auth, now, sends))
    {
      var k := Search(incoming, IncomingAt(fd));
      if k == |incoming| { return; }
      if broken { RemoveIncoming(k, true); return; }
      var x := incoming[k];
      if !x.waiting && frame == HelloFrame {
        if good { incoming := incoming[k := x.(waiting := true)]; } else { RemoveIncoming(k, true); }
      } else if !x.waiting && frame == BindFrame {
        var i := Search(peers[..], InSession(session));
        if i == peers.Length || |peers[i].work| == c.compiledStreams || !good {
          RemoveIncoming(k, true);
        } else {
          TakeWork(i, k, now, sends);
        }
      } else if x.waiting && frame == AuthFrame {
        var i := VacantPeer();
        if i == peers.Length || !good {
          RemoveIncoming(k, true);
        } else {
          peers[i] := Vacant(c).(active := true, fd := x.fd, session := session, auth := auth,
                                 ids := Counter(now % U64_LIMIT, false));
          RemoveIncoming(k, false);
        }
      } else {
        RemoveIncoming(k, true);
      }
    }

    method ExpireConnections(now: nat)
      modifies this`incoming, this`os
      ensures Now() == Step(old(Now()), c, ExpireIncoming(now))
    {
      var j := 0;
      while j < |incoming|
        invariant ExpireFrom(Now(), now, j) == ExpireFrom(old(Now()), now, 0)
        decreases |incoming| - j
      {
        if incoming[j].deadline <= now { RemoveIncoming(j, true); } else { j := j + 1; }
      }
    }

    /** The exit path of ct_run_server. */
    method Stop()
      modifies this, peers
      ensures Now() == Shutdown(old(Now()), c)
    {
      for i := 0 to peers.Length
        invariant CloseEveryPeer(Now(), c, i) == CloseEveryPeer(old(Now()), c, 0)
      {
        ghost var was := Now();
        ClosePeer(i);
        assert Now() == With(was, i, PeerClose(Of(was, i), c));
      }
      while incoming != []
        invariant DropEveryIncoming(Now()) == DropEveryIncoming(CloseEveryPeer(old(Now()), c, 0))
        decreases |incoming|
      {
        RemoveIncoming(0, true);
      }
      CloseSockets(Fds(control));
      control := [];
    }
  }
}

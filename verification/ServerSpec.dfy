/** The server's tables and what each event does to them (src/server/server.c). Time, the
    sockets the operating system hands out and the outcome of every call that can fail are
    arguments of the events. */
module ServerSpec {
  import opened Bytes
  import opened Bags
  import opened Metrics
  import opened UdpCodec
  import ReplayWindow

  type Socket = nat

  // ----- configuration -----

  /** Compiled limits (src/Kconfig) and runtime limits (src/config/config.c:527-536). */
  datatype Config = Config(
    maxIncoming: nat, compiledClients: nat, compiledServices: nat, compiledStreams: nat,
    compiledPending: nat, compiledUdp: nat,
    maxClients: nat, maxServices: nat, maxStreams: nat, maxPending: nat,
    handshakeMs: nat, connectMs: nat, bindAddr: string, window: ReplayWindow.Width)

  ghost predicate ConfigOk(c: Config)
  {
    && c.maxIncoming == 2 * c.compiledClients
    && 1 <= c.compiledClients <= 64 && c.compiledServices <= 256
    && 1 <= c.compiledStreams <= 4096 && 1 <= c.compiledPending <= 1024 && c.compiledUdp <= 8192
    && c.maxClients <= c.compiledClients && c.maxServices <= c.compiledServices
    && c.maxStreams <= c.compiledStreams && c.maxPending <= c.compiledPending
  }

  /** An entry of the authorization file. */
  datatype Auth = Auth(maxServices: nat, maxStreams: nat, allowAddr: string, ports: seq<(nat, nat)>)

  /** ct_authorized_port. */
  predicate Authorized(a: Auth, addr: string, port: nat)
  {
    (a.allowAddr == "*" || a.allowAddr == addr) && exists r :: r in a.ports && r.0 <= port <= r.1
  }

  function StreamLimit(c: Config, a: Auth): nat
  {
    if a.maxStreams < c.maxStreams then a.maxStreams else c.maxStreams
  }

  // ----- sockets -----

  /** The open sockets, and whether anything ever closed one that was not open. */
  datatype Os = Os(open: set<Socket>, fault: bool)

  function CloseFd(os: Os, fd: Socket): Os
  {
    if fd in os.open then os.(open := os.open - {fd}) else os.(fault := true)
  }

  function CloseAll(os: Os, fds: seq<Socket>): Os
    decreases |fds|
  {
    if fds == [] then os else CloseFd(CloseAll(os, fds[..|fds| - 1]), fds[|fds| - 1])
  }

  function Opened(os: Os, fds: seq<Socket>): Os { os.(open := os.open + set fd | fd in fds) }

  /** The operating system hands out distinct sockets that are not open. */
  ghost predicate NewSockets(os: Os, fds: seq<Socket>)
  {
    && (forall fd :: fd in fds ==> fd !in os.open)
    && forall i, j :: 0 <= i < j < |fds| ==> fds[i] != fds[j]
  }

  // ----- listeners -----

  datatype Address = V4(addr: nat, port: nat) | V6(addr6: nat, scope: nat, port6: nat)
  datatype Listener = Listener(fd: Socket, at: Address)

  /** ct_net_bound_endpoints_overlap; the wildcard address is zero. */
  predicate Overlap(a: Address, b: Address)
  {
    match (a, b)
    case (V4(x, p), V4(y, q)) => p == q && (x == 0 || y == 0 || x == y)
    case (V6(x, s, p), V6(y, t, q)) => p == q && (x == 0 || y == 0 || (s == t && x == y))
    case _ => false
  }

  /** What listen_set_open can return: for "*" the IPv4 wildcard, the IPv6 wildcard or
      both, otherwise one listener. */
  predicate ListenSet(addr: string, ls: seq<Listener>)
  {
    if addr == "*" then
      || |ls| == 0
      || (|ls| == 1 && ((ls[0].at.V4? && ls[0].at.addr == 0) || (ls[0].at.V6? && ls[0].at.addr6 == 0)))
      || (|ls| == 2 && ls[0].at.V4? && ls[0].at.addr == 0 && ls[1].at.V6? && ls[1].at.addr6 == 0)
    else |ls| <= 1
  }

  // ----- entities -----

  datatype Service = Service(id: seq<byte>, addr: string, port: nat, udp: bool,
                             listeners: seq<Listener>, udpFds: seq<Socket>,
                             udpMax: nat, udpIdleMs: nat)
  datatype Pending = Pending(fd: Socket, svc: nat, deadline: nat)
  datatype Starting = Starting(pending: Pending, work: Socket, id: nat, deadline: nat)
  datatype Slot = Closed | Open(direct: Socket, work: Socket, id: nat)
  datatype UdpSession = Idle | Active(id: u64, svc: nat, peer: Endpoint, lastMs: nat, tx: u64, rx: ReplayWindow.Window)

  /** next_stream, and whether it has gone past 2^64 - 1. */
  datatype Counter = Counter(next: u64, wrapped: bool)

  datatype Peer = Peer(
    active: bool, fd: Socket, session: u64, auth: Auth,
    svcs: seq<Service>, work: seq<Socket>, pending: seq<Pending>, starting: seq<Starting>,
    relays: seq<Slot>, udp: seq<UdpSession>, ids: Counter)

  datatype Incoming = Incoming(fd: Socket, waiting: bool, deadline: nat, remote: string)

  datatype State = State(control: seq<Listener>, incoming: seq<Incoming>, peers: seq<Peer>, os: Os, m: Counters)

  /** A peer together with what it shares with the rest of the server. */
  datatype Ps = Ps(p: Peer, os: Os, m: Counters)

  function NoAuth(): Auth { Auth(0, 0, "", []) }

  /** A zeroed peer with every relay slot closed. */
  function Vacant(c: Config): Peer
  {
    Peer(false, 0, 0, NoAuth(), [], [], [], [],
         seq(c.compiledStreams, _ => Closed), seq(c.compiledUdp, _ => Idle), Counter(0, false))
  }

  /** ++next_stream, skipping zero. */
  function NextId(k: Counter): Counter
  {
    if k.next == U64_MAX then Counter(1, true) else Counter(k.next + 1, k.wrapped)
  }

  // ----- counts and socket lists -----

  function IsOpen(s: Slot): nat { if s.Open? then 1 else 0 }
  function IsActive(u: UdpSession): nat { if u.Active? then 1 else 0 }

  /** active_streams. */
  function ActiveStreams(p: Peer): nat { |p.pending| + |p.starting| + Sum(p.relays, IsOpen) }

  function ListenFds(s: Service): seq<Socket> { Fds(s.listeners) }
  function Fds(ls: seq<Listener>): (r: seq<Socket>)
    ensures |r| == |ls|
  {
    seq(|ls|, i requires 0 <= i < |ls| => ls[i].fd)
  }
  function PendingFds(x: Pending): seq<Socket> { [x.fd] }
  function StartingFds(x: Starting): seq<Socket> { [x.pending.fd, x.work] }
  function SlotFds(x: Slot): seq<Socket> { if x.Open? then [x.direct, x.work] else [] }

  function Flat<T>(xs: seq<T>, f: T -> seq<Socket>): seq<Socket>
    decreases |xs|
  {
    if xs == [] then [] else Flat(xs[..|xs| - 1], f) + f(xs[|xs| - 1])
  }

  function UdpFdsOf(s: Service): seq<Socket> { s.udpFds }

  function ServiceFds(p: Peer): seq<Socket>
  {
    [p.fd] + Flat(p.svcs, ListenFds) + Flat(p.svcs, UdpFdsOf)
  }

  function QueueFds(p: Peer): seq<Socket>
  {
    p.work + Flat(p.pending, PendingFds) + Flat(p.starting, StartingFds) + Flat(p.relays, SlotFds)
  }

  /** In the order peer_close closes them. */
  function PeerFds(p: Peer): seq<Socket> { ServiceFds(p) + QueueFds(p) }

  function DecBy(m: Counters, id: nat, n: nat): Counters
    decreases n
  {
    if n == 0 then m else Dec(DecBy(m, id, n - 1), id)
  }

  // ----- steps of one peer -----

  /** peer_close. */
  function PeerClose(x: Ps, c: Config): Ps
  {
    if !x.p.active then x
    else Ps(Vacant(c), CloseAll(x.os, PeerFds(x.p)),
            DecBy(DecBy(DecBy(x.m, WORK_IDLE, |x.p.work|), PENDING_STREAMS, |x.p.pending|),
                  UDP_ACTIVE, Sum(x.p.udp, IsActive)))
  }

  /** One turn of match_pending: the oldest pending stream and the newest idle work
      connection become a starting stream, or both close if START cannot be sent. */
  function MatchOne(x: Ps, c: Config, now: nat, sent: bool): Ps
    requires x.p.pending != [] && x.p.work != []
  {
    var p := x.p;
    var pc, w := p.pending[0], p.work[|p.work| - 1];
    var m := Dec(Dec(x.m, PENDING_STREAMS), WORK_IDLE);
    var q := p.(pending := p.pending[1..], work := p.work[..|p.work| - 1], ids := NextId(p.ids));
    if sent then
      Ps(q.(starting := p.starting + [Starting(pc, w, NextId(p.ids).next, now + c.connectMs)]), x.os, m)
    else Ps(q, CloseFd(CloseFd(x.os, pc.fd), w), Inc(m, STREAMS_FAILED))
  }

  predicate CanMatch(p: Peer, c: Config)
  {
    p.pending != [] && p.work != [] && |p.starting| < c.compiledPending
  }

  /** match_pending; `sends` says which START messages can be sent, the rest can. */
  function Match(x: Ps, c: Config, now: nat, sends: seq<bool>): Ps
    decreases |x.p.pending|
  {
    if !CanMatch(x.p, c) then x
    else Match(MatchOne(x, c, now, sends == [] || sends[0]), c, now, if sends == [] then [] else sends[1..])
  }

  /** A work connection that was bound to this session. */
  function AddWork(x: Ps, c: Config, fd: Socket, now: nat, sends: seq<bool>): Ps
  {
    Match(Ps(x.p.(work := x.p.work + [fd]), x.os, Inc(x.m, WORK_IDLE)), c, now, sends)
  }

  /** An accepted public connection: refused at a limit, otherwise queued and matched. */
  function AddPending(x: Ps, c: Config, fd: Socket, svc: nat, endpointsOk: bool, now: nat, sends: seq<bool>): Ps
  {
    var os := Opened(x.os, [fd]);
    var streams := ActiveStreams(x.p);
    if !endpointsOk || |x.p.pending| >= c.maxPending || |x.p.pending| == c.compiledPending
       || streams >= x.p.auth.maxStreams || streams >= c.maxStreams
    then x.(os := CloseFd(os, fd))
    else Match(Ps(x.p.(pending := x.p.pending + [Pending(fd, svc, now + c.connectMs)]), os,
                  Inc(x.m, PENDING_STREAMS)), c, now, sends)
  }

  predicate IsClosed(s: Slot) { s.Closed? }

  function FreeSlot(rs: seq<Slot>): (k: nat)
    ensures k <= |rs| && (k < |rs| ==> rs[k].Closed?)
  {
    First(rs, IsClosed)
  }

  /** A frame on a starting work connection: READY starts the relay in the first closed
      slot; anything else, or no slot, gives the stream up. */
  function FinishStarting(x: Ps, i: nat, ready: bool): Ps
    requires i < |x.p.starting|
  {
    var s := x.p.starting[i];
    var k := FreeSlot(x.p.relays);
    if ready && k < |x.p.relays| then
      x.(p := x.p.(relays := x.p.relays[k := Open(s.pending.fd, s.work, s.id)],
                   starting := SwapRemove(x.p.starting, i)))
    else DropStarting(x, i)
  }

  /** remove_starting with its sockets. */
  function DropStarting(x: Ps, i: nat): Ps
    requires i < |x.p.starting|
  {
    var s := x.p.starting[i];
    x.(p := x.p.(starting := SwapRemove(x.p.starting, i)),
       os := CloseFd(CloseFd(x.os, s.pending.fd), s.work))
  }

  /** ct_relay_process closed the relay in slot k. */
  function CloseRelay(x: Ps, k: nat): Ps
    requires k < |x.p.relays|
  {
    match x.p.relays[k]
    case Closed => x
    case Open(d, w, _) => x.(p := x.p.(relays := x.p.relays[k := Closed]), os := CloseFd(CloseFd(x.os, d), w))
  }

  function ExpireOne(x: Ps, j: nat): Ps
    requires j < |x.p.pending|
  {
    Ps(x.p.(pending := SwapRemove(x.p.pending, j)), CloseFd(x.os, x.p.pending[j].fd),
       Inc(Dec(x.m, PENDING_STREAMS), STREAMS_FAILED))
  }

  /** The expiry loop over pending streams, from index j. */
  function ExpirePending(x: Ps, now: nat, j: nat): Ps
    decreases |x.p.pending| - j
  {
    if j >= |x.p.pending| then x
    else if x.p.pending[j].deadline < now then
      ExpirePending(ExpireOne(x, j), now, j)
    else ExpirePending(x, now, j + 1)
  }

  /** The expiry loop over starting streams, from index j. */
  function ExpireStarting(x: Ps, now: nat, j: nat): Ps
    decreases |x.p.starting| - j
  {
    if j >= |x.p.starting| then x
    else if x.p.starting[j].deadline <= now then
      var y := DropStarting(x, j);
      ExpireStarting(y.(m := Inc(y.m, STREAMS_FAILED)), now, j)
    else ExpireStarting(x, now, j + 1)
  }

  // ----- UDP pseudo-sessions -----

  /** endpoint_equal. */
  predicate SameEndpoint(a: Endpoint, b: Endpoint)
    requires |a.addr| == 16 && |b.addr| == 16
  {
    var n := AddressLength(a.family);
    n != 0 && a.family == b.family && a.port == b.port && a.addr[..n] == b.addr[..n]
  }

  predicate UdpMatches(u: UdpSession, svc: nat, ep: Endpoint)
    requires |ep.addr| == 16
  {
    u.Active? && u.svc == svc && |u.peer.addr| == 16 && SameEndpoint(u.peer, ep)
  }

  /** server_udp_find: the first active session of this service and source. */
  function UdpFind(us: seq<UdpSession>, svc: nat, ep: Endpoint): (k: nat)
    requires |ep.addr| == 16
    ensures k <= |us|
    ensures k < |us| ==> UdpMatches(us[k], svc, ep)
    ensures forall j :: 0 <= j < k ==> !UdpMatches(us[j], svc, ep)
    decreases |us|
  {
    if us == [] then 0
    else
      var k := UdpFind(us[..|us| - 1], svc, ep);
      if k < |us| - 1 then k else if UdpMatches(us[|us| - 1], svc, ep) then |us| - 1 else |us|
  }

  predicate IsIdle(u: UdpSession) { u.Idle? }

  function FreeUdp(us: seq<UdpSession>): (k: nat)
    ensures k <= |us| && (k < |us| ==> us[k].Idle?)
  {
    First(us, IsIdle)
  }

  function NewUdp(id: u64, svc: nat, ep: Endpoint, now: nat): (u: UdpSession)
    ensures u.Active?
  {
    Active(id, svc, ep, now, 0, ReplayWindow.Window(0, 0))
  }

  /** server_udp_create: refused when the peer's active sessions, of all services together,
      have reached this service's limit, or the table is full. */
  function UdpCreate(x: Ps, svc: nat, ep: Endpoint, now: nat): (r: (Ps, nat))
    requires svc < |x.p.svcs|
    ensures r.1 <= |r.0.p.udp| == |x.p.udp| && (r.1 < |x.p.udp| ==> r.0.p.udp[r.1].Active?)
  {
    var k := FreeUdp(x.p.udp);
    if Sum(x.p.udp, IsActive) >= x.p.svcs[svc].udpMax || k == |x.p.udp| then (x, |x.p.udp|)
    else
      var ids := NextId(x.p.ids);
      (Ps(x.p.(udp := x.p.udp[k := NewUdp(ids.next, svc, ep, now)], ids := ids), x.os, Inc(x.m, UDP_ACTIVE)), k)
  }

  /** The session for a datagram from `ep`, found or created. */
  function UdpFound(x: Ps, svc: nat, ep: Endpoint, now: nat): (r: (Ps, nat))
    requires |ep.addr| == 16 && svc < |x.p.svcs|
    ensures r.1 <= |r.0.p.udp| == |x.p.udp| && (r.1 < |x.p.udp| ==> r.0.p.udp[r.1].Active?)
  {
    var k := UdpFind(x.p.udp, svc, ep);
    if k < |x.p.udp| then (x, k) else UdpCreate(x, svc, ep, now)
  }

  function UdpSet(x: Ps, k: nat, u: UdpSession): Ps
    requires k < |x.p.udp|
  {
    x.(p := x.p.(udp := x.p.udp[k := u]))
  }

  /** The session as a datagram is forwarded on it. */
  function Forwarding(u: UdpSession, now: nat): UdpSession
    requires u.Active?
  {
    u.(lastMs := now, tx := (u.tx + 1) % U64_LIMIT)
  }

  /** The session found or created, refreshed and with the next sequence number. */
  function UdpAdmit(x: Ps, svc: nat, ep: Endpoint, now: nat): (r: (Ps, nat))
    requires |ep.addr| == 16 && svc < |x.p.svcs|
    ensures r.1 <= |r.0.p.udp| == |x.p.udp| && (r.1 < |x.p.udp| ==> r.0.p.udp[r.1].Active?)
  {
    var (y, k) := UdpFound(x, svc, ep, now);
    if k == |y.p.udp| then (y, k) else (UdpSet(y, k, Forwarding(y.p.udp[k], now)), k)
  }

  /** server_udp_from_external; a datagram that cannot be forwarded closes the peer. */
  function UdpIn(x: Ps, c: Config, svc: nat, ep: Endpoint, oversized: bool, sent: bool, now: nat): Ps
    requires |ep.addr| == 16
  {
    if svc >= |x.p.svcs| || oversized then x
    else
      var y := UdpAdmit(x, svc, ep, now);
      if y.1 < |y.0.p.udp| && !sent then PeerClose(y.0, c) else y.0
  }

  function WithUdpId(id: u64): UdpSession -> bool { (u: UdpSession) => u.Active? && u.id == id }

  /** The checks of server_udp_from_client on session u. */
  predicate UdpReplies(p: Peer, u: UdpSession, width: ReplayWindow.Width, d: Datagram)
    requires |d.peer.addr| == 16 && u.Active?
  {
    && u.svc < |p.svcs| && p.svcs[u.svc].id == d.service
    && |u.peer.addr| == 16 && SameEndpoint(u.peer, d.peer)
    && ReplayWindow.Accept(u.rx, width, d.sequence).0
  }

  /** server_udp_from_client: the new state, and whether the payload goes to the source. */
  function UdpReply(x: Ps, width: ReplayWindow.Width, d: Datagram, now: nat): (Ps, bool)
    requires |d.peer.addr| == 16
  {
    var k := First(x.p.udp, WithUdpId(d.session));
    if k == |x.p.udp| || !UdpReplies(x.p, x.p.udp[k], width, d) then (x, false)
    else (UdpSet(x, k, Answered(x.p.udp[k], width, d, now)), true)
  }

  /** The session as a reply is accepted on it. */
  function Answered(u: UdpSession, width: ReplayWindow.Width, d: Datagram, now: nat): UdpSession
    requires u.Active?
  {
    u.(lastMs := now, rx := ReplayWindow.Accept(u.rx, width, d.sequence).1)
  }

  /** A datagram from the client; one in the wrong direction, or one that cannot be sent,
      closes the peer. */
  function UdpOut(x: Ps, c: Config, d: Datagram, sent: bool, now: nat): Ps
    requires |d.peer.addr| == 16
  {
    if d.direction != 1 then PeerClose(x, c)
    else
      var y := UdpReply(x, c.window, d, now);
      if y.1 && !sent then PeerClose(y.0, c) else y.0
  }

  predicate UdpExpired(p: Peer, u: UdpSession, now: nat)
  {
    u.Active? && u.svc < |p.svcs| && now - u.lastMs > p.svcs[u.svc].udpIdleMs
  }

  /** server_udp_expire from index j. */
  function UdpExpire(x: Ps, now: nat, j: nat): Ps
    decreases |x.p.udp| - j
  {
    if j >= |x.p.udp| then x
    else if UdpExpired(x.p, x.p.udp[j], now) then
      UdpExpire(x.(p := x.p.(udp := x.p.udp[j := Idle]), m := Dec(x.m, UDP_ACTIVE)), now, j + 1)
    else UdpExpire(x, now, j + 1)
  }

  // ----- registration -----

  /** A decoded request; `valid` says that its type, encryption, PROXY mode and UDP limits
      are acceptable. */
  datatype Request = Request(id: seq<byte>, addr: string, port: nat, udp: bool,
                             udpMax: nat, udpIdleMs: nat, valid: bool)

  predicate OverlapsAny(ls: seq<Listener>, ks: seq<Listener>)
  {
    exists i, j :: 0 <= i < |ls| && 0 <= j < |ks| && Overlap(ls[i].at, ks[j].at)
  }

  predicate OverlapsPeer(ls: seq<Listener>, p: Peer)
  {
    p.active && exists k :: 0 <= k < |p.svcs| && OverlapsAny(ls, p.svcs[k].listeners)
  }

  /** listen_set_overlaps_existing. */
  predicate OverlapsExisting(ls: seq<Listener>, control: seq<Listener>, peers: seq<Peer>)
  {
    OverlapsAny(ls, control) || exists i :: 0 <= i < |peers| && OverlapsPeer(ls, peers[i])
  }

  predicate HasService(p: Peer, id: seq<byte>) { exists k :: 0 <= k < |p.svcs| && p.svcs[k].id == id }

  /** register_service: every check in order, then the bind, then the conflict check. */
  function Registered(x: Ps, c: Config, control: seq<Listener>, peers: seq<Peer>, r: Request,
                      bound: seq<Listener>, udpFds: seq<Socket>): Ps
  {
    var allowed := r.valid && !HasService(x.p, r.id) && |x.p.svcs| < x.p.auth.maxServices
                   && |x.p.svcs| < c.maxServices && Authorized(x.p.auth, r.addr, r.port);
    if !allowed then x
    else if !r.udp then
      var os := Opened(x.os, Fds(bound));
      if bound == [] then x
      else if OverlapsExisting(bound, control, peers) then x.(os := CloseAll(os, Fds(bound)))
      else
        var s := Service(r.id, r.addr, r.port, false, bound, [], r.udpMax, r.udpIdleMs);
        Ps(x.p.(svcs := x.p.svcs + [s]), os, x.m)
    else if udpFds == [] then x
    else Ps(x.p.(svcs := x.p.svcs + [Service(r.id, r.addr, r.port, true, [], udpFds, r.udpMax, r.udpIdleMs)]),
            Opened(x.os, udpFds), x.m)
  }

  // ----- events of the server -----

  datatype Frame = HelloFrame | BindFrame | AuthFrame | OtherFrame

  datatype Event =
    | Accept(afd: Socket, remote: string, anow: nat)
    | Arrive(ifd: Socket, broken: bool, frame: Frame, good: bool, session: u64, auth: Auth,
             inow: nat, isends: seq<bool>)
    | Registers(rpeer: nat, req: Request, bound: seq<Listener>, udpFds: seq<Socket>, replied: bool)
    | Lose(lpeer: nat)
    | Answer(speer: nat, swork: Socket, sbroken: bool, ready: bool)
    | Connect(cpeer: nat, csvc: nat, cfd: Socket, endpointsOk: bool, cnow: nat, csends: seq<bool>)
    | DatagramIn(upeer: nat, usvc: nat, uep: Endpoint, oversized: bool, usent: bool, unow: nat)
    | Reply(vpeer: nat, datagram: Datagram, vsent: bool, vnow: nat)
    | Relay(qpeer: nat, qslot: nat)
    | ExpireIncoming(enow: nat)
    | ExpirePeer(xpeer: nat, xnow: nat, silent: bool)

  function Of(s: State, i: nat): Ps
    requires i < |s.peers|
  {
    Ps(s.peers[i], s.os, s.m)
  }

  function With(s: State, i: nat, x: Ps): State
    requires i < |s.peers|
  {
    s.(peers := s.peers[i := x.p], os := x.os, m := x.m)
  }

  function IsFrom(remote: string): Incoming -> nat { (x: Incoming) => if x.remote == remote then 1 else 0 }

  /** incoming_for_remote. */
  function CountRemote(xs: seq<Incoming>, remote: string): nat { Sum(xs, IsFrom(remote)) }

  function IncomingAt(fd: Socket): Incoming -> bool { (x: Incoming) => x.fd == fd }
  function InSession(session: u64): Peer -> bool { (p: Peer) => p.active && p.session == session }
  function StartingOn(work: Socket): Starting -> bool { (x: Starting) => x.work == work }
  predicate IsInactive(p: Peer) { !p.active }

  /** find_incoming. */
  function FindIncoming(xs: seq<Incoming>, fd: Socket): nat { First(xs, IncomingAt(fd)) }

  /** find_session. */
  function FindSession(ps: seq<Peer>, session: u64): nat { First(ps, InSession(session)) }

  /** find_starting. */
  function FindStarting(xs: seq<Starting>, work: Socket): nat { First(xs, StartingOn(work)) }

  /** The first inactive peer below the runtime limit. */
  function FreePeer(ps: seq<Peer>, most: nat): (k: nat)
    ensures k <= |ps| && (k < |ps| ==> !ps[k].active && k < most)
  {
    var n := if most < |ps| then most else |ps|;
    var k := First(ps[..n], IsInactive);
    if k < n then k else |ps|
  }

  /** remove_incoming, closing its socket. */
  function DropIncoming(s: State, k: nat): State
    requires k < |s.incoming|
  {
    s.(incoming := SwapRemove(s.incoming, k), os := CloseFd(s.os, s.incoming[k].fd))
  }

  function Accepted(s: State, c: Config, fd: Socket, remote: string, now: nat): State
  {
    var os := Opened(s.os, [fd]);
    if |s.incoming| == c.maxIncoming || CountRemote(s.incoming, remote) >= 2 then s.(os := CloseFd(os, fd))
    else s.(incoming := s.incoming + [Incoming(fd, false, now + c.handshakeMs, remote)], os := os)
  }

  /** A complete first or second frame on an incoming connection. */
  function Arrived(s: State, c: Config, k: nat, broken: bool, frame: Frame, good: bool,
                   session: u64, auth: Auth, now: nat, sends: seq<bool>): State
    requires k < |s.incoming|
  {
    var x := s.incoming[k];
    if broken then DropIncoming(s, k)
    else if !x.waiting && frame == HelloFrame then
      if good then s.(incoming := s.incoming[k := x.(waiting := true)]) else DropIncoming(s, k)
    else if !x.waiting && frame == BindFrame then
      var i := FindSession(s.peers, session);
      if i == |s.peers| || |s.peers[i].work| == c.compiledStreams || !good then DropIncoming(s, k)
      else
        var t := s.(incoming := SwapRemove(s.incoming, k));
        With(t, i, AddWork(Of(t, i), c, x.fd, now, sends))
    else if x.waiting && frame == AuthFrame then
      var i := FreePeer(s.peers, c.maxClients);
      if i == |s.peers| || !good then DropIncoming(s, k)
      else s.(incoming := SwapRemove(s.incoming, k),
              peers := s.peers[i := Vacant(c).(active := true, fd := x.fd, session := session, auth := auth,
                                               ids := Counter(now % U64_LIMIT, false))])
    else DropIncoming(s, k)
  }

  /** The expiry loop over incoming connections, from index j. */
  function ExpireFrom(s: State, now: nat, j: nat): State
    decreases |s.incoming| - j
  {
    if j >= |s.incoming| then s
    else if s.incoming[j].deadline <= now then ExpireFrom(DropIncoming(s, j), now, j)
    else ExpireFrom(s, now, j + 1)
  }

  /** The end-of-loop sweep of one peer; `silent` says that the heartbeat timed out or the
      ping could not be sent. */
  function Sweep(x: Ps, c: Config, now: nat, silent: bool): Ps
  {
    if !x.p.active then x
    else
      var y := UdpExpire(ExpireStarting(ExpirePending(x, now, 0), now, 0), now, 0);
      if silent then PeerClose(y, c) else y
  }

  ghost function Step(s: State, c: Config, e: Event): State
  {
    match e
    case Accept(fd, remote, now) =>
      if NewSockets(s.os, [fd]) then Accepted(s, c, fd, remote, now) else s
    case Arrive(fd, broken, frame, good, session, auth, now, sends) =>
      var k := FindIncoming(s.incoming, fd);
      if k < |s.incoming| then Arrived(s, c, k, broken, frame, good, session, auth, now, sends) else s
    case Registers(i, r, bound, udpFds, replied) =>
      if i < |s.peers| && s.peers[i].active && ListenSet(r.addr, bound) && |udpFds| <= 2
         && NewSockets(s.os, if r.udp then udpFds else Fds(bound))
      then
        var y := Registered(Of(s, i), c, s.control, s.peers, r, bound, udpFds);
        With(s, i, if replied then y else PeerClose(y, c))
      else s
    case Lose(i) => if i < |s.peers| then With(s, i, PeerClose(Of(s, i), c)) else s
    case Answer(i, work, broken, ready) =>
      if i < |s.peers| then
        var k := FindStarting(s.peers[i].starting, work);
        if k == |s.peers[i].starting| then s
        else With(s, i, if broken then DropStarting(Of(s, i), k) else FinishStarting(Of(s, i), k, ready))
      else s
    case Connect(i, svc, fd, endpointsOk, now, sends) =>
      if i < |s.peers| && svc < |s.peers[i].svcs| && NewSockets(s.os, [fd])
      then With(s, i, AddPending(Of(s, i), c, fd, svc, endpointsOk, now, sends)) else s
    case DatagramIn(i, svc, ep, oversized, sent, now) =>
      if i < |s.peers| && LegalEndpoint(ep)
      then With(s, i, UdpIn(Of(s, i), c, svc, ep, oversized, sent, now)) else s
    case Reply(i, d, sent, now) =>
      if i < |s.peers| && |d.peer.addr| == 16 then With(s, i, UdpOut(Of(s, i), c, d, sent, now)) else s
    case Relay(i, k) =>
      if i < |s.peers| && k < |s.peers[i].relays| then With(s, i, CloseRelay(Of(s, i), k)) else s
    case ExpireIncoming(now) => ExpireFrom(s, now, 0)
    case ExpirePeer(i, now, silent) => if i < |s.peers| then With(s, i, Sweep(Of(s, i), c, now, silent)) else s
  }

  /** The server as its loop starts: control listeners open, every table empty. */
  function Boot(c: Config, control: seq<Listener>): State
  {
    State(control, [], seq(c.compiledClients, _ => Vacant(c)), Os(set fd | fd in Fds(control), false), Zeros(COUNT))
  }

  ghost function Run(s: State, c: Config, events: seq<Event>): State
    decreases |events|
  {
    if events == [] then s else Step(Run(s, c, events[..|events| - 1]), c, events[|events| - 1])
  }

  function CloseEveryPeer(s: State, c: Config, i: nat): State
    decreases |s.peers| - i
  {
    if i >= |s.peers| then s else CloseEveryPeer(With(s, i, PeerClose(Of(s, i), c)), c, i + 1)
  }

  function DropEveryIncoming(s: State): State
    decreases |s.incoming|
  {
    if s.incoming == [] then s else DropEveryIncoming(DropIncoming(s, 0))
  }

  /** What ct_run_server does when its loop exits. */
  function Shutdown(s: State, c: Config): State
  {
    var t := DropEveryIncoming(CloseEveryPeer(s, c, 0));
    t.(os := CloseAll(t.os, Fds(t.control)), control := [])
  }
}

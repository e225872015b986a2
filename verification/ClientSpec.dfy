/** One session of the client (src/client/client.c): idle work connections, relays and UDP
    pseudo-sessions. What the network does is an argument of each event. */
module ClientSpec {
  import opened Bytes
  import opened Bags
  import opened Metrics
  import opened UdpCodec
  import ReplayWindow
  import opened ServerSpec

  /** A configured service, as far as UDP needs it. */
  datatype Offer = Offer(id: seq<byte>, udp: bool, udpMax: nat, udpIdleMs: nat, maxDatagram: nat)

  datatype Limits = Limits(offers: seq<Offer>, streams: nat, sessions: nat, window: ReplayWindow.Width)

  /** src/config/config.c:354-356 bounds every service's limit by the size of the table. */
  ghost predicate LimitsOk(l: Limits)
  {
    && l.streams <= 4096 && l.sessions <= 8192
    && forall k :: 0 <= k < |l.offers| ==> l.offers[k].udpMax <= l.sessions
  }

  datatype Session =
    | Unused
    | Live(id: u64, svc: nat, peer: Endpoint, fd: Socket, lastMs: nat, tx: u64, rx: ReplayWindow.Window)

  datatype Client = Client(fd: Socket, work: seq<Socket>, relays: seq<Slot>, udp: seq<Session>, os: Os, m: Counters)

  datatype ClientEvent =
    | NewWork(wfd: Socket)
    | WorkFrame(ifd: Socket, broken: bool, started: bool, local: Option<Socket>, ready: bool, stream: nat)
    | RelayDone(slot: nat)
    | FromServer(d: Datagram, ufd: Option<Socket>, unow: nat)
    | FromLocal(k: nat, lnow: nat)
    | Expire(enow: nat)

  /** Two live sessions with one identifier. */
  ghost predicate Twins(u: Session, v: Session) { u.Live? && v.Live? && u.id == v.id }

  // ----- searches -----

  function Serves(id: seq<byte>): Offer -> bool { (o: Offer) => o.id == id }
  function WithId(id: u64): Session -> bool { (u: Session) => u.Live? && u.id == id }
  function OnSocket(fd: Socket): Socket -> bool { (x: Socket) => x == fd }
  predicate IsUnused(u: Session) { u.Unused? }
  function IsLive(u: Session): nat { if u.Live? then 1 else 0 }

  // ----- steps -----

  /** add_work with a connection that was made. */
  function AddIdle(x: Client, l: Limits, fd: Socket): Client
  {
    if |x.work| >= l.streams then x
    else x.(work := x.work + [fd], os := Opened(x.os, [fd]), m := Inc(x.m, WORK_IDLE))
  }

  /** An idle work connection leaves the table. */
  function TakeIdle(x: Client, i: nat): Client
    requires i < |x.work|
  {
    x.(work := SwapRemove(x.work, i), m := Dec(x.m, WORK_IDLE))
  }

  /** A frame on idle work connection i: START leads to a relay if the service can be
      reached, a slot is free and READY can be sent; otherwise the sockets are closed. */
  function StartFrame(x: Client, i: nat, broken: bool, started: bool, local: Option<Socket>,
                      ready: bool, stream: nat): Client
    requires i < |x.work|
  {
    var fd, y := x.work[i], TakeIdle(x, i);
    if broken || !started || local.None? then y.(os := CloseFd(y.os, fd))
    else
      var z := y.(os := Opened(y.os, [local.value]));
      var k := First(z.relays, IsClosed);
      if k == |z.relays| || !ready then z.(os := CloseFd(CloseFd(z.os, local.value), fd))
      else z.(relays := z.relays[k := Open(local.value, fd, stream)])
  }

  function DropRelay(x: Client, k: nat): Client
    requires k < |x.relays|
  {
    match x.relays[k]
    case Closed => x
    case Open(d, w, _) => x.(relays := x.relays[k := Closed], os := CloseFd(CloseFd(x.os, d), w))
  }

  /** client_udp_create; `fd` is the socket ct_udp_open could open, if any. */
  function CreateSession(x: Client, l: Limits, d: Datagram, fd: Option<Socket>, now: nat): (r: (Client, nat))
    ensures r.1 <= |r.0.udp| == |x.udp|
    ensures r.1 < |x.udp| ==> r.0.udp[r.1].Live?
  {
    var v := First(l.offers, Serves(d.service));
    if v == |l.offers| || !l.offers[v].udp || Sum(x.udp, IsLive) >= l.offers[v].udpMax || fd.None? then (x, |x.udp|)
    else
      var k := First(x.udp, IsUnused);
      var os := Opened(x.os, [fd.value]);
      if k == |x.udp| then (x.(os := CloseFd(os, fd.value)), k)
      else
        var u := Live(d.session, v, d.peer, fd.value, now, 0, ReplayWindow.Window(0, 0));
        (x.(udp := x.udp[k := u], os := os, m := Inc(x.m, UDP_ACTIVE)), k)
  }

  /** client_udp_from_server: the new state, and whether the payload goes to the local
      socket of the session. */
  function Deliver(x: Client, l: Limits, d: Datagram, fd: Option<Socket>, now: nat): (r: (Client, bool))
    requires |d.peer.addr| == 16
  {
    if d.direction != 0 then (x, false) else
    var found := First(x.udp, WithId(d.session));
    var (y, k) := if found < |x.udp| then (x, found) else CreateSession(x, l, d, fd, now);
    if k == |y.udp| then (y, false) else Receive(y, l, k, d, now)
  }

  /** The checks on a datagram for session k. */
  function Receive(y: Client, l: Limits, k: nat, d: Datagram, now: nat): (r: (Client, bool))
    requires |d.peer.addr| == 16 && k < |y.udp| && y.udp[k].Live?
  {
    var u := y.udp[k];
    if u.svc >= |l.offers| || l.offers[u.svc].id != d.service || |u.peer.addr| != 16 || !SameEndpoint(u.peer, d.peer)
       || |d.payload| > l.offers[u.svc].maxDatagram || !ReplayWindow.Accept(u.rx, l.window, d.sequence).0
    then (y, false)
    else (y.(udp := y.udp[k := u.(lastMs := now, rx := ReplayWindow.Accept(u.rx, l.window, d.sequence).1)]), true)
  }

  /** client_udp_from_local: the session refreshed and with the next sequence number; the
      datagram it sends is Saying. */
  function Refresh(x: Client, k: nat, now: nat): Client
    requires k < |x.udp|
  {
    if x.udp[k].Live?
    then x.(udp := x.udp[k := x.udp[k].(lastMs := now, tx := (x.udp[k].tx + 1) % U64_LIMIT)]) else x
  }

  function Saying(l: Limits, u: Session, payload: seq<byte>): Datagram
    requires u.Live? && u.svc < |l.offers|
  {
    Datagram(1, u.id, (u.tx + 1) % U64_LIMIT, l.offers[u.svc].id, u.peer, payload)
  }

  /** client_udp_close. */
  function DropSession(x: Client, k: nat): Client
    requires k < |x.udp|
  {
    if x.udp[k].Unused? then x
    else x.(udp := x.udp[k := Unused], os := CloseFd(x.os, x.udp[k].fd), m := Dec(x.m, UDP_ACTIVE))
  }

  predicate Overdue(l: Limits, u: Session, now: nat)
  {
    u.Live? && u.svc < |l.offers| && now - u.lastMs > l.offers[u.svc].udpIdleMs
  }

  /** client_udp_expire from index j. */
  function ExpireSessions(x: Client, l: Limits, now: nat, j: nat): Client
    decreases |x.udp| - j
  {
    if j >= |x.udp| then x
    else ExpireSessions(if Overdue(l, x.udp[j], now) then DropSession(x, j) else x, l, now, j + 1)
  }

  ghost function ClientStep(x: Client, l: Limits, e: ClientEvent): Client
  {
    match e
    case NewWork(fd) => if NewSockets(x.os, [fd]) then AddIdle(x, l, fd) else x
    case WorkFrame(fd, broken, started, local, ready, stream) =>
      var i := First(x.work, OnSocket(fd));
      if i < |x.work| && (local.Some? ==> NewSockets(x.os, [local.value]))
      then StartFrame(x, i, broken, started, local, ready, stream) else x
    case RelayDone(k) => if k < |x.relays| then DropRelay(x, k) else x
    case FromServer(d, fd, now) =>
      if |d.peer.addr| == 16 && (fd.Some? ==> NewSockets(x.os, [fd.value])) then Deliver(x, l, d, fd, now).0 else x
    case FromLocal(k, now) => if k < |x.udp| then Refresh(x, k, now) else x
    case Expire(now) => ExpireSessions(x, l, now, 0)
  }

  /** After the handshake and registration. */
  function Begin(l: Limits, fd: Socket): Client
  {
    Client(fd, [], seq(l.streams, _ => Closed), seq(l.sessions, _ => Unused), Os({fd}, false), Zeros(COUNT))
  }

  ghost function ClientRun(x: Client, l: Limits, events: seq<ClientEvent>): Client
    decreases |events|
  {
    if events == [] then x else ClientStep(ClientRun(x, l, events[..|events| - 1]), l, events[|events| - 1])
  }

  function DropSessions(x: Client, j: nat): Client
    decreases |x.udp| - j
  {
    if j >= |x.udp| then x else DropSessions(DropSession(x, j), j + 1)
  }

  /** The exit path of client_session. */
  function End(x: Client): Client
  {
    var a := x.(work := [], os := CloseAll(x.os, x.work), m := DecBy(x.m, WORK_IDLE, |x.work|));
    var b := a.(relays := seq(|a.relays|, _ => Closed), os := CloseAll(a.os, Flat(a.relays, SlotFds)));
    var d := DropSessions(b, 0);
    d.(os := CloseFd(d.os, d.fd))
  }
}

/** A course in which a reply is refused although the server still has its session: the
    client has been idle just longer than the timeout, the server, which saw the last reply
    a little later, not quite. The next datagram opens the session again at the client, under
    the same identifier and with replies numbered from one. */
module UdpForgetting {
  import opened Bytes
  import opened Bags
  import opened UdpCodec
  import opened ServerSpec
  import opened ClientSpec
  import opened UdpTunnel
  import opened UdpDelivery
  import Metrics
  import ReplayWindow

  function Visitor(): Endpoint { Endpoint(4, [192, 0, 2, 1] + Pad(12), 40000) }
  function Name(): seq<byte> { [101, 99, 104, 111] }
  function Echo(): Service { Service(Name(), "", 7, true, [], [3], 1, 1000) }
  function OneOffer(): Limits { Limits([Offer(Name(), true, 1, 1000, 512)], 1, 1, 64) }

  function AtRest(): Ps
  {
    Ps(Peer(true, 1, 7, NoAuth(), [Echo()], [], [], [], [Closed], [Idle], Counter(0, false)),
       Os({1, 3}, false), Metrics.Zeros(Metrics.COUNT))
  }

  function Start(): UdpPath
  {
    UdpPath(AtRest(), Client(2, [], [Closed], [Unused], Os({2}, false), Metrics.Zeros(Metrics.COUNT)),
            [], 0, [], 0, map[])
  }

  /** The server's side: one session, which is session 1. */
  ghost predicate AtServer(t: UdpPath, lastMs: nat, tx: nat)
  {
    && t.srv.p.svcs == [Echo()] && !t.srv.p.ids.wrapped && |t.srv.p.udp| == 1 && t.srv.p.udp[0].Active?
    && t.srv.p.udp[0].id == 1 && t.srv.p.udp[0].svc == 0 && t.srv.p.udp[0].peer == Visitor()
    && t.srv.p.udp[0].lastMs == lastMs && t.srv.p.udp[0].tx == tx
  }

  /** The client's side: that session, in the state of having sent `tx` replies. */
  ghost predicate AtClient(t: UdpPath, lastMs: nat, tx: nat)
  {
    && |t.cli.udp| == 1 && t.cli.udp[0].Live? && t.cli.udp[0].id == 1 && t.cli.udp[0].svc == 0
    && t.cli.udp[0].peer == Visitor() && t.cli.udp[0].lastMs == lastMs && t.cli.udp[0].tx == tx
  }

  lemma FirstOfOne<T>(xs: seq<T>, p: T -> bool)
    requires |xs| == 1
    ensures First(xs, p) == if p(xs[0]) then 0 else 1
  {
    FirstIs(xs, p, if p(xs[0]) then 0 else 1);
  }

  lemma SumOfOne<T>(xs: seq<T>, f: T -> nat)
    requires |xs| == 1
    ensures Sum(xs, f) == f(xs[0])
  {
    assert xs == [xs[0]];
    SumOne(xs[0], f);
  }

  // ----- the steps -----

  lemma FirstDatagram()
    ensures var v := FromOutside(Start(), 0, Visitor(), [], 0);
      && AtServer(v, 0, 1)
      && v == Start().(srv := v.srv, down := [Datagram(0, 1, 1, Name(), Visitor(), [])], orig := v.orig)
  {
    var us := Start().srv.p.udp;
    FirstOfOne(us, IsIdle);
    SumOfOne(us, IsActive);
    assert UdpFind(us, 0, Visitor()) == 1;
  }

  lemma NextDatagram(t: UdpPath, lastMs: nat, tx: nat, now: nat)
    requires AtServer(t, lastMs, tx) && tx < 9 && 1 in t.orig
    ensures var v := FromOutside(t, 0, Visitor(), [], now);
      && AtServer(v, now, tx + 1)
      && v == t.(srv := v.srv, down := t.down + [Datagram(0, 1, tx + 1, Name(), Visitor(), [])])
  {
    assert UdpFind(t.srv.p.udp, 0, Visitor()) == 0;
  }

  lemma ClientOpens(t: UdpPath, fd: Socket, now: nat)
    requires t.cli.udp == [Unused] && t.downSeen < |t.down|
    requires t.down[t.downSeen] == Datagram(0, 1, t.down[t.downSeen].sequence, Name(), Visitor(), [])
    requires t.down[t.downSeen].sequence >= 1
    ensures var v := ToClient(t, OneOffer(), Some(fd), now);
      AtClient(v, now, 0) && v == t.(cli := v.cli, downSeen := t.downSeen + 1)
  {
    var l := OneOffer();
    FirstOfOne(l.offers, Serves(Name()));
    FirstOfOne(t.cli.udp, IsUnused);
    FirstOfOne(t.cli.udp, WithId(1));
    SumOfOne(t.cli.udp, IsLive);
  }

  lemma ClientReplies(t: UdpPath, lastMs: nat, tx: nat, now: nat)
    requires AtClient(t, lastMs, tx) && tx < 9
    ensures var v := FromLocalSocket(t, OneOffer(), 0, [], now);
      AtClient(v, now, tx + 1)
      && v == t.(cli := v.cli, up := t.up + [Datagram(1, 1, tx + 1, Name(), Visitor(), [])])
  {
  }

  lemma ServerAccepts(t: UdpPath, c: Config, lastMs: nat, tx: nat, now: nat)
    requires AtServer(t, lastMs, tx) && t.srv.p.udp[0].rx == ReplayWindow.Window(0, 0)
    requires t.upSeen == 0 && t.up == [Datagram(1, 1, 1, Name(), Visitor(), [])]
    ensures var v := ToServer(t, c, now);
      AtServer(v, now, tx) && v == t.(srv := v.srv, upSeen := 1)
  {
    FirstOfOne(t.srv.p.udp, WithUdpId(1));
  }

  lemma ClientForgets(t: UdpPath, lastMs: nat, tx: nat, now: nat)
    requires AtClient(t, lastMs, tx) && now > lastMs + 1000
    ensures ExpireSessions(t.cli, OneOffer(), now, 0).udp == [Unused]
  {
    assert Overdue(OneOffer(), t.cli.udp[0], now);
    var y := DropSession(t.cli, 0);
    assert ExpireSessions(y, OneOffer(), now, 1) == y;
  }

  lemma ServerRemembers(t: UdpPath, lastMs: nat, tx: nat, now: nat)
    requires AtServer(t, lastMs, tx) && now <= lastMs + 1000
    ensures UdpExpire(t.srv, now, 0) == t.srv
  {
    assert !UdpExpired(t.srv.p, t.srv.p.udp[0], now);
    assert UdpExpire(t.srv, now, 1) == t.srv;
  }

  // ----- the course -----

  /** Some n events lead from the start to t. */
  ghost predicate From(c: Config, t: UdpPath, n: nat)
  {
    exists events :: |events| == n && t == Course(Start(), c, OneOffer(), events)
  }

  lemma FromNext(c: Config, t: UdpPath, n: nat, e: Happening)
    requires From(c, t, n)
    ensures From(c, Next(t, c, OneOffer(), e), n + 1)
  {
    var events :| |events| == n && t == Course(Start(), c, OneOffer(), events);
    assert (events + [e])[..|events|] == events;
    assert Next(t, c, OneOffer(), e) == Course(Start(), c, OneOffer(), events + [e]);
  }

  lemma LegalSource()
    ensures LegalEndpoint(Visitor())
  {
    assert Visitor().addr[4..] == Pad(12);
  }

  lemma OutsideNext(c: Config, t: UdpPath, n: nat, now: nat)
    requires From(c, t, n) && 0 < |t.srv.p.svcs|
    ensures From(c, FromOutside(t, 0, Visitor(), [], now), n + 1)
  {
    LegalSource();
    FromNext(c, t, n, Outside(0, Visitor(), [], now));
  }

  lemma DownNext(c: Config, t: UdpPath, n: nat, fd: Socket, now: nat)
    requires From(c, t, n) && t.downSeen < |t.down| && |t.down[t.downSeen].peer.addr| == 16
    ensures From(c, ToClient(t, OneOffer(), Some(fd), now), n + 1)
  {
    FromNext(c, t, n, Down(Some(fd), now));
  }

  lemma LocalNext(c: Config, t: UdpPath, n: nat, now: nat)
    requires From(c, t, n) && 0 < |t.cli.udp|
    ensures From(c, FromLocalSocket(t, OneOffer(), 0, [], now), n + 1)
  {
    FromNext(c, t, n, Local(0, [], now));
  }

  lemma UpNext(c: Config, t: UdpPath, n: nat, now: nat)
    requires From(c, t, n) && t.upSeen < |t.up| && |t.up[t.upSeen].peer.addr| == 16
    ensures From(c, ToServer(t, c, now), n + 1)
  {
    FromNext(c, t, n, Up(now));
  }

  lemma ClientExpiresIs(c: Config, t: UdpPath, l: Limits, now: nat)
    ensures Next(t, c, l, ClientExpires(now)) == t.(cli := ExpireSessions(t.cli, l, now, 0))
  {
  }

  lemma ClientExpiresNext(c: Config, t: UdpPath, n: nat, now: nat)
    requires From(c, t, n)
    ensures From(c, t.(cli := ExpireSessions(t.cli, OneOffer(), now, 0)), n + 1)
  {
    ClientExpiresIs(c, t, OneOffer(), now);
    FromNext(c, t, n, ClientExpires(now));
  }

  lemma ServerExpiresIs(c: Config, t: UdpPath, l: Limits, now: nat)
    ensures Next(t, c, l, ServerExpires(now)) == t.(srv := UdpExpire(t.srv, now, 0))
  {
  }

  lemma ServerExpiresNext(c: Config, t: UdpPath, n: nat, now: nat)
    requires From(c, t, n)
    ensures From(c, t.(srv := UdpExpire(t.srv, now, 0)), n + 1)
  {
    ServerExpiresIs(c, t, OneOffer(), now);
    FromNext(c, t, n, ServerExpires(now));
  }

  /** The datagrams sent and received so far. */
  ghost predicate Logs(t: UdpPath, sent: nat, down: nat, up: nat, seen: nat)
  {
    && |t.down| == sent && t.downSeen == down && |t.up| == up && t.upSeen == seen && seen <= up
    && forall i :: 0 <= i < up ==> t.up[i] == Datagram(1, 1, 1, Name(), Visitor(), [])
  }

  lemma Sent(c: Config) returns (t: UdpPath)
    ensures From(c, t, 1) && AtServer(t, 0, 1) && t.srv.p.udp[0].rx == ReplayWindow.Window(0, 0) && 1 in t.orig
    ensures t.cli.udp == [Unused] && Logs(t, 1, 0, 0, 0) && t.down[0] == Datagram(0, 1, 1, Name(), Visitor(), [])
  {
    var s := Start();
    assert s == Course(s, c, OneOffer(), []);
    FirstDatagram();
    t := FromOutside(s, 0, Visitor(), [], 0);
    OutsideNext(c, s, 0, 0);
  }

  lemma Heard(c: Config) returns (t: UdpPath)
    ensures From(c, t, 2) && AtServer(t, 0, 1) && t.srv.p.udp[0].rx == ReplayWindow.Window(0, 0) && 1 in t.orig
    ensures AtClient(t, 0, 0) && Logs(t, 1, 1, 0, 0)
  {
    var s := Sent(c);
    ClientOpens(s, 5, 0);
    DownNext(c, s, 1, 5, 0);
    t := ToClient(s, OneOffer(), Some(5), 0);
  }

  lemma Replied(c: Config) returns (t: UdpPath)
    ensures From(c, t, 3) && AtServer(t, 0, 1) && t.srv.p.udp[0].rx == ReplayWindow.Window(0, 0) && 1 in t.orig
    ensures AtClient(t, 0, 1) && Logs(t, 1, 1, 1, 0)
  {
    var s := Heard(c);
    ClientReplies(s, 0, 0, 0);
    LocalNext(c, s, 2, 0);
    t := FromLocalSocket(s, OneOffer(), 0, [], 0);
  }

  /** One exchange, whose reply the server sees 100 ms after the client sent it. */
  lemma Exchanged(c: Config) returns (t: UdpPath)
    ensures From(c, t, 4) && AtServer(t, 100, 1) && 1 in t.orig && AtClient(t, 0, 1) && Logs(t, 1, 1, 1, 1)
  {
    var s := Replied(c);
    assert s.up == [s.up[0]];
    ServerAccepts(s, c, 0, 1, 100);
    UpNext(c, s, 3, 100);
    t := ToServer(s, c, 100);
  }

  /** The client forgets at 1001 ms; */
  lemma Forgotten(c: Config) returns (t: UdpPath)
    ensures From(c, t, 5) && AtServer(t, 100, 1) && 1 in t.orig && t.cli.udp == [Unused] && Logs(t, 1, 1, 1, 1)
  {
    var s := Exchanged(c);
    ClientForgets(s, 0, 1, 1001);
    ClientExpiresNext(c, s, 4, 1001);
    t := s.(cli := ExpireSessions(s.cli, OneOffer(), 1001, 0));
  }

  /** the server, at 1050 ms, does not. */
  lemma Remembered(c: Config) returns (t: UdpPath)
    ensures From(c, t, 6) && AtServer(t, 100, 1) && 1 in t.orig && t.cli.udp == [Unused] && Logs(t, 1, 1, 1, 1)
  {
    var s := Forgotten(c);
    ServerRemembers(s, 100, 1, 1050);
    ServerExpiresNext(c, s, 5, 1050);
    t := s.(srv := UdpExpire(s.srv, 1050, 0));
  }

  lemma SentAgain(c: Config) returns (t: UdpPath)
    ensures From(c, t, 7) && AtServer(t, 1050, 2) && t.cli.udp == [Unused] && Logs(t, 2, 1, 1, 1)
    ensures t.down[1] == Datagram(0, 1, 2, Name(), Visitor(), [])
  {
    var s := Remembered(c);
    NextDatagram(s, 100, 1, 1050);
    OutsideNext(c, s, 6, 1050);
    t := FromOutside(s, 0, Visitor(), [], 1050);
  }

  lemma OpenedAgain(c: Config) returns (t: UdpPath)
    ensures From(c, t, 8) && AtServer(t, 1050, 2) && AtClient(t, 1060, 0) && Logs(t, 2, 2, 1, 1)
  {
    var s := SentAgain(c);
    ClientOpens(s, 6, 1060);
    DownNext(c, s, 7, 6, 1060);
    t := ToClient(s, OneOffer(), Some(6), 1060);
  }

  lemma RepliedAgain(c: Config) returns (t: UdpPath)
    ensures From(c, t, 9) && AtServer(t, 1050, 2) && Logs(t, 2, 2, 2, 1)
  {
    var s := OpenedAgain(c);
    ClientReplies(s, 1060, 0, 1060);
    LocalNext(c, s, 8, 1060);
    t := FromLocalSocket(s, OneOffer(), 0, [], 1060);
  }

  lemma FromReached(c: Config, t: UdpPath, n: nat)
    requires From(c, t, n) && n < 100 && !t.srv.p.ids.wrapped
    ensures Reached(t, c, OneOffer())
  {
    var events :| |events| == n && t == Course(Start(), c, OneOffer(), events);
    assert Fresh(Start());
  }

  /** The reply that arrives next is one the server refuses although it has the session. */
  ghost predicate RefusedNext(t: UdpPath, c: Config, now: nat)
  {
    && t.upSeen < |t.up| && |t.up[t.upSeen].peer.addr| == 16
    && First(t.srv.p.udp, WithUdpId(t.up[t.upSeen].session)) < |t.srv.p.udp|
    && !UdpReply(t.srv, c.window, t.up[t.upSeen], now).1
  }

  lemma ReplyCanBeRefused(c: Config, now: nat) returns (t: UdpPath)
    ensures Reached(t, c, OneOffer()) && RefusedNext(t, c, now)
  {
    t := RepliedAgain(c);
    FromReached(c, t, 9);
    FirstOfOne(t.srv.p.udp, WithUdpId(1));
    assert t.up[..1] == [] + [t.up[0]];
    LastAppend([], t.up[0], 1);
    ReplyForwardedIff(t, c, OneOffer(), now);
  }
}

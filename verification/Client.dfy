/** The client's tables updated in place (src/client/client.c); each method is proved against
    the function of the same step. */
module Clients {
  import opened Bytes
  import opened Bags
  import opened Metrics
  import opened UdpCodec
  import opened ServerSpec
  import opened ClientSpec
  import ReplayWindow
  import Servers

  class Tunnel {
    const l: Limits
    const fd: Socket
    const relays: array<Slot>
    const udp: array<Session>
    var work: seq<Socket>
    /** The descriptor table of the process. */
    var os: Os
    var m: Counters

    ghost function Now(): Client
      reads this, relays, udp
    {
      Client(fd, work, relays[..], udp[..], os, m)
    }

    constructor (l: Limits, fd: Socket)
      ensures fresh(relays) && fresh(udp) && this.l == l && Now() == Begin(l, fd)
    {
      this.l, this.fd, work := l, fd, [];
      relays := new Slot[l.streams](_ => Closed);
      udp := new Session[l.sessions](_ => Unused);
      os, m := Os({fd}, false), Zeros(COUNT);
    }

    /** add_work once the connection is made. */
    method AddWorkConnection(c: Socket)
      requires NewSockets(os, [c])
      modifies this
      ensures Now() == ClientStep(old(Now()), l, NewWork(c))
    {
      if |work| >= l.streams { return; }
      os := Opened(os, [c]);
      work := work + [c];
      m := Inc(m, WORK_IDLE);
    }

    /** A frame, or an error, on an idle work connection. */
    method WorkArrives(c: Socket, broken: bool, started: bool, local: Option<Socket>, ready: bool, stream: nat)
      requires (local.Some? ==> NewSockets(os, [local.value]))
      modifies this, relays
      ensures Now() == ClientStep(old(Now()), l, WorkFrame(c, broken, started, local, ready, stream))
    {
      var i := Servers.Search(work, OnSocket(c));
      if i == |work| { return; }
      work := work[i := work[|work| - 1]][..|work| - 1];
      m := Dec(m, WORK_IDLE);
      if broken || !started || local.None? {
        os := CloseFd(os, c);
        return;
      }
      os := Opened(os, [local.value]);
      var k := Servers.Search(relays[..], IsClosed);
      if k == relays.Length || !ready {
        os := CloseFd(CloseFd(os, local.value), c);
      } else {
        relays[k] := Open(local.value, c, stream);
      }
    }

    method CountLive() returns (n: nat)
      ensures n == Sum(udp[..], IsLive)
    {
      n := 0;
      for k := 0 to udp.Length
        invariant n == Sum(udp[..k], IsLive)
      {
        Servers.SumNext(udp[..], k, IsLive);
        assert udp[..][..k + 1] == udp[..k + 1] && udp[..][..k] == udp[..k];
        if udp[k].Live? { n := n + 1; }
      }
      assert udp[..udp.Length] == udp[..];
    }

    /** client_udp_create. */
    method CreateUdp(d: Datagram, c: Option<Socket>, now: nat) returns (k: nat)
      modifies this, udp
      ensures (Now(), k) == CreateSession(old(Now()), l, d, c, now)
    {
      var v := Servers.Search(l.offers, Serves(d.service));
      if v == |l.offers| || !l.offers[v].udp { return udp.Length; }
      var n := CountLive();
      if n >= l.offers[v].udpMax || c.None? { return udp.Length; }
      os := Opened(os, [c.value]);
      k := Servers.Search(udp[..], IsUnused);
      if k == udp.Length {
        os := CloseFd(os, c.value);
      } else {
        udp[k] := Live(d.session, v, d.peer, c.value, now, 0, ReplayWindow.Window(0, 0));
        m := Inc(m, UDP_ACTIVE);
      }
    }

    /** client_udp_from_server. */
    method DatagramArrives(d: Datagram, c: Option<Socket>, now: nat) returns (sent: bool)
      requires |d.peer.addr| == 16
      modifies this, udp
      ensures (Now(), sent) == Deliver(old(Now()), l, d, c, now)
    {
      if d.direction != 0 { return false; }
      var k := Servers.Search(udp[..], WithId(d.session));
      if k == udp.Length { k := CreateUdp(d, c, now); }
      if k == udp.Length { return false; }
      var u := udp[k];
      if u.svc >= |l.offers| || l.offers[u.svc].id != d.service || |u.peer.addr| != 16 || !SameEndpoint(u.peer, d.peer)
         || |d.payload| > l.offers[u.svc].maxDatagram {
        return false;
      }
      var t := ReplayWindow.Accept(u.rx, l.window, d.sequence);
      if !t.0 { return false; }
      udp[k] := u.(lastMs := now, rx := t.1);
      return true;
    }

    /** client_udp_close. */
    method CloseUdp(k: nat)
      requires k < udp.Length
      modifies this, udp
      ensures work == old(work) && Now() == DropSession(old(Now()), k)
    {
      if udp[k].Unused? { return; }
      os := CloseFd(os, udp[k].fd);
      udp[k] := Unused;
      m := Dec(m, UDP_ACTIVE);
    }

    /** client_udp_expire. */
    method ExpireUdp(now: nat)
      modifies this, udp
      ensures Now() == ExpireSessions(old(Now()), l, now, 0)
    {
      for j := 0 to udp.Length
        invariant ExpireSessions(Now(), l, now, j) == ExpireSessions(old(Now()), l, now, 0)
      {
        if Overdue(l, udp[j], now) { CloseUdp(j); }
      }
    }

    /** The exit path of client_session. */
    method Finish()
      modifies this, relays, udp
      ensures Now() == End(old(Now()))
    {
      CloseWork();
      CloseRelays();
      ghost var b := Now();
      for j := 0 to udp.Length
        invariant DropSessions(Now(), j) == DropSessions(b, 0)
      {
        CloseUdp(j);
      }
      os := CloseFd(os, fd);
    }

    method CloseWork()
      modifies this
      ensures work == [] && os == CloseAll(old(os), old(work)) && m == DecBy(old(m), WORK_IDLE, |old(work)|)
    {
      for k := 0 to |work|
        invariant work == old(work) && m == old(m) && os == CloseAll(old(os), work[..k])
      {
        assert work[..k + 1][..k] == work[..k];
        os := CloseFd(os, work[k]);
      }
      assert work[..|work|] == work;
      for k := 0 to |work|
        invariant work == old(work) && m == DecBy(old(m), WORK_IDLE, k) && os == CloseAll(old(os), work)
      {
        m := Dec(m, WORK_IDLE);
      }
      work := [];
    }

    method CloseRelays()
      modifies this`os, relays
      ensures os == CloseAll(old(os), Flat(old(relays[..]), SlotFds))
      ensures relays[..] == seq(relays.Length, _ => Closed)
    {
      ghost var rs := relays[..];
      for k := 0 to relays.Length
        invariant os == CloseAll(old(os), Flat(rs[..k], SlotFds))
        invariant forall i :: 0 <= i < k ==> relays[i] == Closed
        invariant forall i :: k <= i < relays.Length ==> relays[i] == rs[i]
      {
        Servers.CloseNext(old(os), rs, k, SlotFds);
        if relays[k].Open? {
          Servers.CloseTwo(os, relays[k].direct, relays[k].work);
          os := CloseFd(CloseFd(os, relays[k].direct), relays[k].work);
          relays[k] := Closed;
        }
      }
      assert rs[..relays.Length] == rs;
    }
  }
}

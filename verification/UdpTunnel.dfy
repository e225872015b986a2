/** UDP pseudo-sessions end to end: the server's table, the ordered control channel in both
    directions, and the client's table. A datagram from outside is never refused by the
    client's identity and replay checks; a reply is refused as a replay exactly when the
    client has forgotten the session and numbered its replies afresh. */
module UdpTunnel {
  import opened Bytes
  import opened Bags
  import opened UdpCodec
  import opened ServerSpec
  import opened ClientSpec
  import ReplayWindow

  /** The source a session stands for. */
  datatype Source = Source(service: seq<byte>, peer: Endpoint)

  /** Both ends, everything ever sent in each direction and how much of it has been
      received, and the source each identifier was given to. */
  datatype UdpPath = UdpPath(
    srv: Ps, cli: Client,
    down: seq<Datagram>, downSeen: nat, up: seq<Datagram>, upSeen: nat, orig: map<u64, Source>)

  datatype Event =
    | Outside(svc: nat, ep: Endpoint, opayload: seq<byte>, onow: nat)
    | Down(fd: Option<Socket>, dnow: nat)
    | Local(slot: nat, lpayload: seq<byte>, lnow: nat)
    | Up(unow: nat)
    | ServerExpires(snow: nat)
    | ClientExpires(cnow: nat)
    | NewStream

  // ----- steps -----

  /** The session for a source, found or opened. */
  function Addressed(t: UdpPath, svc: nat, ep: Endpoint, now: nat): (r: (UdpPath, nat))
    requires svc < |t.srv.p.svcs| && |ep.addr| == 16
    ensures r.1 <= |r.0.srv.p.udp| && (r.1 < |r.0.srv.p.udp| ==> r.0.srv.p.udp[r.1].Active?)
  {
    var (x, k) := UdpFound(t.srv, svc, ep, now);
    if k == |x.p.udp| || x.p.udp[k].id in t.orig then (t.(srv := x), k)
    else (t.(srv := x, orig := t.orig[x.p.udp[k].id := Source(t.srv.p.svcs[svc].id, ep)]), k)
  }

  /** The datagram numbered and sent on session k. */
  function Forward(t: UdpPath, k: nat, d: Datagram, now: nat): UdpPath
    requires k < |t.srv.p.udp| && t.srv.p.udp[k].Active?
  {
    t.(srv := UdpSet(t.srv, k, Forwarding(t.srv.p.udp[k], now)), down := t.down + [d])
  }

  function Outward(u: UdpSession, service: seq<byte>, ep: Endpoint, payload: seq<byte>): Datagram
    requires u.Active?
  {
    Datagram(0, u.id, (u.tx + 1) % U64_LIMIT, service, ep, payload)
  }

  function FromOutside(t: UdpPath, svc: nat, ep: Endpoint, payload: seq<byte>, now: nat): (r: UdpPath)
    requires svc < |t.srv.p.svcs| && |ep.addr| == 16
    ensures r.srv == UdpAdmit(t.srv, svc, ep, now).0
  {
    var (v, k) := Addressed(t, svc, ep, now);
    if k == |v.srv.p.udp| then v
    else Forward(v, k, Outward(v.srv.p.udp[k], t.srv.p.svcs[svc].id, ep, payload), now)
  }

  function ToClient(t: UdpPath, l: Limits, fd: Option<Socket>, now: nat): UdpPath
    requires t.downSeen < |t.down| && |t.down[t.downSeen].peer.addr| == 16
  {
    t.(cli := Deliver(t.cli, l, t.down[t.downSeen], fd, now).0, downSeen := t.downSeen + 1)
  }

  /** The session can send this reply. */
  predicate Replying(l: Limits, u: Session, payload: seq<byte>)
  {
    u.Live? && u.svc < |l.offers| && |payload| <= l.offers[u.svc].maxDatagram
  }

  function FromLocalSocket(t: UdpPath, l: Limits, k: nat, payload: seq<byte>, now: nat): UdpPath
    requires k < |t.cli.udp|
  {
    var u := t.cli.udp[k];
    if Replying(l, u, payload)
    then t.(cli := Refresh(t.cli, k, now), up := t.up + [Saying(l, u, payload)]) else t
  }

  function ToServer(t: UdpPath, c: Config, now: nat): UdpPath
    requires t.upSeen < |t.up| && |t.up[t.upSeen].peer.addr| == 16
  {
    t.(srv := UdpReply(t.srv, c.window, t.up[t.upSeen], now).0, upSeen := t.upSeen + 1)
  }

  ghost function Next(t: UdpPath, c: Config, l: Limits, e: Event): UdpPath
  {
    match e
    case Outside(svc, ep, payload, now) =>
      if svc < |t.srv.p.svcs| && LegalEndpoint(ep) then FromOutside(t, svc, ep, payload, now) else t
    case Down(fd, now) =>
      if t.downSeen < |t.down| && |t.down[t.downSeen].peer.addr| == 16 then ToClient(t, l, fd, now) else t
    case Local(k, payload, now) => if k < |t.cli.udp| then FromLocalSocket(t, l, k, payload, now) else t
    case Up(now) =>
      if t.upSeen < |t.up| && |t.up[t.upSeen].peer.addr| == 16 then ToServer(t, c, now) else t
    case ServerExpires(now) => t.(srv := UdpExpire(t.srv, now, 0))
    case ClientExpires(now) => t.(cli := ExpireSessions(t.cli, l, now, 0))
    case NewStream => t.(srv := t.srv.(p := t.srv.p.(ids := NextId(t.srv.p.ids))))
  }

  ghost function Course(t: UdpPath, c: Config, l: Limits, events: seq<Event>): UdpPath
    decreases |events|
  {
    if events == [] then t else Next(Course(t, c, l, events[..|events| - 1]), c, l, events[|events| - 1])
  }

  /** Both ends after registration, before any datagram. */
  ghost predicate Fresh(t: UdpPath)
  {
    && t.down == [] && t.up == [] && t.downSeen == 0 && t.upSeen == 0
    && t.orig == map[]
    && (forall u :: u in t.srv.p.udp ==> u.Idle?) && (forall v :: v in t.cli.udp ==> v.Unused?)
  }

  // ----- sequence numbers in a log -----

  /** The last number sent for this session, or zero. */
  function Last(log: seq<Datagram>, id: u64): nat
    decreases |log|
  {
    if log == [] then 0
    else if log[|log| - 1].session == id then log[|log| - 1].sequence
    else Last(log[..|log| - 1], id)
  }

  /** The greatest number sent for this session, or zero. */
  function Top(log: seq<Datagram>, id: u64): nat
    decreases |log|
  {
    if log == [] then 0
    else
      var before, d := Top(log[..|log| - 1], id), log[|log| - 1];
      if d.session == id && d.sequence > before then d.sequence else before
  }

  ghost predicate InTurn(log: seq<Datagram>, i: nat)
    requires i < |log|
  {
    log[i].sequence == Last(log[..i], log[i].session) + 1
  }

  /** Numbers follow each other within every session. */
  ghost predicate Consecutive(log: seq<Datagram>) { forall i :: 0 <= i < |log| ==> InTurn(log, i) }

  /** Numbers follow each other within every session, or start again at one. */
  ghost predicate Paced(log: seq<Datagram>) { forall i :: 0 <= i < |log| ==> InTurn(log, i) || log[i].sequence == 1 }

  lemma LastAppend(log: seq<Datagram>, d: Datagram, id: u64)
    ensures Last(log + [d], id) == if d.session == id then d.sequence else Last(log, id)
    ensures Top(log + [d], id) == if d.session == id && d.sequence > Top(log, id) then d.sequence else Top(log, id)
  {
    assert (log + [d])[..|log|] == log;
  }

  lemma {:induction false} LastBelowTop(log: seq<Datagram>, id: u64)
    ensures Last(log, id) <= Top(log, id)
    decreases |log|
  {
    if log != [] { LastBelowTop(log[..|log| - 1], id); }
  }

  lemma {:induction false} LastBound(log: seq<Datagram>, id: u64)
    requires Paced(log)
    ensures Last(log, id) <= |log|
    decreases |log|
  {
    if log != [] {
      var n := |log| - 1;
      PacedPrefix(log, n);
      LastBound(log[..n], id);
      LastBound(log[..n], log[n].session);
      assert InTurn(log, n) || log[n].sequence == 1;
    }
  }

  lemma PacedPrefix(log: seq<Datagram>, n: nat)
    requires n <= |log|
    ensures Paced(log) ==> Paced(log[..n])
    ensures Consecutive(log) ==> Consecutive(log[..n]) && Paced(log)
  {
    forall i | 0 <= i < n ensures log[..n][..i] == log[..i] {}
    forall i | 0 <= i < n ensures InTurn(log[..n], i) == InTurn(log, i) {}
  }

  lemma LogAppend(log: seq<Datagram>, d: Datagram)
    ensures Paced(log) && (d.sequence == Last(log, d.session) + 1 || d.sequence == 1) ==> Paced(log + [d])
    ensures Consecutive(log) && d.sequence == Last(log, d.session) + 1 ==> Consecutive(log + [d])
  {
    var more := log + [d];
    assert more[..|log|] == log;
    forall i | 0 <= i < |log| ensures InTurn(more, i) == InTurn(log, i) { assert more[..i] == log[..i]; }
    assert InTurn(more, |log|) <==> d.sequence == Last(log, d.session) + 1;
  }

  // ----- the invariant -----

  ghost predicate Named(orig: map<u64, Source>, id: u64, service: seq<byte>, peer: Endpoint)
  {
    id in orig && orig[id] == Source(service, peer) && LegalEndpoint(peer)
  }

  /** Every number up to the mark, as far back as the bitmap goes, has been accepted. */
  ghost predicate Solid(w: ReplayWindow.Window)
  {
    forall age {:trigger ReplayWindow.Has(w.bits, age)} :: 0 <= age < 64 && age < w.high ==>
      ReplayWindow.Has(w.bits, age)
  }

  ghost predicate ServerSessionOk(t: UdpPath, u: UdpSession)
  {
    u.Active? ==>
      && u.svc < |t.srv.p.svcs| && Named(t.orig, u.id, t.srv.p.svcs[u.svc].id, u.peer)
      && u.tx == Last(t.down, u.id)
      && t.upSeen <= |t.up| && u.rx.high == Top(t.up[..t.upSeen], u.id) && Solid(u.rx)
  }

  ghost predicate ClientSessionOk(t: UdpPath, l: Limits, v: Session)
  {
    v.Live? ==>
      && v.svc < |l.offers| && Named(t.orig, v.id, l.offers[v.svc].id, v.peer)
      && (v.tx == 0 || v.tx == Last(t.up, v.id))
      && t.downSeen <= |t.down| && v.rx.high <= Last(t.down[..t.downSeen], v.id)
  }

  ghost predicate LogsOk(t: UdpPath)
  {
    && t.downSeen <= |t.down| && t.upSeen <= |t.up|
    && (forall i :: 0 <= i < |t.down| ==> DownOk(t.orig, t.down[i]))
    && (forall i :: 0 <= i < |t.up| ==> UpOk(t.orig, t.up[i]))
    && Consecutive(t.down) && Paced(t.up)
  }

  ghost predicate DownOk(orig: map<u64, Source>, d: Datagram)
  {
    Named(orig, d.session, d.service, d.peer) && d.direction == 0
  }

  ghost predicate UpOk(orig: map<u64, Source>, d: Datagram)
  {
    Named(orig, d.session, d.service, d.peer) && d.direction == 1
  }

  /** Identifiers in use were handed out, and no two sessions of one end share one. */
  ghost predicate IdsOk(t: UdpPath)
  {
    && (forall id :: id in t.orig ==> id <= t.srv.p.ids.next)
    && (forall i, j :: 0 <= i < j < |t.srv.p.udp| ==> !Same(t.srv.p.udp[i], t.srv.p.udp[j]))
    && forall i, j :: 0 <= i < j < |t.cli.udp| ==> !Twins(t.cli.udp[i], t.cli.udp[j])
  }

  ghost predicate Same(u: UdpSession, v: UdpSession) { u.Active? && v.Active? && u.id == v.id }

  ghost predicate Inv(t: UdpPath, l: Limits)
  {
    && LogsOk(t) && IdsOk(t)
    && (forall i :: 0 <= i < |t.srv.p.udp| ==> ServerSessionOk(t, t.srv.p.udp[i]))
    && forall i :: 0 <= i < |t.cli.udp| ==> ClientSessionOk(t, l, t.cli.udp[i])
  }

  // ----- the window on an ordered channel -----

  /** If everything up to the mark has been accepted, a number at most one above it is
      accepted exactly when it is above it. */
  lemma SolidAccept(w: ReplayWindow.Window, width: ReplayWindow.Width, s: u64)
    requires Solid(w) && 1 <= s <= w.high + 1
    ensures ReplayWindow.Accept(w, width, s).0 <==> s > w.high
    ensures var v := ReplayWindow.Accept(w, width, s).1;
      v.high == (if s > w.high then s else w.high) && Solid(v)
  {
    var v := ReplayWindow.Accept(w, width, s).1;
    if s > w.high {
      forall age | 0 <= age < 64 && age < v.high ensures ReplayWindow.Has(v.bits, age) {
        ReplayWindow.HasSet(ReplayWindow.Shl(w.bits, 1), 0, age);
        ReplayWindow.HasShl(w.bits, 1, age);
      }
    } else {
      var age := w.high - s;
      if age < 64 { assert ReplayWindow.Has(w.bits, age); }
    }
  }

  lemma LegalSame(a: Endpoint, b: Endpoint)
    requires LegalEndpoint(a) && LegalEndpoint(b)
    ensures SameEndpoint(a, b) <==> a == b
  {
    if SameEndpoint(a, b) && a.family == 4 {
      assert a.addr == a.addr[..4] + a.addr[4..];
      assert b.addr == b.addr[..4] + b.addr[4..];
    } else if SameEndpoint(a, b) {
      assert a.addr[..16] == a.addr && b.addr[..16] == b.addr;
    }
  }

  /** An identifier nobody was given appears nowhere. */
  lemma {:induction false} NeverSent(log: seq<Datagram>, orig: map<u64, Source>, id: u64)
    requires id !in orig && forall i :: 0 <= i < |log| ==> Named(orig, log[i].session, log[i].service, log[i].peer)
    ensures Last(log, id) == 0 && Top(log, id) == 0
    decreases |log|
  {
    if log != [] {
      var n := |log| - 1;
      assert Named(orig, log[n].session, log[n].service, log[n].peer);
      NeverSent(log[..n], orig, id);
    }
  }

  lemma LastSeen(log: seq<Datagram>, n: nat, id: u64)
    requires n < |log|
    ensures Last(log[..n + 1], id) == if log[n].session == id then log[n].sequence else Last(log[..n], id)
    ensures Top(log[..n + 1], id)
      == if log[n].session == id && log[n].sequence > Top(log[..n], id) then log[n].sequence else Top(log[..n], id)
  {
    assert log[..n + 1] == log[..n] + [log[n]];
    LastAppend(log[..n], log[n], id);
  }

  lemma ServerUntouched(t: UdpPath, l: Limits, v: UdpPath)
    requires Inv(t, l) && v.srv == t.srv && v.down == t.down && v.orig == t.orig && v.upSeen == t.upSeen <= |v.up|
    requires v.up[..v.upSeen] == t.up[..t.upSeen]
    ensures forall i :: 0 <= i < |v.srv.p.udp| ==> ServerSessionOk(v, v.srv.p.udp[i])
  {
    forall i | 0 <= i < |v.srv.p.udp| ensures ServerSessionOk(v, v.srv.p.udp[i]) {
      assert ServerSessionOk(t, t.srv.p.udp[i]);
    }
  }

  // ----- a datagram from outside -----

  /** v is t with datagram d sent on session k, which has just been numbered. */
  ghost predicate Sends(t: UdpPath, k: nat, d: Datagram, now: nat, v: UdpPath)
  {
    && k < |t.srv.p.udp| && t.srv.p.udp[k].Active?
    && d.session == t.srv.p.udp[k].id && d.sequence == t.srv.p.udp[k].tx + 1 && d.direction == 0
    && Named(t.orig, d.session, d.service, d.peer)
    && v == Forward(t, k, d, now)
  }

  lemma SendsServer(t: UdpPath, l: Limits, k: nat, d: Datagram, now: nat, v: UdpPath)
    requires Inv(t, l) && Sends(t, k, d, now, v)
    ensures forall i :: 0 <= i < |v.srv.p.udp| ==> ServerSessionOk(v, v.srv.p.udp[i])
  {
    forall i | 0 <= i < |v.srv.p.udp| ensures ServerSessionOk(v, v.srv.p.udp[i]) {
      var u := t.srv.p.udp[i];
      assert ServerSessionOk(t, u);
      if u.Active? {
        LastAppend(t.down, d, u.id);
        if i < k { assert !Same(u, t.srv.p.udp[k]); }
        if k < i { assert !Same(t.srv.p.udp[k], u); }
      }
    }
  }

  lemma SendsKeeps(t: UdpPath, l: Limits, k: nat, d: Datagram, now: nat, v: UdpPath)
    requires Inv(t, l) && Sends(t, k, d, now, v)
    ensures Inv(v, l)
  {
    SendsServer(t, l, k, d, now, v);
    assert ServerSessionOk(t, t.srv.p.udp[k]);
    LogAppend(t.down, d);
    assert v.down[..v.downSeen] == t.down[..t.downSeen];
    forall i | 0 <= i < |v.cli.udp| ensures ClientSessionOk(v, l, v.cli.udp[i]) {
      assert ClientSessionOk(t, l, t.cli.udp[i]);
    }
    forall i, j | 0 <= i < j < |v.srv.p.udp| ensures !Same(v.srv.p.udp[i], v.srv.p.udp[j]) {
      assert !Same(t.srv.p.udp[i], t.srv.p.udp[j]);
    }
  }

  /** v is t with a new session k for a source, under an identifier nobody had. */
  ghost predicate Opens(t: UdpPath, k: nat, svc: nat, ep: Endpoint, now: nat, v: UdpPath)
  {
    && svc < |t.srv.p.svcs| && LegalEndpoint(ep)
    && k < |t.srv.p.udp| && t.srv.p.udp[k].Idle?
    && !NextId(t.srv.p.ids).wrapped
    && var id := NextId(t.srv.p.ids).next;
    && v.srv.p == t.srv.p.(udp := t.srv.p.udp[k := NewUdp(id, svc, ep, now)], ids := NextId(t.srv.p.ids))
    && v == t.(srv := v.srv, orig := t.orig[id := Source(t.srv.p.svcs[svc].id, ep)])
  }

  lemma OpensServer(t: UdpPath, l: Limits, k: nat, svc: nat, ep: Endpoint, now: nat, v: UdpPath)
    requires Inv(t, l) && Opens(t, k, svc, ep, now, v)
    ensures forall i :: 0 <= i < |v.srv.p.udp| ==> ServerSessionOk(v, v.srv.p.udp[i])
    ensures forall i, j :: 0 <= i < j < |v.srv.p.udp| ==> !Same(v.srv.p.udp[i], v.srv.p.udp[j])
  {
    var id := NextId(t.srv.p.ids).next;
    forall i | 0 <= i < |t.down| ensures Named(t.orig, t.down[i].session, t.down[i].service, t.down[i].peer) {
      assert DownOk(t.orig, t.down[i]);
    }
    NeverSent(t.down, t.orig, id);
    var seen := t.up[..t.upSeen];
    forall i | 0 <= i < |seen| ensures Named(t.orig, seen[i].session, seen[i].service, seen[i].peer) {
      assert UpOk(t.orig, t.up[i]);
    }
    NeverSent(seen, t.orig, id);
    forall i | 0 <= i < |v.srv.p.udp| ensures ServerSessionOk(v, v.srv.p.udp[i]) {
      assert ServerSessionOk(t, t.srv.p.udp[i]);
    }
    forall i, j | 0 <= i < j < |v.srv.p.udp| ensures !Same(v.srv.p.udp[i], v.srv.p.udp[j]) {
      assert !Same(t.srv.p.udp[i], t.srv.p.udp[j]);
      assert ServerSessionOk(t, t.srv.p.udp[i]) && ServerSessionOk(t, t.srv.p.udp[j]);
    }
  }

  lemma OpensKeeps(t: UdpPath, l: Limits, k: nat, svc: nat, ep: Endpoint, now: nat, v: UdpPath)
    requires Inv(t, l) && Opens(t, k, svc, ep, now, v)
    ensures Inv(v, l)
  {
    OpensServer(t, l, k, svc, ep, now, v);
    forall i | 0 <= i < |v.down| ensures DownOk(v.orig, v.down[i]) { assert DownOk(t.orig, t.down[i]); }
    forall i | 0 <= i < |v.up| ensures UpOk(v.orig, v.up[i]) { assert UpOk(t.orig, t.up[i]); }
    forall i | 0 <= i < |v.cli.udp| ensures ClientSessionOk(v, l, v.cli.udp[i]) {
      assert ClientSessionOk(t, l, t.cli.udp[i]);
    }
  }

  /** The session found or opened stands for exactly this source. */
  lemma AddressedKeeps(t: UdpPath, l: Limits, svc: nat, ep: Endpoint, now: nat)
    requires Inv(t, l) && svc < |t.srv.p.svcs| && LegalEndpoint(ep)
    requires !Addressed(t, svc, ep, now).0.srv.p.ids.wrapped
    ensures var (v, k) := Addressed(t, svc, ep, now);
      Inv(v, l) && (k < |v.srv.p.udp| ==> Named(v.orig, v.srv.p.udp[k].id, t.srv.p.svcs[svc].id, ep))
  {
    var k := UdpFind(t.srv.p.udp, svc, ep);
    var (v, _) := Addressed(t, svc, ep, now);
    if k < |t.srv.p.udp| {
      assert ServerSessionOk(t, t.srv.p.udp[k]);
      LegalSame(t.srv.p.udp[k].peer, ep);
      assert v == t;
    } else if v.srv != t.srv {
      OpensKeeps(t, l, FreeUdp(t.srv.p.udp), svc, ep, now, v);
    }
  }

  lemma OutsideKeeps(t: UdpPath, l: Limits, svc: nat, ep: Endpoint, payload: seq<byte>, now: nat)
    requires Inv(t, l) && svc < |t.srv.p.svcs| && LegalEndpoint(ep) && |t.down| < U64_MAX
    requires !Addressed(t, svc, ep, now).0.srv.p.ids.wrapped
    ensures Inv(FromOutside(t, svc, ep, payload, now), l)
  {
    var (v, k) := Addressed(t, svc, ep, now);
    AddressedKeeps(t, l, svc, ep, now);
    if k < |v.srv.p.udp| {
      assert ServerSessionOk(v, v.srv.p.udp[k]);
      PacedPrefix(v.down, 0);
      LastBound(v.down, v.srv.p.udp[k].id);
      var d := Outward(v.srv.p.udp[k], t.srv.p.svcs[svc].id, ep, payload);
      SendsKeeps(v, l, k, d, now, Forward(v, k, d, now));
    }
  }

  // ----- a datagram at the client -----

  /** Session k of the client belongs to the datagram being received. */
  ghost predicate Receives(t: UdpPath, l: Limits, k: nat)
  {
    && t.downSeen < |t.down| && k < |t.cli.udp| && t.cli.udp[k].Live?
    && t.cli.udp[k].id == t.down[t.downSeen].session
  }

  /** The identity and replay checks pass; what is left is the size. */
  lemma ReceiveIff(t: UdpPath, l: Limits, k: nat, now: nat)
    requires Inv(t, l) && Receives(t, l, k)
    ensures var d := t.down[t.downSeen];
      && |d.peer.addr| == 16
      && (Receive(t.cli, l, k, d, now).1 <==> |d.payload| <= l.offers[t.cli.udp[k].svc].maxDatagram)
      && t.cli.udp[k].peer == d.peer && l.offers[t.cli.udp[k].svc].id == d.service
  {
    var d := t.down[t.downSeen];
    assert ClientSessionOk(t, l, t.cli.udp[k]) && DownOk(t.orig, d) && InTurn(t.down, t.downSeen);
    LegalSame(t.cli.udp[k].peer, d.peer);
  }

  lemma ReceiveKeeps(t: UdpPath, l: Limits, k: nat, now: nat)
    requires Inv(t, l) && Receives(t, l, k) && |t.down[t.downSeen].peer.addr| == 16
    ensures Inv(t.(cli := Receive(t.cli, l, k, t.down[t.downSeen], now).0, downSeen := t.downSeen + 1), l)
  {
    var d := t.down[t.downSeen];
    var v := t.(cli := Receive(t.cli, l, k, d, now).0, downSeen := t.downSeen + 1);
    assert InTurn(t.down, t.downSeen);
    forall i | 0 <= i < |v.cli.udp| ensures ClientSessionOk(v, l, v.cli.udp[i]) {
      var u := t.cli.udp[i];
      assert ClientSessionOk(t, l, u);
      if u.Live? { LastSeen(t.down, t.downSeen, u.id); }
    }
    forall i | 0 <= i < |v.srv.p.udp| ensures ServerSessionOk(v, v.srv.p.udp[i]) {
      assert ServerSessionOk(t, t.srv.p.udp[i]);
    }
    forall i, j | 0 <= i < j < |v.cli.udp| ensures !Twins(v.cli.udp[i], v.cli.udp[j]) {
      assert !Twins(t.cli.udp[i], t.cli.udp[j]);
    }
  }

  /** A session the client opens for the datagram being received. */
  lemma CreatedKeeps(t: UdpPath, l: Limits, fd: Option<Socket>, now: nat)
    requires Inv(t, l) && t.downSeen < |t.down|
    requires First(t.cli.udp, WithId(t.down[t.downSeen].session)) == |t.cli.udp|
    ensures Inv(t.(cli := CreateSession(t.cli, l, t.down[t.downSeen], fd, now).0), l)
  {
    var d := t.down[t.downSeen];
    var (y, k) := CreateSession(t.cli, l, d, fd, now);
    var v := t.(cli := y);
    assert DownOk(t.orig, d);
    forall i | 0 <= i < |v.cli.udp| ensures ClientSessionOk(v, l, v.cli.udp[i]) {
      assert ClientSessionOk(t, l, t.cli.udp[i]);
    }
    forall i | 0 <= i < |v.srv.p.udp| ensures ServerSessionOk(v, v.srv.p.udp[i]) {
      assert ServerSessionOk(t, t.srv.p.udp[i]);
    }
    forall i, j | 0 <= i < j < |v.cli.udp| ensures !Twins(v.cli.udp[i], v.cli.udp[j]) {
      assert !Twins(t.cli.udp[i], t.cli.udp[j]);
      NotFound(t.cli.udp, WithId(d.session), i);
      NotFound(t.cli.udp, WithId(d.session), j);
    }
  }

  /** A datagram nobody receives. */
  lemma PassedOver(t: UdpPath, l: Limits)
    requires Inv(t, l) && t.downSeen < |t.down|
    ensures Inv(t.(downSeen := t.downSeen + 1), l)
  {
    var v := t.(downSeen := t.downSeen + 1);
    assert InTurn(t.down, t.downSeen);
    forall i | 0 <= i < |v.cli.udp| ensures ClientSessionOk(v, l, v.cli.udp[i]) {
      assert ClientSessionOk(t, l, t.cli.udp[i]);
      if t.cli.udp[i].Live? { LastSeen(t.down, t.downSeen, t.cli.udp[i].id); }
    }
    forall i | 0 <= i < |v.srv.p.udp| ensures ServerSessionOk(v, v.srv.p.udp[i]) {
      assert ServerSessionOk(t, t.srv.p.udp[i]);
    }
  }

  lemma DownKeeps(t: UdpPath, l: Limits, fd: Option<Socket>, now: nat)
    requires Inv(t, l) && t.downSeen < |t.down| && |t.down[t.downSeen].peer.addr| == 16
    ensures Inv(ToClient(t, l, fd, now), l)
  {
    var d, v := t.down[t.downSeen], ToClient(t, l, fd, now);
    assert DownOk(t.orig, d);
    var found := First(t.cli.udp, WithId(d.session));
    if found < |t.cli.udp| {
      ReceiveKeeps(t, l, found, now);
    } else {
      var (y, k) := CreateSession(t.cli, l, d, fd, now);
      CreatedKeeps(t, l, fd, now);
      if k < |y.udp| { ReceiveKeeps(t.(cli := y), l, k, now); } else { PassedOver(t.(cli := y), l); }
    }
  }

  // ----- a reply from the local service -----

  /** v is t with a reply sent on the client's session k, which has just been numbered. */
  ghost predicate Says(t: UdpPath, l: Limits, k: nat, d: Datagram, now: nat, v: UdpPath)
  {
    && k < |t.cli.udp| && t.cli.udp[k].Live? && t.cli.udp[k].svc < |l.offers| && t.cli.udp[k].tx < U64_MAX
    && d == Saying(l, t.cli.udp[k], d.payload)
    && v == t.(cli := Refresh(t.cli, k, now), up := t.up + [d])
  }

  lemma SaysClients(t: UdpPath, l: Limits, k: nat, d: Datagram, now: nat, v: UdpPath)
    requires Inv(t, l) && Says(t, l, k, d, now, v)
    ensures forall i :: 0 <= i < |v.cli.udp| ==> ClientSessionOk(v, l, v.cli.udp[i])
  {
    forall i | 0 <= i < |v.cli.udp| ensures ClientSessionOk(v, l, v.cli.udp[i]) {
      var u := t.cli.udp[i];
      assert ClientSessionOk(t, l, u);
      if u.Live? {
        LastAppend(t.up, d, u.id);
        if i < k { assert !Twins(u, t.cli.udp[k]); }
        if k < i { assert !Twins(t.cli.udp[k], u); }
      }
    }
  }

  lemma SaysLog(log: seq<Datagram>, l: Limits, d: Datagram, u: Session)
    requires Paced(log) && u.Live? && u.svc < |l.offers| && u.tx < U64_MAX && d == Saying(l, u, d.payload)
    requires u.tx == 0 || u.tx == Last(log, u.id)
    ensures Paced(log + [d])
  {
    LogAppend(log, d);
  }

  lemma SaysKeeps(t: UdpPath, l: Limits, k: nat, d: Datagram, now: nat, v: UdpPath)
    requires Inv(t, l) && Says(t, l, k, d, now, v)
    ensures Inv(v, l)
  {
    SaysClients(t, l, k, d, now, v);
    assert ClientSessionOk(t, l, t.cli.udp[k]);
    SaysLog(t.up, l, d, t.cli.udp[k]);
    ServerUntouched(t, l, v);
    forall i, j | 0 <= i < j < |v.cli.udp| ensures !Twins(v.cli.udp[i], v.cli.udp[j]) {
      assert !Twins(t.cli.udp[i], t.cli.udp[j]);
    }
  }

  lemma LocalKeeps(t: UdpPath, l: Limits, k: nat, payload: seq<byte>, now: nat)
    requires Inv(t, l) && k < |t.cli.udp| && |t.up| < U64_MAX
    ensures Inv(FromLocalSocket(t, l, k, payload, now), l)
  {
    var u, v := t.cli.udp[k], FromLocalSocket(t, l, k, payload, now);
    if v != t {
      assert ClientSessionOk(t, l, u);
      LastBound(t.up, u.id);
      SaysKeeps(t, l, k, Saying(l, u, payload), now, v);
    }
  }

  // ----- a reply at the server -----

  /** Server session k belongs to the reply being received. */
  ghost predicate Answers(t: UdpPath, k: nat)
  {
    && t.upSeen < |t.up| && k < |t.srv.p.udp| && t.srv.p.udp[k].Active?
    && t.srv.p.udp[k].id == t.up[t.upSeen].session
  }

  /** The identity checks pass; the replay check passes exactly for a number not reached
      before in this session. */
  lemma RepliesIff(t: UdpPath, l: Limits, k: nat, width: ReplayWindow.Width)
    requires Inv(t, l) && Answers(t, k)
    ensures var d, u := t.up[t.upSeen], t.srv.p.udp[k];
      && |d.peer.addr| == 16 && u.peer == d.peer && 1 <= d.sequence <= u.rx.high + 1 && Solid(u.rx)
      && (UdpReplies(t.srv.p, u, width, d) <==> d.sequence > Top(t.up[..t.upSeen], d.session))
  {
    var d, u := t.up[t.upSeen], t.srv.p.udp[k];
    assert ServerSessionOk(t, u) && UpOk(t.orig, d);
    assert InTurn(t.up, t.upSeen) || d.sequence == 1;
    LastBelowTop(t.up[..t.upSeen], d.session);
    LegalSame(u.peer, d.peer);
    SolidAccept(u.rx, width, d.sequence);
  }

  lemma UpServer(t: UdpPath, l: Limits, c: Config, now: nat, v: UdpPath)
    requires Inv(t, l) && t.upSeen < |t.up| && |t.up[t.upSeen].peer.addr| == 16 && v == ToServer(t, c, now)
    ensures forall i :: 0 <= i < |v.srv.p.udp| ==> ServerSessionOk(v, v.srv.p.udp[i])
  {
    var d := t.up[t.upSeen];
    var k := First(t.srv.p.udp, WithUdpId(d.session));
    if k < |t.srv.p.udp| {
      RepliesIff(t, l, k, c.window);
      SolidAccept(t.srv.p.udp[k].rx, c.window, d.sequence);
    }
    forall i | 0 <= i < |v.srv.p.udp| ensures ServerSessionOk(v, v.srv.p.udp[i]) {
      var u := t.srv.p.udp[i];
      assert ServerSessionOk(t, u);
      if u.Active? {
        LastSeen(t.up, t.upSeen, u.id);
        if k == |t.srv.p.udp| { NotFound(t.srv.p.udp, WithUdpId(d.session), i); }
        else if i < k { assert !Same(u, t.srv.p.udp[k]); }
        else if k < i { assert !Same(t.srv.p.udp[k], u); }
      }
    }
  }

  lemma UpKeeps(t: UdpPath, l: Limits, c: Config, now: nat)
    requires Inv(t, l) && t.upSeen < |t.up| && |t.up[t.upSeen].peer.addr| == 16
    ensures Inv(ToServer(t, c, now), l)
  {
    var v := ToServer(t, c, now);
    UpServer(t, l, c, now, v);
    forall i | 0 <= i < |v.cli.udp| ensures ClientSessionOk(v, l, v.cli.udp[i]) {
      assert ClientSessionOk(t, l, t.cli.udp[i]);
    }
    forall i, j | 0 <= i < j < |v.srv.p.udp| ensures !Same(v.srv.p.udp[i], v.srv.p.udp[j]) {
      assert !Same(t.srv.p.udp[i], t.srv.p.udp[j]);
    }
  }

  // ----- expiry -----

  ghost predicate ServerForgot(x: Ps, y: Ps)
  {
    && y.p == x.p.(udp := y.p.udp) && |y.p.udp| == |x.p.udp|
    && forall i :: 0 <= i < |x.p.udp| ==> y.p.udp[i] == x.p.udp[i] || y.p.udp[i].Idle?
  }

  lemma {:induction false} ExpiryForgets(x: Ps, now: nat, j: nat)
    ensures ServerForgot(x, UdpExpire(x, now, j))
    decreases |x.p.udp| - j
  {
    if j < |x.p.udp| {
      var y := if UdpExpired(x.p, x.p.udp[j], now)
        then x.(p := x.p.(udp := x.p.udp[j := Idle]), m := Metrics.Dec(x.m, Metrics.UDP_ACTIVE)) else x;
      ExpiryForgets(y, now, j + 1);
    }
  }

  ghost predicate ClientForgot(x: Client, y: Client)
  {
    && |y.udp| == |x.udp| && forall i :: 0 <= i < |x.udp| ==> y.udp[i] == x.udp[i] || y.udp[i].Unused?
  }

  lemma {:induction false} ClientExpiryForgets(x: Client, l: Limits, now: nat, j: nat)
    ensures ClientForgot(x, ExpireSessions(x, l, now, j))
    decreases |x.udp| - j
  {
    if j < |x.udp| { ClientExpiryForgets(if Overdue(l, x.udp[j], now) then DropSession(x, j) else x, l, now, j + 1); }
  }

  lemma ForgetKeeps(t: UdpPath, l: Limits, v: UdpPath)
    requires Inv(t, l) && v == t.(srv := v.srv, cli := v.cli)
    requires ServerForgot(t.srv, v.srv) && ClientForgot(t.cli, v.cli)
    ensures Inv(v, l)
  {
    forall i | 0 <= i < |v.cli.udp| ensures ClientSessionOk(v, l, v.cli.udp[i]) {
      assert ClientSessionOk(t, l, t.cli.udp[i]);
    }
    forall i | 0 <= i < |v.srv.p.udp| ensures ServerSessionOk(v, v.srv.p.udp[i]) {
      assert ServerSessionOk(t, t.srv.p.udp[i]);
    }
    forall i, j | 0 <= i < j < |v.srv.p.udp| ensures !Same(v.srv.p.udp[i], v.srv.p.udp[j]) {
      assert !Same(t.srv.p.udp[i], t.srv.p.udp[j]);
    }
    forall i, j | 0 <= i < j < |v.cli.udp| ensures !Twins(v.cli.udp[i], v.cli.udp[j]) {
      assert !Twins(t.cli.udp[i], t.cli.udp[j]);
    }
  }

  lemma NewStreamKeeps(t: UdpPath, l: Limits)
    requires Inv(t, l) && !NextId(t.srv.p.ids).wrapped
    ensures Inv(t.(srv := t.srv.(p := t.srv.p.(ids := NextId(t.srv.p.ids)))), l)
  {
    var v := t.(srv := t.srv.(p := t.srv.p.(ids := NextId(t.srv.p.ids))));
    forall i | 0 <= i < |v.cli.udp| ensures ClientSessionOk(v, l, v.cli.udp[i]) {
      assert ClientSessionOk(t, l, t.cli.udp[i]);
    }
    forall i | 0 <= i < |v.srv.p.udp| ensures ServerSessionOk(v, v.srv.p.udp[i]) {
      assert ServerSessionOk(t, t.srv.p.udp[i]);
    }
  }

  // ----- whole courses -----

  lemma NextKeeps(t: UdpPath, c: Config, l: Limits, e: Event)
    requires Inv(t, l) && |t.down| < U64_MAX && |t.up| < U64_MAX && !Next(t, c, l, e).srv.p.ids.wrapped
    ensures Inv(Next(t, c, l, e), l)
  {
    match e
    case Outside(svc, ep, payload, now) =>
      if svc < |t.srv.p.svcs| && LegalEndpoint(ep) { OutsideKeeps(t, l, svc, ep, payload, now); }
    case Down(fd, now) =>
      if t.downSeen < |t.down| && |t.down[t.downSeen].peer.addr| == 16 { DownKeeps(t, l, fd, now); }
    case Local(k, payload, now) => if k < |t.cli.udp| { LocalKeeps(t, l, k, payload, now); }
    case Up(now) => if t.upSeen < |t.up| && |t.up[t.upSeen].peer.addr| == 16 { UpKeeps(t, l, c, now); }
    case ServerExpires(now) =>
      ExpiryForgets(t.srv, now, 0);
      ForgetKeeps(t, l, t.(srv := UdpExpire(t.srv, now, 0)));
    case ClientExpires(now) =>
      ClientExpiryForgets(t.cli, l, now, 0);
      ForgetKeeps(t, l, t.(cli := ExpireSessions(t.cli, l, now, 0)));
    case NewStream => NewStreamKeeps(t, l);
  }

  lemma NextGrows(t: UdpPath, c: Config, l: Limits, e: Event)
    ensures var v := Next(t, c, l, e); |v.down| <= |t.down| + 1 && |v.up| <= |t.up| + 1
    ensures t.srv.p.ids.wrapped ==> Next(t, c, l, e).srv.p.ids.wrapped
  {
    if e.ServerExpires? { ExpiryForgets(t.srv, e.snow, 0); }
  }

  lemma FreshInv(t: UdpPath, l: Limits)
    requires Fresh(t)
    ensures Inv(t, l)
  {
    forall i | 0 <= i < |t.srv.p.udp| ensures t.srv.p.udp[i].Idle? { assert t.srv.p.udp[i] in t.srv.p.udp; }
    forall i | 0 <= i < |t.cli.udp| ensures t.cli.udp[i].Unused? { assert t.cli.udp[i] in t.cli.udp; }
  }

  lemma {:induction false} CourseKeeps(t: UdpPath, c: Config, l: Limits, events: seq<Event>)
    requires Fresh(t) && |events| <= U64_MAX && !Course(t, c, l, events).srv.p.ids.wrapped
    ensures var v := Course(t, c, l, events); Inv(v, l) && |v.down| <= |events| && |v.up| <= |events|
    decreases |events|
  {
    if events == [] {
      FreshInv(t, l);
    } else {
      var before, e := events[..|events| - 1], events[|events| - 1];
      var u := Course(t, c, l, before);
      NextGrows(u, c, l, e);
      CourseKeeps(t, c, l, before);
      NextKeeps(u, c, l, e);
    }
  }
}

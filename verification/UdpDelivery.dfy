/** What the two ends of the UDP path guarantee over any course of events. */
module UdpDelivery {
  import opened Bytes
  import opened Bags
  import opened UdpCodec
  import opened ServerSpec
  import opened ClientSpec
  import opened UdpTunnel

  type Happening = UdpTunnel.Event

  /** The tunnel after these events, with fewer than 2^64 of them and before the server's
      identifiers wrap around. */
  ghost predicate Reached(t: UdpPath, c: Config, l: Limits)
  {
    exists t0, events ::
      Fresh(t0) && |events| <= U64_MAX && t == Course(t0, c, l, events) && !t.srv.p.ids.wrapped
  }

  lemma ReachedInv(t: UdpPath, c: Config, l: Limits)
    requires Reached(t, c, l)
    ensures Inv(t, l)
  {
    var t0, events :| Fresh(t0) && |events| <= U64_MAX && t == Course(t0, c, l, events) && !t.srv.p.ids.wrapped;
    CourseKeeps(t0, c, l, events);
  }

  // ----- toward the client -----

  /** The session the client has, or opens, for the next datagram. */
  function SessionFor(t: UdpPath, l: Limits, fd: Option<Socket>, now: nat): (r: (Client, nat))
    requires t.downSeen < |t.down|
    ensures r.1 <= |r.0.udp| && (r.1 < |r.0.udp| ==> r.0.udp[r.1].Live?)
  {
    var found := First(t.cli.udp, WithId(t.down[t.downSeen].session));
    if found < |t.cli.udp| then (t.cli, found) else CreateSession(t.cli, l, t.down[t.downSeen], fd, now)
  }

  /** A datagram the server forwarded is handed to a local socket exactly when the client
      has or can open a session for it and it is not too long: the identity checks and the
      replay window never refuse it, and the session is the one of its service and source. */
  lemma DatagramHandedOnIff(t: UdpPath, c: Config, l: Limits, fd: Option<Socket>, now: nat)
    requires Reached(t, c, l) && t.downSeen < |t.down|
    ensures var d := t.down[t.downSeen]; var (y, k) := SessionFor(t, l, fd, now);
      && |d.peer.addr| == 16
      && (k < |y.udp| ==>
            && y.udp[k].Live? && y.udp[k].id == d.session && y.udp[k].peer == d.peer
            && y.udp[k].svc < |l.offers| && l.offers[y.udp[k].svc].id == d.service)
      && (Deliver(t.cli, l, d, fd, now).1 <==>
            k < |y.udp| && |d.payload| <= l.offers[y.udp[k].svc].maxDatagram)
  {
    ReachedInv(t, c, l);
    var d := t.down[t.downSeen];
    var (y, k) := SessionFor(t, l, fd, now);
    assert DownOk(t.orig, d);
    if k < |y.udp| {
      if First(t.cli.udp, WithId(d.session)) == |t.cli.udp| { CreatedKeeps(t, l, fd, now); }
      ReceiveIff(t.(cli := y), l, k, now);
      assert ClientSessionOk(t.(cli := y), l, y.udp[k]);
    }
  }

  // ----- toward the source -----

  /** A reply reaches the source exactly when the server still has its session and its
      number is above every number already received for that session; the session is the one
      of the reply's service and source. */
  lemma ReplyForwardedIff(t: UdpPath, c: Config, l: Limits, now: nat)
    requires Reached(t, c, l) && t.upSeen < |t.up|
    ensures var d := t.up[t.upSeen]; var k := First(t.srv.p.udp, WithUdpId(d.session));
      && |d.peer.addr| == 16
      && (k < |t.srv.p.udp| ==> t.srv.p.udp[k].peer == d.peer)
      && (UdpReply(t.srv, c.window, d, now).1 <==>
            k < |t.srv.p.udp| && d.sequence > Top(t.up[..t.upSeen], d.session))
  {
    ReachedInv(t, c, l);
    var d := t.up[t.upSeen];
    var k := First(t.srv.p.udp, WithUdpId(d.session));
    assert UpOk(t.orig, d);
    if k < |t.srv.p.udp| { RepliesIff(t, l, k, c.window); }
  }

  lemma {:induction false} TopIsLast(log: seq<Datagram>, id: u64)
    requires Consecutive(log)
    ensures Top(log, id) == Last(log, id)
    decreases |log|
  {
    if log != [] {
      var n := |log| - 1;
      PacedPrefix(log, n);
      TopIsLast(log[..n], id);
      assert InTurn(log, n);
    }
  }

  /** Every reply the client has ever sent would pass the replay check in its turn. */
  ghost predicate AllRise(log: seq<Datagram>)
  {
    forall i :: 0 <= i < |log| ==> Rises(log, i)
  }

  ghost predicate Rises(log: seq<Datagram>, i: nat)
    requires i < |log|
  {
    log[i].sequence > Top(log[..i], log[i].session)
  }

  lemma AllRiseIsConsecutive(log: seq<Datagram>)
    requires Paced(log)
    ensures AllRise(log) <==> Consecutive(log)
  {
    forall i | 0 <= i < |log| ensures Consecutive(log) ==> Rises(log, i) {
      PacedPrefix(log, i);
      if Consecutive(log) {
        TopIsLast(log[..i], log[i].session);
        assert InTurn(log, i);
      }
    }
    forall i | 0 <= i < |log| ensures Rises(log, i) ==> InTurn(log, i) {
      LastBelowTop(log[..i], log[i].session);
      assert InTurn(log, i) || log[i].sequence == 1;
    }
  }

  ghost predicate SentBefore(log: seq<Datagram>, id: u64) { exists i :: 0 <= i < |log| && log[i].session == id }

  lemma SentBeforeLast(log: seq<Datagram>, id: u64)
    requires log != []
    ensures SentBefore(log, id) <==> SentBefore(log[..|log| - 1], id) || log[|log| - 1].session == id
  {
    var init := log[..|log| - 1];
    if i :| 0 <= i < |init| && init[i].session == id { assert log[i].session == id; }
    if i :| 0 <= i < |log| && log[i].session == id && i < |log| - 1 { assert init[i].session == id; }
  }

  lemma {:induction false} TopIsZero(log: seq<Datagram>, id: u64)
    requires Paced(log)
    ensures Top(log, id) == 0 <==> !SentBefore(log, id)
    decreases |log|
  {
    if log != [] {
      var n := |log| - 1;
      PacedPrefix(log, n);
      SentBeforeLast(log, id);
      TopIsZero(log[..n], id);
      assert InTurn(log, n) || log[n].sequence == 1;
    }
  }

  lemma RisesAppend(log: seq<Datagram>, d: Datagram)
    ensures AllRise(log + [d]) <==> AllRise(log) && d.sequence > Top(log, d.session)
  {
    var more := log + [d];
    assert more[..|log|] == log;
    forall i | 0 <= i < |log| ensures Rises(more, i) <==> Rises(log, i) { assert more[..i] == log[..i]; }
    assert Rises(more, |log|) <==> d.sequence > Top(log, d.session);
  }

  /** The client is about to send a reply on a session it has just opened, although replies
      have gone out under the session's identifier before. */
  ghost predicate Afresh(t: UdpPath, l: Limits, e: Happening)
  {
    && e.Local? && e.slot < |t.cli.udp|
    && var u := t.cli.udp[e.slot];
    && Replying(l, u, e.lpayload) && u.tx == 0 && SentBefore(t.up, u.id)
  }

  ghost predicate NeverAfresh(t: UdpPath, c: Config, l: Limits, events: seq<Happening>)
    decreases |events|
  {
    events == [] ||
    var before := events[..|events| - 1];
    NeverAfresh(t, c, l, before) && !Afresh(Course(t, c, l, before), l, events[|events| - 1])
  }

  /** A reply numbered one above `tx`, which is zero or the last number of its session. */
  lemma OneMoreRises(log: seq<Datagram>, d: Datagram, tx: nat)
    requires Paced(log) && d.sequence == tx + 1 && (tx == 0 || tx == Last(log, d.session))
    ensures AllRise(log + [d]) <==> AllRise(log) && !(tx == 0 && SentBefore(log, d.session))
  {
    RisesAppend(log, d);
    TopIsZero(log, d.session);
    AllRiseIsConsecutive(log);
    if AllRise(log) { TopIsLast(log, d.session); }
  }

  /** One step more. */
  lemma ReplyRisesIff(t: UdpPath, c: Config, l: Limits, e: Happening)
    requires Inv(t, l) && |t.up| < U64_MAX
    ensures AllRise(Next(t, c, l, e).up) <==> AllRise(t.up) && !Afresh(t, l, e)
  {
    if e.Local? && e.slot < |t.cli.udp| && Replying(l, t.cli.udp[e.slot], e.lpayload) {
      var u := t.cli.udp[e.slot];
      assert ClientSessionOk(t, l, u);
      LastBound(t.up, u.id);
      OneMoreRises(t.up, Saying(l, u, e.lpayload), u.tx);
    } else {
      assert Next(t, c, l, e).up == t.up;
    }
  }

  /** Over any course, every reply passes the replay check in its turn if and only if the
      client never sends one on a session it has opened again, under an identifier it has
      replied under before. */
  lemma {:induction false} NoReplyRefusedIff(t: UdpPath, c: Config, l: Limits, events: seq<Happening>)
    requires Fresh(t) && |events| <= U64_MAX && !Course(t, c, l, events).srv.p.ids.wrapped
    ensures AllRise(Course(t, c, l, events).up) <==> NeverAfresh(t, c, l, events)
    decreases |events|
  {
    if events != [] {
      var before, e := events[..|events| - 1], events[|events| - 1];
      var u := Course(t, c, l, before);
      NextGrows(u, c, l, e);
      CourseKeeps(t, c, l, before);
      NoReplyRefusedIff(t, c, l, before);
      ReplyRisesIff(u, c, l, e);
    }
  }

  /** So while the client never does that, a reply is forwarded whenever the server still has
      its session. */
  lemma ForwardedUnlessAfresh(t: UdpPath, c: Config, l: Limits, events: seq<Happening>, now: nat)
    requires Fresh(t) && |events| <= U64_MAX && !Course(t, c, l, events).srv.p.ids.wrapped
    requires NeverAfresh(t, c, l, events)
    ensures var v := Course(t, c, l, events);
      v.upSeen < |v.up| ==>
        var d := v.up[v.upSeen];
        && |d.peer.addr| == 16
        && (UdpReply(v.srv, c.window, d, now).1 <==> First(v.srv.p.udp, WithUdpId(d.session)) < |v.srv.p.udp|)
  {
    var v := Course(t, c, l, events);
    NoReplyRefusedIff(t, c, l, events);
    if v.upSeen < |v.up| {
      ReplyForwardedIff(v, c, l, now);
      assert Rises(v.up, v.upSeen);
    }
  }

  // ----- order -----

  /** xs is ys with some elements left out. */
  predicate Subsequence<T(==)>(xs: seq<T>, ys: seq<T>)
    decreases |ys|
  {
    if ys == [] then xs == []
    else
      var n := |ys| - 1;
      Subsequence(xs, ys[..n]) || (xs != [] && xs[|xs| - 1] == ys[n] && Subsequence(xs[..|xs| - 1], ys[..n]))
  }

  lemma SubsequenceGrows<T>(xs: seq<T>, ys: seq<T>, n: nat)
    requires n < |ys| && Subsequence(xs, ys[..n])
    ensures Subsequence(xs, ys[..n + 1]) && Subsequence(xs + [ys[n]], ys[..n + 1])
  {
    assert ys[..n + 1][..n] == ys[..n];
    assert (xs + [ys[n]])[..|xs|] == xs;
  }

  // ----- what is handed on -----

  /** A payload for, or from, a source at a service. */
  datatype Parcel = Parcel(service: seq<byte>, peer: Endpoint, payload: seq<byte>)

  /** A payload that crossed a local socket of the client. */
  datatype Handed = Handed(fd: Socket, parcel: Parcel)

  /** What each end took in and what it handed on: datagrams the server forwarded, as they
      arrived; what the client gave to the socket of the session it used, for that session's
      own service and source; the replies read from a session's socket; and what the server
      sent, for the service and to the address of the session it used. */
  datatype Ledger = Ledger(asked: seq<Parcel>, heard: seq<Handed>, said: seq<Handed>, answered: seq<Parcel>)

  function Carried(d: Datagram): Parcel { Parcel(d.service, d.peer, d.payload) }

  function AtClient(l: Limits, u: Session, payload: seq<byte>): Handed
    requires u.Live? && u.svc < |l.offers|
  {
    Handed(u.fd, Parcel(l.offers[u.svc].id, u.peer, payload))
  }

  function AtServer(p: Peer, u: UdpSession, payload: seq<byte>): Parcel
    requires u.Active? && u.svc < |p.svcs|
  {
    Parcel(p.svcs[u.svc].id, u.peer, payload)
  }

  ghost function Asked(t: UdpPath, v: UdpPath, e: Happening): seq<Parcel>
    requires e.Outside?
  {
    if v.down != t.down && e.svc < |t.srv.p.svcs| then [Parcel(t.srv.p.svcs[e.svc].id, e.ep, e.opayload)] else []
  }

  ghost function Heard(t: UdpPath, l: Limits, e: Happening): seq<Handed>
    requires e.Down?
  {
    if t.downSeen >= |t.down| || |t.down[t.downSeen].peer.addr| != 16 || t.down[t.downSeen].direction != 0 then []
    else
      var d := t.down[t.downSeen];
      var (y, k) := SessionFor(t, l, e.fd, e.dnow);
      if k < |y.udp| && Receive(y, l, k, d, e.dnow).1 then [AtClient(l, y.udp[k], d.payload)] else []
  }

  ghost function Said(t: UdpPath, l: Limits, e: Happening): seq<Handed>
    requires e.Local?
  {
    if e.slot < |t.cli.udp| && Replying(l, t.cli.udp[e.slot], e.lpayload)
    then [AtClient(l, t.cli.udp[e.slot], e.lpayload)] else []
  }

  ghost function Answer(t: UdpPath, c: Config, e: Happening): seq<Parcel>
    requires e.Up?
  {
    if t.upSeen >= |t.up| || |t.up[t.upSeen].peer.addr| != 16 then []
    else
      var d := t.up[t.upSeen];
      var k := First(t.srv.p.udp, WithUdpId(d.session));
      if k < |t.srv.p.udp| && UdpReplies(t.srv.p, t.srv.p.udp[k], c.window, d)
      then [AtServer(t.srv.p, t.srv.p.udp[k], d.payload)] else []
  }

  /** An entry is made exactly when an end hands something on. */
  lemma EntriesAreActs(t: UdpPath, c: Config, l: Limits, e: Happening)
    ensures e.Down? && t.downSeen < |t.down| && |t.down[t.downSeen].peer.addr| == 16 ==>
      |Heard(t, l, e)| == if Deliver(t.cli, l, t.down[t.downSeen], e.fd, e.dnow).1 then 1 else 0
    ensures e.Up? && t.upSeen < |t.up| && |t.up[t.upSeen].peer.addr| == 16 ==>
      |Answer(t, c, e)| == if UdpReply(t.srv, c.window, t.up[t.upSeen], e.unow).1 then 1 else 0
  {
  }

  ghost function Entered(g: Ledger, t: UdpPath, c: Config, l: Limits, e: Happening): Ledger
  {
    var v := Next(t, c, l, e);
    match e
    case Outside(_, _, _, _) => g.(asked := g.asked + Asked(t, v, e))
    case Down(_, _) => g.(heard := g.heard + Heard(t, l, e))
    case Local(_, _, _) => g.(said := g.said + Said(t, l, e))
    case Up(_) => g.(answered := g.answered + Answer(t, c, e))
    case _ => g
  }

  ghost function Books(t: UdpPath, c: Config, l: Limits, events: seq<Happening>): Ledger
    decreases |events|
  {
    if events == [] then Ledger([], [], [], [])
    else
      var before := events[..|events| - 1];
      Entered(Books(t, c, l, before), Course(t, c, l, before), c, l, events[|events| - 1])
  }

  function Parcels(hs: seq<Handed>): seq<Parcel> { seq(|hs|, i requires 0 <= i < |hs| => hs[i].parcel) }

  // ----- it is what was taken in -----

  ghost predicate ServerLegal(u: UdpSession) { u.Active? ==> LegalEndpoint(u.peer) }
  ghost predicate ClientLegal(u: Session) { u.Live? ==> LegalEndpoint(u.peer) }

  /** Every endpoint anywhere is as it was decoded. */
  ghost predicate AllLegal(t: UdpPath)
  {
    && (forall i :: 0 <= i < |t.srv.p.udp| ==> ServerLegal(t.srv.p.udp[i]))
    && (forall i :: 0 <= i < |t.cli.udp| ==> ClientLegal(t.cli.udp[i]))
    && (forall i :: 0 <= i < |t.down| ==> LegalEndpoint(t.down[i].peer))
    && (forall i :: 0 <= i < |t.up| ==> LegalEndpoint(t.up[i].peer))
  }

  ghost predicate Matches(log: seq<Datagram>, ps: seq<Parcel>)
  {
    |log| == |ps| && forall i :: 0 <= i < |log| ==> Carried(log[i]) == ps[i]
  }

  /** What was sent is what was taken in, and what was handed on is part of what was
      received of it, in order. */
  ghost predicate InOrder(t: UdpPath, g: Ledger)
  {
    && AllLegal(t) && t.downSeen <= |t.down| && t.upSeen <= |t.up|
    && Matches(t.down, g.asked) && Subsequence(Parcels(g.heard), g.asked[..t.downSeen])
    && Matches(t.up, Parcels(g.said)) && Subsequence(g.answered, Parcels(g.said)[..t.upSeen])
  }

  lemma LegalOutside(t: UdpPath, svc: nat, ep: Endpoint, payload: seq<byte>, now: nat)
    requires AllLegal(t) && svc < |t.srv.p.svcs| && LegalEndpoint(ep)
    ensures AllLegal(FromOutside(t, svc, ep, payload, now))
  {
    var v := FromOutside(t, svc, ep, payload, now);
    forall i | 0 <= i < |v.srv.p.udp| ensures ServerLegal(v.srv.p.udp[i]) { assert ServerLegal(t.srv.p.udp[i]); }
  }

  lemma LegalDown(t: UdpPath, l: Limits, fd: Option<Socket>, now: nat)
    requires AllLegal(t) && t.downSeen < |t.down|
    ensures AllLegal(ToClient(t, l, fd, now))
    ensures var (y, k) := SessionFor(t, l, fd, now); k < |y.udp| ==> ClientLegal(y.udp[k])
  {
    var v := ToClient(t, l, fd, now);
    forall i | 0 <= i < |v.cli.udp| ensures ClientLegal(v.cli.udp[i]) { assert ClientLegal(t.cli.udp[i]); }
  }

  lemma LegalLocal(t: UdpPath, l: Limits, k: nat, payload: seq<byte>, now: nat)
    requires AllLegal(t) && k < |t.cli.udp|
    ensures AllLegal(FromLocalSocket(t, l, k, payload, now))
  {
    var v := FromLocalSocket(t, l, k, payload, now);
    assert ClientLegal(t.cli.udp[k]);
    forall i | 0 <= i < |v.cli.udp| ensures ClientLegal(v.cli.udp[i]) { assert ClientLegal(t.cli.udp[i]); }
  }

  lemma LegalUp(t: UdpPath, c: Config, now: nat)
    requires AllLegal(t) && t.upSeen < |t.up|
    ensures AllLegal(ToServer(t, c, now))
  {
    var v := ToServer(t, c, now);
    forall i | 0 <= i < |v.srv.p.udp| ensures ServerLegal(v.srv.p.udp[i]) { assert ServerLegal(t.srv.p.udp[i]); }
  }

  lemma LegalForgets(t: UdpPath, v: UdpPath)
    requires AllLegal(t) && v == t.(srv := v.srv, cli := v.cli)
    requires ServerForgot(t.srv, v.srv) && ClientForgot(t.cli, v.cli)
    ensures AllLegal(v)
  {
    forall i | 0 <= i < |v.cli.udp| ensures ClientLegal(v.cli.udp[i]) { assert ClientLegal(t.cli.udp[i]); }
    forall i | 0 <= i < |v.srv.p.udp| ensures ServerLegal(v.srv.p.udp[i]) { assert ServerLegal(t.srv.p.udp[i]); }
  }

  lemma OutsideInOrder(t: UdpPath, g: Ledger, c: Config, l: Limits, e: Happening)
    requires InOrder(t, g) && e.Outside?
    ensures InOrder(Next(t, c, l, e), Entered(g, t, c, l, e))
  {
    var v, h := Next(t, c, l, e), Entered(g, t, c, l, e);
    if e.svc < |t.srv.p.svcs| && LegalEndpoint(e.ep) {
      LegalOutside(t, e.svc, e.ep, e.opayload, e.onow);
      if v.down != t.down { assert |v.down| == |t.down| + 1; }
    }
    assert h.asked[..t.downSeen] == g.asked[..t.downSeen];
  }

  /** What the client hands on is what the server took in. */
  lemma HeardIsAsked(t: UdpPath, g: Ledger, l: Limits, e: Happening)
    requires InOrder(t, g) && e.Down? && t.downSeen < |t.down|
    ensures Heard(t, l, e) != [] ==> Heard(t, l, e)[0].parcel == g.asked[t.downSeen]
  {
    if Heard(t, l, e) != [] {
      var d := t.down[t.downSeen];
      var (y, k) := SessionFor(t, l, e.fd, e.dnow);
      LegalDown(t, l, e.fd, e.dnow);
      LegalSame(y.udp[k].peer, d.peer);
      assert Carried(d) == g.asked[t.downSeen];
    }
  }

  /** One more element of ys has been seen, and perhaps handed on. */
  lemma OneSeen<T>(xs: seq<T>, more: seq<T>, ys: seq<T>, n: nat)
    requires n < |ys| && Subsequence(xs, ys[..n]) && (more == [] || more == [ys[n]])
    ensures Subsequence(xs + more, ys[..n + 1])
  {
    SubsequenceGrows(xs, ys, n);
    assert xs + [] == xs;
  }

  lemma ParcelsConcat(hs: seq<Handed>, more: seq<Handed>)
    ensures Parcels(hs + more) == Parcels(hs) + Parcels(more)
  {
  }

  lemma DownInOrder(t: UdpPath, g: Ledger, c: Config, l: Limits, e: Happening)
    requires InOrder(t, g) && e.Down?
    ensures InOrder(Next(t, c, l, e), Entered(g, t, c, l, e))
  {
    if t.downSeen < |t.down| {
      var hs := Heard(t, l, e);
      assert |t.down[t.downSeen].peer.addr| == 16;
      HeardIsAsked(t, g, l, e);
      LegalDown(t, l, e.fd, e.dnow);
      assert Parcels(hs) == [] || Parcels(hs) == [g.asked[t.downSeen]];
      OneSeen(Parcels(g.heard), Parcels(hs), g.asked, t.downSeen);
      ParcelsConcat(g.heard, hs);
    } else {
      assert g.heard + Heard(t, l, e) == g.heard;
    }
  }

  lemma LocalInOrder(t: UdpPath, g: Ledger, c: Config, l: Limits, e: Happening)
    requires InOrder(t, g) && e.Local?
    ensures InOrder(Next(t, c, l, e), Entered(g, t, c, l, e))
  {
    var h := Entered(g, t, c, l, e);
    if e.slot < |t.cli.udp| {
      LegalLocal(t, l, e.slot, e.lpayload, e.lnow);
      ParcelsConcat(g.said, Said(t, l, e));
    }
    assert g.said + [] == g.said;
    assert Parcels(h.said)[..t.upSeen] == Parcels(g.said)[..t.upSeen];
  }

  /** What the server sends is what the client read. */
  lemma AnswerIsSaid(t: UdpPath, g: Ledger, c: Config, e: Happening)
    requires InOrder(t, g) && e.Up? && t.upSeen < |t.up|
    ensures Answer(t, c, e) != [] ==> Answer(t, c, e)[0] == Parcels(g.said)[t.upSeen]
  {
    if Answer(t, c, e) != [] {
      var d := t.up[t.upSeen];
      var u := t.srv.p.udp[First(t.srv.p.udp, WithUdpId(d.session))];
      assert ServerLegal(u);
      LegalSame(u.peer, d.peer);
      assert Carried(d) == Parcels(g.said)[t.upSeen];
    }
  }

  lemma UpInOrder(t: UdpPath, g: Ledger, c: Config, l: Limits, e: Happening)
    requires InOrder(t, g) && e.Up?
    ensures InOrder(Next(t, c, l, e), Entered(g, t, c, l, e))
  {
    if t.upSeen < |t.up| {
      var ps := Answer(t, c, e);
      assert |t.up[t.upSeen].peer.addr| == 16;
      AnswerIsSaid(t, g, c, e);
      LegalUp(t, c, e.unow);
      assert ps == [] || ps == [Parcels(g.said)[t.upSeen]];
      OneSeen(g.answered, ps, Parcels(g.said), t.upSeen);
    } else {
      assert g.answered + Answer(t, c, e) == g.answered;
    }
  }

  lemma SilentInOrder(t: UdpPath, g: Ledger, c: Config, l: Limits, e: Happening)
    requires InOrder(t, g) && (e.ServerExpires? || e.ClientExpires? || e.NewStream?)
    ensures InOrder(Next(t, c, l, e), g)
  {
    if e.ServerExpires? { ExpiryForgets(t.srv, e.snow, 0); }
    if e.ClientExpires? { ClientExpiryForgets(t.cli, l, e.cnow, 0); }
    if !e.NewStream? { LegalForgets(t, Next(t, c, l, e)); }
  }

  /** In both directions, and whatever either end forgets: each payload the client gives to a
      session's socket is one the server took from that session's very service and source,
      each payload the server sends to a session's source is one the client read from the
      socket of a session for that service and source, and none is reordered or repeated. */
  lemma {:induction false} DeliveredInOrder(t: UdpPath, c: Config, l: Limits, events: seq<Happening>)
    requires Fresh(t)
    ensures InOrder(Course(t, c, l, events), Books(t, c, l, events))
    decreases |events|
  {
    if events == [] {
      FreshInv(t, l);
      forall i | 0 <= i < |t.srv.p.udp| ensures t.srv.p.udp[i].Idle? { assert t.srv.p.udp[i] in t.srv.p.udp; }
      forall i | 0 <= i < |t.cli.udp| ensures t.cli.udp[i].Unused? { assert t.cli.udp[i] in t.cli.udp; }
    } else {
      var before, e := events[..|events| - 1], events[|events| - 1];
      DeliveredInOrder(t, c, l, before);
      var u, g := Course(t, c, l, before), Books(t, c, l, before);
      match e
      case Outside(_, _, _, _) => OutsideInOrder(u, g, c, l, e);
      case Down(_, _) => DownInOrder(u, g, c, l, e);
      case Local(_, _, _) => LocalInOrder(u, g, c, l, e);
      case Up(_) => UpInOrder(u, g, c, l, e);
      case _ => SilentInOrder(u, g, c, l, e);
    }
  }
}

/** What the client's operations do, told without their loops. */
module ClientOutcomes {
  import opened Bytes
  import opened Bags
  import opened UdpCodec
  import opened ServerSpec
  import opened ServerSockets
  import opened ClientSpec
  import opened ClientSafety

  /** A frame starts a relay, between the connected local socket and this very work
      connection, exactly when START was accepted, the service could be reached, fewer relays
      than slots are open and READY could be sent; otherwise the work connection is closed
      and the local socket does not stay. */
  lemma FrameStartsIff(l: Limits, x: Client, i: nat, broken: bool, started: bool,
                       local: Option<Socket>, ready: bool, stream: nat)
    requires Inv(l, x) && i < |x.work| && (local.Some? ==> NewSockets(x.os, [local.value]))
    ensures var y, fd := StartFrame(x, i, broken, started, local, ready, stream), x.work[i];
      && (!broken && started && local.Some? && ready && Sum(x.relays, IsOpen) < |x.relays| ==>
            && y.os.open == x.os.open + {local.value}
            && exists k :: 0 <= k < |x.relays| && x.relays[k].Closed?
                 && y.relays == x.relays[k := Open(local.value, fd, stream)])
      && (!(!broken && started && local.Some? && ready && Sum(x.relays, IsOpen) < |x.relays|) ==>
            y.relays == x.relays && y.os.open == x.os.open - {fd} && !y.os.fault)
  {
    FirstExists(x.relays, IsClosed, IsOpen);
    var fd := x.work[i];
    assert OwnedOnce(x, fd);
    CountMember(x.work, fd);
    assert Owners(x, fd) >= 1 && fd in x.os.open;
    if local.Some? { assert [local.value][0] !in x.os.open; }
  }

  /** A session is opened exactly for a configured UDP service, while the live sessions of all
      services together are below its limit and a socket can be opened. */
  lemma SessionOpenedIff(l: Limits, x: Client, d: Datagram, fd: Option<Socket>, now: nat)
    requires Inv(l, x)
    ensures var (y, k) := CreateSession(x, l, d, fd, now);
      k < |x.udp| <==>
        fd.Some? && (exists v :: 0 <= v < |l.offers| && FirstOffer(l, d.service, v)
                                 && l.offers[v].udp && Sum(x.udp, IsLive) < l.offers[v].udpMax)
  {
    UnusedExists(x.udp);
    var v := First(l.offers, Serves(d.service));
    if v < |l.offers| { FirstOfferIs(l, d.service, v); }
    if w :| 0 <= w < |l.offers| && FirstOffer(l, d.service, w) {
      FirstIs(l.offers, Serves(d.service), w);
    }
  }

  /** Service v is the first configured one of this name. */
  ghost predicate FirstOffer(l: Limits, id: seq<byte>, v: nat)
  {
    v < |l.offers| && l.offers[v].id == id && forall u :: 0 <= u < v ==> l.offers[u].id != id
  }

  lemma FirstOfferIs(l: Limits, id: seq<byte>, v: nat)
    requires v == First(l.offers, Serves(id)) < |l.offers|
    ensures FirstOffer(l, id, v)
  {
    forall u | 0 <= u < v ensures l.offers[u].id != id { BeforeFirst(l.offers, Serves(id), u); }
  }

  /** Exactly the overdue sessions are closed, each in its place. */
  lemma {:induction false} ExpireCloses(x: Client, l: Limits, now: nat, j: nat, k: nat)
    requires k < |x.udp|
    ensures |ExpireSessions(x, l, now, j).udp| == |x.udp|
    ensures ExpireSessions(x, l, now, j).udp[k]
         == if k >= j && Overdue(l, x.udp[k], now) then Unused else x.udp[k]
    decreases |x.udp| - j
  {
    if j < |x.udp| {
      ExpireCloses(if Overdue(l, x.udp[j], now) then DropSession(x, j) else x, l, now, j + 1, k);
    }
  }
}

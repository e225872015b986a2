/** The server over whole runs: ownership of sockets, the quota and what follows from it,
    disjoint listeners, exact gauges, unique UDP sessions, and an empty socket table after
    shutdown. */
module ServerSafety {
  import opened Bags
  import opened Metrics
  import opened ServerSpec
  import opened ServerSockets
  import opened ServerTables
  import opened ServerInvariants

  /** The configuration is valid and the control listeners are bound. */
  ghost predicate Started(c: Config, control: seq<Listener>)
  {
    ConfigOk(c) && control != [] && ListenSet(c.bindAddr, control) && NewSockets(Os({}, false), Fds(control))
  }

  /** Some run of the server from its start ends in s. */
  ghost predicate Reachable(c: Config, s: State)
  {
    exists control, events :: Started(c, control) && s == Run(Boot(c, control), c, events)
  }

  lemma BootInv(c: Config, control: seq<Listener>)
    requires Started(c, control)
    ensures Inv(c, Boot(c, control))
  {
    var s := Boot(c, control);
    VacantOk(c, Vacant(c));
    forall p | p in s.peers ensures PendingOf(p) == 0 && IdleOf(p) == 0 && SessionsOf(p) == 0 {
      SumZero(Vacant(c).udp, IsActive);
    }
    SumZero(s.peers, PendingOf);
    SumZero(s.peers, IdleOf);
    SumZero(s.peers, SessionsOf);
    forall f: Socket ensures OwnedOnce(s, f) {
      CountDistinct(Fds(control), f);
      forall p | p in s.peers ensures PeerIs(f)(p) == 0 { VacantOwns(c, f); }
      SumZero(s.peers, PeerIs(f));
    }
  }

  lemma {:induction false} RunInv(c: Config, control: seq<Listener>, events: seq<Event>)
    requires Started(c, control)
    ensures Inv(c, Run(Boot(c, control), c, events))
    decreases |events|
  {
    if events == [] {
      BootInv(c, control);
    } else {
      var init := events[..|events| - 1];
      RunInv(c, control, init);
      StepKeeps(c, Run(Boot(c, control), c, init), events[|events| - 1]);
    }
  }

  lemma ReachableInv(c: Config, s: State)
    requires Reachable(c, s)
    ensures Inv(c, s)
  {
    var control, events :| Started(c, control) && s == Run(Boot(c, control), c, events);
    RunInv(c, control, events);
  }

  // ----- ownership -----

  /** In every reachable state each open socket has exactly one owner among the control
      listeners, the incoming connections and the peers' control connections, listeners,
      UDP sockets, idle work connections, pending streams, starting streams and open
      relays; a socket that is not open has none; and nothing was closed twice. */
  lemma EverySocketHasOneOwner(c: Config, s: State, f: Socket)
    requires Reachable(c, s)
    ensures !s.os.fault
    ensures Owners(s, f) == if f in s.os.open then 1 else 0
  {
    ReachableInv(c, s);
    assert OwnedOnce(s, f);
  }

  ghost predicate ClosedUpTo(c: Config, s: State, i: nat)
  {
    i <= |s.peers| && forall k :: 0 <= k < i ==> !s.peers[k].active
  }

  lemma {:induction false} CloseEveryPeerKeeps(c: Config, s: State, i: nat)
    requires Inv(c, s) && ClosedUpTo(c, s, i)
    ensures var t := CloseEveryPeer(s, c, i); Inv(c, t) && ClosedUpTo(c, t, |t.peers|)
    decreases |s.peers| - i
  {
    if i < |s.peers| {
      LoseStep(c, s, i);
      CloseEveryPeerKeeps(c, With(s, i, PeerClose(Of(s, i), c)), i + 1);
    }
  }

  lemma {:induction false} DropEveryIncomingKeeps(c: Config, s: State)
    requires Inv(c, s)
    ensures var t := DropEveryIncoming(s); Inv(c, t) && t.incoming == [] && t.peers == s.peers
    decreases |s.incoming|
  {
    if s.incoming != [] {
      DropIncomingStep(c, s, 0);
      DropEveryIncomingKeeps(c, DropIncoming(s, 0));
    }
  }

  lemma OnlyControl(c: Config, s: State, f: Socket)
    requires Inv(c, s) && s.incoming == [] && ClosedUpTo(c, s, |s.peers|)
    ensures B(f in s.os.open) == Count(Fds(s.control), f)
  {
    assert OwnedOnce(s, f);
    forall p | p in s.peers ensures PeerIs(f)(p) == 0 {
      var k :| 0 <= k < |s.peers| && s.peers[k] == p;
      assert PeerOk(c, s.peers[k]);
      BlankOwns(p, f);
    }
    SumZero(s.peers, PeerIs(f));
  }

  /** When the loop exits, from whatever state, every socket the server opened is closed
      and none was closed twice. */
  lemma ShutdownLeavesNothing(c: Config, s: State)
    requires Reachable(c, s)
    ensures Shutdown(s, c).os == Os({}, false)
  {
    ReachableInv(c, s);
    CloseEveryPeerKeeps(c, s, 0);
    var a := CloseEveryPeer(s, c, 0);
    DropEveryIncomingKeeps(c, a);
    var b := DropEveryIncoming(a);
    forall f: Socket ensures Has(b.os, Fds(b.control), f) { OnlyControl(c, b, f); }
    var z := CloseAll(b.os, Fds(b.control));
    CloseAllIs(b.os, Fds(b.control), 0);
    forall f: Socket ensures f !in z.open { OnlyControl(c, b, f); CloseAllIs(b.os, Fds(b.control), f); }
    assert z.open == {};
  }

  // ----- the quota and what follows -----

  /** Pending, starting and relayed streams of a peer never exceed the smaller of its own
      and the server's limit. */
  lemma QuotaHolds(c: Config, s: State, i: nat)
    requires Reachable(c, s) && i < |s.peers|
    ensures var p := s.peers[i];
      |p.pending| + |p.starting| + Sum(p.relays, IsOpen) <= StreamLimit(c, p.auth)
    ensures StreamLimit(c, s.peers[i].auth) <= c.maxStreams <= c.compiledStreams == |s.peers[i].relays|
  {
    ReachableInv(c, s);
    assert PeerOk(c, s.peers[i]);
  }

  /** READY on any starting stream always finds a closed slot, so it never closes anything. */
  lemma ReadyAlwaysStarts(c: Config, s: State, i: nat, k: nat)
    requires Reachable(c, s) && i < |s.peers| && k < |s.peers[i].starting|
    ensures var x, t := s.peers[i].starting[k], FinishStarting(Of(s, i), k, true);
      && t.os == s.os
      && Sum(t.p.relays, IsOpen) == Sum(s.peers[i].relays, IsOpen) + 1
      && Open(x.pending.fd, x.work, x.id) in t.p.relays
  {
    ReachableInv(c, s);
    assert PeerOk(c, s.peers[i]);
    StartingFindsSlot(c, Of(s, i), k);
    var j, x := FreeSlot(s.peers[i].relays), s.peers[i].starting[k];
    SumUpdate(s.peers[i].relays, j, Open(x.pending.fd, x.work, x.id), IsOpen);
    assert FinishStarting(Of(s, i), k, true).p.relays[j] == Open(x.pending.fd, x.work, x.id);
  }

  /** One entry of the event table per socket, except that `waits` may hold back sockets
      whose next read was put off. */
  function ServiceRefs(s: Service): nat { |s.listeners| + |s.udpFds| }
  function StartingRef(waits: set<Socket>): Starting -> nat { (x: Starting) => B(x.work !in waits) }
  function IncomingRef(waits: set<Socket>): Incoming -> nat { (x: Incoming) => B(x.fd !in waits) }

  function PeerRefs(waits: set<Socket>): Peer -> nat
  {
    (p: Peer) =>
      if p.active then
        B(p.fd !in waits) + Sum(p.svcs, ServiceRefs) + Sum(p.starting, StartingRef(waits)) + 2 * Sum(p.relays, IsOpen)
      else 0
  }

  function Refs(s: State, waits: set<Socket>): nat
  {
    |s.control| + Sum(s.incoming, IncomingRef(waits)) + Sum(s.peers, PeerRefs(waits))
  }

  function PeerCapacity(c: Config): nat { 1 + 2 * c.compiledServices + c.compiledPending + 2 * c.compiledStreams }
  function EventCapacity(c: Config): nat { 2 + c.maxIncoming + c.compiledClients * PeerCapacity(c) }

  lemma PeerRefsFit(c: Config, p: Peer, waits: set<Socket>)
    requires ConfigOk(c) && PeerOk(c, p)
    ensures PeerRefs(waits)(p) <= PeerCapacity(c)
  {
    forall s | s in p.svcs ensures ServiceRefs(s) <= 2 {
      var k :| 0 <= k < |p.svcs| && p.svcs[k] == s;
      assert Allowed(p.auth, p.svcs[k]);
    }
    SumBound(p.svcs, ServiceRefs, 2);
    SumBound(p.starting, StartingRef(waits), 1);
    SumBound(p.relays, IsOpen, 1);
  }

  /** Rebuilding the event table never writes past its end. */
  lemma RefsFit(c: Config, s: State, waits: set<Socket>)
    requires Reachable(c, s)
    ensures Refs(s, waits) <= EventCapacity(c)
  {
    ReachableInv(c, s);
    SumBound(s.incoming, IncomingRef(waits), 1);
    forall p | p in s.peers ensures PeerRefs(waits)(p) <= PeerCapacity(c) {
      var k :| 0 <= k < |s.peers| && s.peers[k] == p;
      PeerRefsFit(c, s.peers[k], waits);
    }
    SumBound(s.peers, PeerRefs(waits), PeerCapacity(c));
  }

  /** No step ends with a peer holding both a pending stream and an idle work connection,
      if the peer's limit is at most the size of the starting table. */
  lemma NoMutualWait(c: Config, s: State, i: nat)
    requires Reachable(c, s) && i < |s.peers| && StreamLimit(c, s.peers[i].auth) <= c.compiledPending
    ensures s.peers[i].pending == [] || s.peers[i].work == []
  {
    ReachableInv(c, s);
    assert PeerOk(c, s.peers[i]);
  }

  /** No address has three connections waiting to be authenticated. */
  lemma TwoPerAddress(c: Config, s: State, i: nat, j: nat, k: nat)
    requires Reachable(c, s) && i < j < k < |s.incoming|
    ensures !(s.incoming[i].remote == s.incoming[j].remote == s.incoming[k].remote)
  {
    ReachableInv(c, s);
    var remote := s.incoming[k].remote;
    assert CountRemote(s.incoming, remote) <= 2;
    TwoCount(s.incoming[..k], IsFrom(remote), i, j);
    assert s.incoming[..k] + s.incoming[k..] == s.incoming;
    SumConcat(s.incoming[..k], s.incoming[k..], IsFrom(remote));
    SumFirst(s.incoming[k..], IsFrom(remote));
  }

  // ----- listeners and services -----

  /** Two different listeners of services, of one peer or of two, never overlap. */
  lemma ListenersNeverOverlap(c: Config, s: State, i: nat, k: nat, a: nat, j: nat, l: nat, b: nat)
    requires Reachable(c, s) && i < |s.peers| && j < |s.peers|
    requires k < |s.peers[i].svcs| && l < |s.peers[j].svcs|
    requires a < |s.peers[i].svcs[k].listeners| && b < |s.peers[j].svcs[l].listeners|
    requires (i, k, a) != (j, l, b)
    ensures !Overlap(s.peers[i].svcs[k].listeners[a].at, s.peers[j].svcs[l].listeners[b].at)
  {
    ReachableInv(c, s);
    var u, v := s.peers[i].svcs, s.peers[j].svcs;
    if i != j {
      assert ClearOf(u, v);
      assert Clear(u[k].listeners, v);
      assert !OverlapsAny(u[k].listeners, v[l].listeners);
    } else {
      assert InnerClear(u);
      if k == l {
        assert Single(u[k].listeners);
      } else if k < l {
        assert !OverlapsAny(u[l].listeners, u[k].listeners);
        OverlapSymmetric(u[l].listeners, u[k].listeners);
      } else {
        assert !OverlapsAny(u[k].listeners, u[l].listeners);
      }
    }
  }

  /** No service listener overlaps a control listener. */
  lemma ControlNeverOverlapped(c: Config, s: State, i: nat, k: nat, a: nat, b: nat)
    requires Reachable(c, s) && i < |s.peers| && k < |s.peers[i].svcs|
    requires a < |s.control| && b < |s.peers[i].svcs[k].listeners|
    ensures !Overlap(s.control[a].at, s.peers[i].svcs[k].listeners[b].at)
  {
    ReachableInv(c, s);
    assert Clear(s.control, s.peers[i].svcs);
    assert !OverlapsAny(s.control, s.peers[i].svcs[k].listeners);
  }

  /** Every registered service is allowed by its owner's access list, carries an id of its
      own, and fits both limits on services. */
  lemma ServicesAreAllowed(c: Config, s: State, i: nat, k: nat)
    requires Reachable(c, s) && i < |s.peers| && k < |s.peers[i].svcs|
    ensures var p := s.peers[i];
      && Authorized(p.auth, p.svcs[k].addr, p.svcs[k].port)
      && (p.auth.allowAddr == "*" || p.auth.allowAddr == p.svcs[k].addr)
      && (exists r :: r in p.auth.ports && r.0 <= p.svcs[k].port <= r.1)
      && (forall l :: 0 <= l < |p.svcs| && l != k ==> p.svcs[l].id != p.svcs[k].id)
      && |p.svcs| <= p.auth.maxServices && |p.svcs| <= c.maxServices
  {
    ReachableInv(c, s);
    assert PeerOk(c, s.peers[i]);
    assert Allowed(s.peers[i].auth, s.peers[i].svcs[k]);
  }

  // ----- gauges and sessions -----

  /** Each gauge equals the summed lengths of the tables it summarises. */
  lemma GaugesAreExact(c: Config, s: State)
    requires Reachable(c, s)
    ensures s.m[PENDING_STREAMS] == Sum(s.peers, PendingOf)
    ensures s.m[WORK_IDLE] == Sum(s.peers, IdleOf)
    ensures s.m[UDP_ACTIVE] == Sum(s.peers, SessionsOf)
  {
    ReachableInv(c, s);
  }

  /** At most one active session per service and source endpoint. */
  lemma OneSessionPerSource(c: Config, s: State, i: nat, a: nat, b: nat)
    requires Reachable(c, s) && i < |s.peers| && a < |s.peers[i].udp| && b < |s.peers[i].udp| && a != b
    ensures var u, v := s.peers[i].udp[a], s.peers[i].udp[b];
      !(u.Active? && v.Active? && u.svc == v.svc && SameSource(u.peer, v.peer))
  {
    ReachableInv(c, s);
    assert PeerOk(c, s.peers[i]);
    assert !Clash(s.peers[i].udp[if a < b then a else b], s.peers[i].udp[if a < b then b else a]);
  }

  /** Each service stays within its limit on sessions, and each session belongs to a
      registered service. */
  lemma SessionLimitHolds(c: Config, s: State, i: nat, k: nat)
    requires Reachable(c, s) && i < |s.peers| && k < |s.peers[i].svcs|
    ensures Sum(s.peers[i].udp, OfService(k)) <= s.peers[i].svcs[k].udpMax
    ensures forall x :: x in s.peers[i].udp && x.Active? ==> x.svc < |s.peers[i].svcs|
  {
    ReachableInv(c, s);
    assert PeerOk(c, s.peers[i]);
  }

  /** Until a peer has used up 2^64 identifiers, its streams and sessions carry different ones. */
  lemma IdsAreDistinct(c: Config, s: State, i: nat, id: nat)
    requires Reachable(c, s) && i < |s.peers| && !s.peers[i].ids.wrapped
    ensures IdCount(s.peers[i], id) <= 1
    ensures IdCount(s.peers[i], id) == 1 ==> 1 <= id <= s.peers[i].ids.next
  {
    ReachableInv(c, s);
    assert PeerOk(c, s.peers[i]);
    assert IdOnce(s.peers[i], id);
  }
}

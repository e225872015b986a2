/** What the server's operations do, told without their loops: which streams are paired with
    which work connections, exactly what expires, and exactly when something is admitted. */
module ServerOutcomes {
  import opened Bags
  import opened Metrics
  import opened ServerSpec
  import opened ServerSockets
  import opened ServerTables
  import opened ServerInvariants

  // ----- matching -----

  /** The first k pending streams and the last k idle work connections are gone. */
  ghost predicate Shifted(p: Peer, q: Peer, k: nat)
  {
    && k <= |p.pending| && k <= |p.work|
    && q.pending == p.pending[k..] && q.work == p.work[..|p.work| - k]
  }

  /** The j-th oldest stream started on the j-th newest work connection. */
  ghost predicate Paired(p: Peer, q: Peer, j: nat)
    requires j < |p.pending| && j < |p.work| && |p.starting| + j < |q.starting|
  {
    var s := q.starting[|p.starting| + j];
    s.pending == p.pending[j] && s.work == p.work[|p.work| - 1 - j]
  }

  /** match_pending takes streams oldest first and work connections newest first, and stops
      only when one queue is empty or the starting table is full. */
  lemma {:induction false} MatchTakes(x: Ps, c: Config, now: nat, sends: seq<bool>) returns (k: nat)
    ensures var y := Match(x, c, now, sends); Shifted(x.p, y.p, k) && !CanMatch(y.p, c)
    decreases |x.p.pending|
  {
    if CanMatch(x.p, c) {
      var y := MatchOne(x, c, now, sends == [] || sends[0]);
      var n := MatchTakes(y, c, now, if sends == [] then [] else sends[1..]);
      k := n + 1;
      assert y.p.pending[n..] == x.p.pending[k..];
      assert y.p.work[..|y.p.work| - n] == x.p.work[..|x.p.work| - k];
    } else {
      k := 0;
    }
  }

  /** k more streams have started, in order. */
  ghost predicate Started(p: Peer, q: Peer, k: nat)
  {
    && Shifted(p, q, k) && |q.starting| == |p.starting| + k && q.starting[..|p.starting|] == p.starting
    && forall j :: 0 <= j < k ==> Paired(p, q, j)
  }

  lemma OneMoreStarted(x: Ps, c: Config, now: nat, z: Peer, k: nat)
    requires x.p.pending != [] && x.p.work != [] && Started(MatchOne(x, c, now, true).p, z, k)
    ensures Started(x.p, z, k + 1)
  {
    var p, q, n := x.p, MatchOne(x, c, now, true).p, |x.p.starting|;
    assert q.pending[k..] == p.pending[k + 1..];
    assert q.work[..|q.work| - k] == p.work[..|p.work| - (k + 1)];
    assert z.starting[..n] == z.starting[..n + 1][..n] == p.starting;
    assert z.starting[n] == z.starting[..n + 1][n] == q.starting[n];
    forall j | 0 <= j < k + 1 ensures Paired(p, z, j) {
      if j > 0 { assert Paired(q, z, j - 1); }
    }
  }

  /** If every START can be sent, as many streams start as both queues and the table allow,
      each on its own work connection. */
  lemma {:induction false} MatchStarts(x: Ps, c: Config, now: nat)
    requires |x.p.starting| <= c.compiledPending
    ensures Started(x.p, Match(x, c, now, []).p, Room(x.p, c))
    decreases |x.p.pending|
  {
    if CanMatch(x.p, c) {
      var y := MatchOne(x, c, now, true);
      MatchStarts(y, c, now);
      OneMoreStarted(x, c, now, Match(y, c, now, []).p, Room(y.p, c));
    }
  }

  function Room(p: Peer, c: Config): nat
    requires |p.starting| <= c.compiledPending
  {
    var a := if |p.pending| < |p.work| then |p.pending| else |p.work|;
    if a < c.compiledPending - |p.starting| then a else c.compiledPending - |p.starting|
  }

  // ----- expiry -----

  ghost function Equals<T>(e: T): T -> nat { (y: T) => if y == e then 1 else 0 }

  /** How often e occurs. */
  ghost function Often<T>(xs: seq<T>, e: T): nat { Sum(xs, Equals(e)) }

  /** Exactly the overdue pending streams are dropped, whatever the order of the rest. */
  lemma {:induction false} ExpirePendingDrops(x: Ps, now: nat, j: nat, e: Pending)
    requires j <= |x.p.pending| && forall i :: 0 <= i < j ==> x.p.pending[i].deadline >= now
    ensures Often(ExpirePending(x, now, j).p.pending, e)
         == if e.deadline < now then 0 else Often(x.p.pending, e)
    decreases |x.p.pending| - j
  {
    if j < |x.p.pending| {
      if x.p.pending[j].deadline < now {
        SumSwapRemove(x.p.pending, j, Equals(e));
        ExpirePendingDrops(ExpireOne(x, j), now, j, e);
      } else {
        ExpirePendingDrops(x, now, j + 1, e);
      }
    } else if e.deadline < now {
      SumZero(x.p.pending, Equals(e));
    }
  }

  lemma {:induction false} ExpireStartingDrops(x: Ps, now: nat, j: nat, e: Starting)
    requires j <= |x.p.starting| && forall i :: 0 <= i < j ==> x.p.starting[i].deadline > now
    ensures Often(ExpireStarting(x, now, j).p.starting, e)
         == if e.deadline <= now then 0 else Often(x.p.starting, e)
    decreases |x.p.starting| - j
  {
    if j < |x.p.starting| {
      if x.p.starting[j].deadline <= now {
        SumSwapRemove(x.p.starting, j, Equals(e));
        var y := DropStarting(x, j);
        ExpireStartingDrops(y.(m := Inc(y.m, STREAMS_FAILED)), now, j, e);
      } else {
        ExpireStartingDrops(x, now, j + 1, e);
      }
    } else if e.deadline <= now {
      SumZero(x.p.starting, Equals(e));
    }
  }

  lemma {:induction false} ExpireIncomingDrops(s: State, now: nat, j: nat, e: Incoming)
    requires j <= |s.incoming| && forall i :: 0 <= i < j ==> s.incoming[i].deadline > now
    ensures Often(ExpireFrom(s, now, j).incoming, e)
         == if e.deadline <= now then 0 else Often(s.incoming, e)
    decreases |s.incoming| - j
  {
    if j < |s.incoming| {
      if s.incoming[j].deadline <= now {
        SumSwapRemove(s.incoming, j, Equals(e));
        ExpireIncomingDrops(DropIncoming(s, j), now, j, e);
      } else {
        ExpireIncomingDrops(s, now, j + 1, e);
      }
    } else if e.deadline <= now {
      SumZero(s.incoming, Equals(e));
    }
  }

  /** Exactly the idle UDP sessions are freed, each in its place. */
  lemma {:induction false} UdpExpireFrees(x: Ps, now: nat, j: nat, k: nat)
    requires k < |x.p.udp|
    ensures |UdpExpire(x, now, j).p.udp| == |x.p.udp|
    ensures UdpExpire(x, now, j).p.udp[k]
         == if k >= j && UdpExpired(x.p, x.p.udp[k], now) then Idle else x.p.udp[k]
    decreases |x.p.udp| - j
  {
    if j < |x.p.udp| {
      var y := if UdpExpired(x.p, x.p.udp[j], now)
        then x.(p := x.p.(udp := x.p.udp[j := Idle]), m := Dec(x.m, UDP_ACTIVE)) else x;
      UdpExpireFrees(y, now, j + 1, k);
    }
  }

  // ----- admission -----

  /** A public connection is kept exactly when its endpoints are known, the pending queue is
      below its limit and the peer below its quota; a refused one leaves no trace. */
  lemma ConnectionKeptIff(c: Config, x: Ps, fd: Socket, svc: nat, ok: bool, now: nat, sends: seq<bool>)
    requires ConfigOk(c) && PeerOk(c, x.p) && !x.os.fault && NewSockets(x.os, [fd])
    ensures var y := AddPending(x, c, fd, svc, ok, now, sends);
      if ok && |x.p.pending| < c.maxPending && ActiveStreams(x.p) < StreamLimit(c, x.p.auth)
      then y == Match(Ps(x.p.(pending := x.p.pending + [Pending(fd, svc, now + c.connectMs)]),
                         Opened(x.os, [fd]), Inc(x.m, PENDING_STREAMS)), c, now, sends)
      else y == x
  {
    OpenedOneIs(x.os, fd, fd);
  }

  /** A control connection is kept exactly below the table's size and two per address. */
  lemma AcceptedIff(c: Config, s: State, fd: Socket, remote: string, now: nat)
    requires Inv(c, s) && NewSockets(s.os, [fd])
    ensures var t := Accepted(s, c, fd, remote, now);
      if |s.incoming| < c.maxIncoming && CountRemote(s.incoming, remote) < 2
      then t.incoming == s.incoming + [Incoming(fd, false, now + c.handshakeMs, remote)]
           && t.os.open == s.os.open + {fd}
      else t == s
  {
    OpenedOneIs(s.os, fd, fd);
  }

  /** An authenticated client gets a slot exactly when one below the runtime limit is free. */
  lemma FreePeerIff(ps: seq<Peer>, most: nat)
    ensures FreePeer(ps, most) < |ps| <==> exists i :: 0 <= i < |ps| && i < most && !ps[i].active
  {
    var n := if most < |ps| then most else |ps|;
    if i :| 0 <= i < n && !ps[i].active {
      assert IsInactive(ps[..n][i]);
      if First(ps[..n], IsInactive) == n { NotFound(ps[..n], IsInactive, i); }
    }
  }
}

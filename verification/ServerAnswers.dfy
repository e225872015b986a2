/** What each event of the server does, told from outside: when it lets something in, what it
    hands over, what it refuses and what it leaves alone. */
module ServerAnswers {
  import opened Bytes
  import opened Bags
  import opened Metrics
  import opened ServerSpec
  import opened ServerSockets
  import opened ServerTables
  import opened ServerInvariants
  import opened ServerOutcomes

  // ----- matching, for any outcomes of START -----

  /** START of the j-th turn could be sent. */
  predicate SentAt(sends: seq<bool>, j: nat) { j < |sends| ==> sends[j] }

  /** How many of the first k turns started a stream. */
  function Starts(sends: seq<bool>, k: nat): nat
  {
    if k == 0 then 0 else Starts(sends, k - 1) + B(SentAt(sends, k - 1))
  }

  function IdsAfter(ids: Counter, k: nat): Counter
  {
    if k == 0 then ids else NextId(IdsAfter(ids, k - 1))
  }

  /** The j-th oldest stream started on the j-th newest work connection, under the next
      identifier and with a fresh deadline. */
  ghost predicate TurnStarted(p: Peer, q: Peer, c: Config, now: nat, sends: seq<bool>, j: nat)
    requires j < |p.pending| && j < |p.work|
  {
    var n := |p.starting| + Starts(sends, j);
    n < |q.starting|
    && q.starting[n] == Starting(p.pending[j], p.work[|p.work| - 1 - j], IdsAfter(p.ids, j + 1).next, now + c.connectMs)
  }

  /** k turns were taken; those whose START could not be sent only used up their two
      connections and an identifier. */
  ghost predicate Turns(p: Peer, q: Peer, c: Config, now: nat, sends: seq<bool>, k: nat)
  {
    && k <= |p.pending| && k <= |p.work|
    && q == p.(pending := p.pending[k..], work := p.work[..|p.work| - k], starting := q.starting,
               ids := IdsAfter(p.ids, k))
    && |q.starting| == |p.starting| + Starts(sends, k) && q.starting[..|p.starting|] == p.starting
    && forall j :: 0 <= j < k && SentAt(sends, j) ==> TurnStarted(p, q, c, now, sends, j)
  }

  function Rest(sends: seq<bool>): seq<bool> { if sends == [] then [] else sends[1..] }

  lemma {:induction false} StartsShift(sends: seq<bool>, k: nat)
    ensures Starts(sends, k + 1) == B(SentAt(sends, 0)) + Starts(Rest(sends), k)
  {
    if k > 0 {
      StartsShift(sends, k - 1);
      assert SentAt(sends, k) == SentAt(Rest(sends), k - 1);
    } else {
      assert Starts(sends, 1) == Starts(sends, 0) + B(SentAt(sends, 0));
    }
  }

  lemma {:induction false} IdsShift(ids: Counter, k: nat)
    ensures IdsAfter(ids, k + 1) == IdsAfter(NextId(ids), k)
  {
    if k > 0 { IdsShift(ids, k - 1); } else { assert IdsAfter(ids, 1) == NextId(IdsAfter(ids, 0)); }
  }

  lemma OneTurnLater(x: Ps, z: Peer, c: Config, now: nat, sends: seq<bool>, k: nat, j: nat)
    requires x.p.pending != [] && x.p.work != [] && 0 < j < k + 1 && SentAt(sends, j)
    requires Turns(MatchOne(x, c, now, SentAt(sends, 0)).p, z, c, now, Rest(sends), k)
    ensures TurnStarted(x.p, z, c, now, sends, j)
  {
    StartsShift(sends, j - 1);
    IdsShift(x.p.ids, j);
    assert SentAt(Rest(sends), j - 1);
    assert TurnStarted(MatchOne(x, c, now, SentAt(sends, 0)).p, z, c, now, Rest(sends), j - 1);
  }

  lemma OneTurnNow(x: Ps, z: Peer, c: Config, now: nat, sends: seq<bool>, k: nat)
    requires x.p.pending != [] && x.p.work != [] && SentAt(sends, 0)
    requires Turns(MatchOne(x, c, now, true).p, z, c, now, Rest(sends), k)
    ensures TurnStarted(x.p, z, c, now, sends, 0)
  {
    var p, q, n := x.p, MatchOne(x, c, now, true).p, |x.p.starting|;
    assert z.starting[n] == z.starting[..|q.starting|][n];
    assert Starts(sends, 0) == 0 && IdsAfter(p.ids, 1) == NextId(IdsAfter(p.ids, 0));
  }

  lemma OneTurn(x: Ps, z: Peer, c: Config, now: nat, sends: seq<bool>, k: nat)
    requires x.p.pending != [] && x.p.work != []
    requires Turns(MatchOne(x, c, now, SentAt(sends, 0)).p, z, c, now, Rest(sends), k)
    ensures Turns(x.p, z, c, now, sends, k + 1)
  {
    var p, q, n := x.p, MatchOne(x, c, now, SentAt(sends, 0)).p, |x.p.starting|;
    assert q.pending[k..] == p.pending[k + 1..];
    assert q.work[..|q.work| - k] == p.work[..|p.work| - (k + 1)];
    StartsShift(sends, k);
    IdsShift(p.ids, k);
    assert z.starting[..n] == z.starting[..|q.starting|][..n];
    forall j | 0 <= j < k + 1 && SentAt(sends, j) ensures TurnStarted(p, z, c, now, sends, j) {
      if j == 0 { OneTurnNow(x, z, c, now, sends, k); } else { OneTurnLater(x, z, c, now, sends, k, j); }
    }
  }

  /** match_pending, whatever the outcomes of the START messages: oldest streams, newest work
      connections, and it stops only when a queue is empty or the starting table is full. */
  lemma {:induction false} MatchDoes(x: Ps, c: Config, now: nat, sends: seq<bool>) returns (k: nat)
    ensures Turns(x.p, Match(x, c, now, sends).p, c, now, sends, k) && !CanMatch(Match(x, c, now, sends).p, c)
    decreases |x.p.pending|
  {
    if CanMatch(x.p, c) {
      var y := MatchOne(x, c, now, SentAt(sends, 0));
      var n := MatchDoes(y, c, now, Rest(sends));
      OneTurn(x, Match(y, c, now, Rest(sends)).p, c, now, sends, n);
      k := n + 1;
    } else {
      k := 0;
    }
  }

  // ----- the rest of the server -----

  /** Nothing outside peer i and the shared tables of sockets and counters changed. */
  ghost predicate OnlyPeer(s: State, t: State, i: nat)
  {
    && i < |s.peers| && t == s.(peers := t.peers, os := t.os, m := t.m)
    && t.peers == s.peers[i := if i < |t.peers| then t.peers[i] else s.peers[i]]
  }

  /** Incoming connection k has left its table, and nothing else has. */
  ghost predicate LeftTable(s: State, t: State, k: nat)
    requires k < |s.incoming|
  {
    && (forall e :: e in t.incoming ==> e.fd != s.incoming[k].fd)
    && forall e: Incoming :: Left(s.incoming, t.incoming, s.incoming[k], e)
  }

  ghost predicate Left<T(!new)>(xs: seq<T>, ys: seq<T>, gone: T, e: T)
  {
    Often(ys, e) + (if e == gone then 1 else 0) == Often(xs, e)
  }

  lemma SwapLeaves<T(!new)>(xs: seq<T>, k: nat, e: T)
    requires k < |xs|
    ensures Left(xs, SwapRemove(xs, k), xs[k], e)
  {
    SumSwapRemove(xs, k, Equals(e));
  }

  // ----- a frame on an incoming connection -----

  lemma IncomingIsOne(s: State, k: nat, j: nat)
    requires Owned(s) && k < |s.incoming| && j < |s.incoming| && s.incoming[k].fd == s.incoming[j].fd
    ensures k == j
  {
    var f := s.incoming[k].fd;
    assert OwnedOnce(s, f);
    if k != j { TwoCount(s.incoming, IncomingIs(f), if k < j then k else j, if k < j then j else k); }
  }

  lemma IncomingFound(s: State, k: nat)
    requires Owned(s) && k < |s.incoming|
    ensures FindIncoming(s.incoming, s.incoming[k].fd) == k
  {
    forall j | 0 <= j < k ensures s.incoming[j].fd != s.incoming[k].fd {
      if s.incoming[j].fd == s.incoming[k].fd { IncomingIsOne(s, k, j); }
    }
    FirstIs(s.incoming, IncomingAt(s.incoming[k].fd), k);
  }

  lemma TableLeft(s: State, t: State, k: nat)
    requires Owned(s) && k < |s.incoming| && t.incoming == SwapRemove(s.incoming, k)
    ensures LeftTable(s, t, k) && s.incoming[k].fd in s.os.open
  {
    var f := s.incoming[k].fd;
    assert OwnedOnce(s, f);
    SumSwapRemove(s.incoming, k, IncomingIs(f));
    forall e | e in t.incoming ensures e.fd != f {
      var i :| 0 <= i < |t.incoming| && t.incoming[i] == e;
      SumUpdate(t.incoming, i, e, IncomingIs(f));
    }
    forall e: Incoming ensures Left(s.incoming, t.incoming, s.incoming[k], e) { SwapLeaves(s.incoming, k, e); }
  }

  ghost predicate Greets(s: State, k: nat, e: Event)
    requires e.Arrive? && k < |s.incoming|
  {
    !e.broken && e.good && e.frame == HelloFrame && !s.incoming[k].waiting
  }

  ghost predicate SlotFree(s: State, c: Config, i: nat) { i < |s.peers| && i < c.maxClients && !s.peers[i].active }

  /** A verified AUTH on a greeted connection, while a slot is free. */
  ghost predicate LogsIn(s: State, c: Config, k: nat, e: Event)
    requires e.Arrive? && k < |s.incoming|
  {
    !e.broken && e.good && e.frame == AuthFrame && s.incoming[k].waiting && exists i: nat :: SlotFree(s, c, i)
  }

  /** The first active peer of this session. */
  ghost predicate OfSession(s: State, i: nat, session: u64)
  {
    && i < |s.peers| && s.peers[i].active && s.peers[i].session == session
    && forall j :: 0 <= j < i ==> !(s.peers[j].active && s.peers[j].session == session)
  }

  /** A verified BIND of peer i's session on a connection not greeted, with room for it. */
  ghost predicate Binds(s: State, c: Config, k: nat, e: Event, i: nat)
    requires e.Arrive? && k < |s.incoming|
  {
    && !e.broken && e.good && e.frame == BindFrame && !s.incoming[k].waiting
    && OfSession(s, i, e.session) && |s.peers[i].work| < c.compiledStreams
  }

  ghost predicate BindsSome(s: State, c: Config, k: nat, e: Event)
    requires e.Arrive? && k < |s.incoming|
  {
    exists i: nat :: Binds(s, c, k, e, i)
  }

  /** Peer i is new: it owns this socket and session, has this access list, and nothing else. */
  ghost predicate NewPeer(s: State, t: State, c: Config, k: nat, e: Event, i: nat)
    requires e.Arrive? && k < |s.incoming|
  {
    && SlotFree(s, c, i) && OnlyPeer(s.(incoming := t.incoming), t, i) && t.os == s.os && t.m == s.m
    && var q := t.peers[i];
    && q.active && q.fd == s.incoming[k].fd && q.session == e.session && q.auth == e.auth && Blank(q)
    && q.ids == Counter(e.inow % U64_LIMIT, false)
  }

  ghost predicate LoggedIn(s: State, t: State, c: Config, k: nat, e: Event)
    requires e.Arrive? && k < |s.incoming|
  {
    LeftTable(s, t, k) && exists i: nat :: NewPeer(s, t, c, k, e, i)
  }

  /** The connection became the newest idle work connection of peer i, which then matched. */
  ghost predicate WorkBound(s: State, t: State, c: Config, k: nat, e: Event, i: nat)
    requires e.Arrive? && k < |s.incoming| && i < |s.peers|
  {
    && LeftTable(s, t, k) && OnlyPeer(s.(incoming := t.incoming), t, i) && !CanMatch(t.peers[i], c)
    && var p := s.peers[i].(work := s.peers[i].work + [s.incoming[k].fd]);
    exists n: nat :: Turns(p, t.peers[i], c, e.inow, e.isends, n)
  }

  /** The connection is gone and closed, and that is all. */
  ghost predicate TurnedAway(s: State, t: State, k: nat)
    requires k < |s.incoming|
  {
    && LeftTable(s, t, k) && t.peers == s.peers && t.m == s.m && t.control == s.control
    && t.os == Os(s.os.open - {s.incoming[k].fd}, false)
  }

  lemma TurnedAwayIs(c: Config, s: State, k: nat)
    requires Inv(c, s) && k < |s.incoming|
    ensures TurnedAway(s, DropIncoming(s, k), k)
  {
    TableLeft(s, DropIncoming(s, k), k);
  }

  lemma FirstInactive(s: State, c: Config)
    ensures var i := FreePeer(s.peers, c.maxClients);
      if i < |s.peers| then SlotFree(s, c, i) else !exists j: nat :: SlotFree(s, c, j)
  {
    FreePeerIff(s.peers, c.maxClients);
    if j: nat :| SlotFree(s, c, j) { assert 0 <= j < |s.peers| && j < c.maxClients && !s.peers[j].active; }
  }

  lemma LoginIs(c: Config, s: State, k: nat, e: Event)
    requires Inv(c, s) && e.Arrive? && k < |s.incoming| && s.incoming[k].fd == e.ifd
    requires !e.broken && e.frame == AuthFrame && s.incoming[k].waiting
    ensures var t := Step(s, c, e);
      if e.good && exists i: nat :: SlotFree(s, c, i) then LoggedIn(s, t, c, k, e) else TurnedAway(s, t, k)
  {
    var t, i := Step(s, c, e), FreePeer(s.peers, c.maxClients);
    IncomingFound(s, k);
    FirstInactive(s, c);
    TurnedAwayIs(c, s, k);
    if e.good && i < |s.peers| {
      TableLeft(s, t, k);
      SumZero(Vacant(c).relays, IsOpen);
      SumZero(Vacant(c).udp, IsActive);
      assert NewPeer(s, t, c, k, e, i);
    }
  }

  lemma SessionFound(s: State, session: u64)
    ensures var i := First(s.peers, InSession(session));
      if i < |s.peers| then OfSession(s, i, session) else forall j: nat :: !OfSession(s, j, session)
  {
    var i := First(s.peers, InSession(session));
    forall j | 0 <= j < i ensures !(s.peers[j].active && s.peers[j].session == session) {
      BeforeFirst(s.peers, InSession(session), j);
    }
    if i == |s.peers| {
      forall j: nat ensures !OfSession(s, j, session) {
        if j < |s.peers| { BeforeFirst(s.peers, InSession(session), j); }
      }
    }
  }

  lemma OneOfSession(s: State, i: nat, j: nat, session: u64)
    requires OfSession(s, i, session) && OfSession(s, j, session)
    ensures i == j
  {
  }

  lemma BoundIs(c: Config, s: State, k: nat, e: Event, i: nat)
    requires Inv(c, s) && e.Arrive? && k < |s.incoming| && s.incoming[k].fd == e.ifd && Binds(s, c, k, e, i)
    ensures WorkBound(s, Step(s, c, e), c, k, e, i)
  {
    var t, fd := Step(s, c, e), s.incoming[k].fd;
    IncomingFound(s, k);
    SessionFound(s, e.session);
    OneOfSession(s, i, FindSession(s.peers, e.session), e.session);
    var u := s.(incoming := SwapRemove(s.incoming, k));
    assert t == With(u, i, AddWork(Of(u, i), c, fd, e.inow, e.isends));
    TableLeft(s, t, k);
    var n := MatchDoes(Ps(s.peers[i].(work := s.peers[i].work + [fd]), s.os, Inc(s.m, WORK_IDLE)), c, e.inow, e.isends);
    assert Turns(s.peers[i].(work := s.peers[i].work + [fd]), t.peers[i], c, e.inow, e.isends, n);
  }

  lemma BindIs(c: Config, s: State, k: nat, e: Event)
    requires Inv(c, s) && e.Arrive? && k < |s.incoming| && s.incoming[k].fd == e.ifd
    requires !e.broken && e.frame == BindFrame && !s.incoming[k].waiting && !BindsSome(s, c, k, e)
    ensures TurnedAway(s, Step(s, c, e), k)
  {
    IncomingFound(s, k);
    SessionFound(s, e.session);
    TurnedAwayIs(c, s, k);
    var i := FindSession(s.peers, e.session);
    if i < |s.peers| {
      assert !Binds(s, c, k, e, i);
      assert PeerOk(c, s.peers[i]);
    }
  }

  /** What a frame, or an error, on an incoming connection does: a good HELLO marks it as
      greeted, a verified AUTH on a greeted one makes it a peer, a verified BIND makes it a
      work connection, and everything else closes it and changes nothing more. */
  lemma FrameOutcome(c: Config, s: State, k: nat, e: Event)
    requires Inv(c, s) && e.Arrive? && k < |s.incoming| && s.incoming[k].fd == e.ifd
    ensures var t := Step(s, c, e);
      && (Greets(s, k, e) ==> t == s.(incoming := s.incoming[k := s.incoming[k].(waiting := true)]))
      && (LogsIn(s, c, k, e) ==> LoggedIn(s, t, c, k, e))
      && (forall i: nat :: Binds(s, c, k, e, i) ==> WorkBound(s, t, c, k, e, i))
      && (!Greets(s, k, e) && !LogsIn(s, c, k, e) && !BindsSome(s, c, k, e) ==> TurnedAway(s, t, k))
  {
    IncomingFound(s, k);
    TurnedAwayIs(c, s, k);
    var x := s.incoming[k];
    forall i: nat | Binds(s, c, k, e, i) ensures WorkBound(s, Step(s, c, e), c, k, e, i) { BoundIs(c, s, k, e, i); }
    if !e.broken && e.frame == AuthFrame && x.waiting {
      LoginIs(c, s, k, e);
    } else if !e.broken && e.frame == BindFrame && !x.waiting && !BindsSome(s, c, k, e) {
      BindIs(c, s, k, e);
    }
  }

  /** So a peer becomes active in a step exactly on a verified AUTH. */
  lemma BecomesActiveIff(c: Config, s: State, k: nat, e: Event)
    requires Inv(c, s) && e.Arrive? && k < |s.incoming| && s.incoming[k].fd == e.ifd
    ensures (exists i :: 0 <= i < |s.peers| && Wakes(s, Step(s, c, e), i)) <==> LogsIn(s, c, k, e)
  {
    var t := Step(s, c, e);
    FrameOutcome(c, s, k, e);
    if LogsIn(s, c, k, e) {
      var i: nat :| NewPeer(s, t, c, k, e, i);
      assert Wakes(s, t, i);
    }
  }

  ghost predicate Wakes(s: State, t: State, i: nat)
    requires i < |s.peers|
  {
    !s.peers[i].active && i < |t.peers| && t.peers[i].active
  }
}

/** The gauges agree with the relays they summarise, over any run of a table of relays
    (src/net/relay.c:21-35, 107-136, 272-318; src/util/metrics.c:6-34). */
module RelayLedger {
  import opened Bytes
  import opened Records
  import opened Metrics
  import Bags
  import opened RelaySpec

  function At(m: Counters, id: nat): int requires id < COUNT { m[id] }

  // ----- one relay -----

  /** What the gauges count beyond this relay's accounted bytes. */
  function Others(r: State, m: Counters): int { m[BUFFER_CURRENT] - r.accounted }

  /** The gauge covers this relay, is below saturation even if its rings fill, and does
      not exceed its peak. */
  ghost predicate Covers(r: State, m: Counters)
  {
    && Sized(r)
    && 0 <= Others(r, m) && Others(r, m) + 3 * r.cap <= U64_MAX
    && m[BUFFER_CURRENT] <= m[BUFFER_PEAK]
  }

  /** Only the buffer gauge and its peak move. */
  ghost predicate OnlyBuffer(m: Counters, n: Counters)
  {
    forall i :: 0 <= i < COUNT && i != BUFFER_CURRENT && i != BUFFER_PEAK ==> n[i] == m[i]
  }

  /** sync_buffer_metric moves the gauge by exactly what this relay's rings changed: no
      addition saturates and no subtraction clamps. */
  lemma SyncCovers(r: State, m: Counters)
    requires Covers(r, m)
    ensures var s := Sync(r, m);
      && Covers(s.st, s.m) && Others(s.st, s.m) == Others(r, m)
      && s.st.accounted == Buffered(r)
      && s.m[BUFFER_PEAK] >= m[BUFFER_PEAK] && OnlyBuffer(m, s.m)
  {
  }

  /** ct_relay_close hands back exactly this relay's share and one of each stream gauge. */
  lemma CloseCovers(r: State, m: Counters)
    requires Covers(r, m) && !r.closed
    requires m[ACTIVE_STREAMS] >= 1 && m[WORK_ACTIVE] >= 1
    ensures var c := Close(r, m);
      && c.st.closed && c.st.accounted == 0 && Buffered(c.st) == 0
      && c.m[BUFFER_CURRENT] == Others(r, m) <= c.m[BUFFER_PEAK]
      && c.m[ACTIVE_STREAMS] + 1 == m[ACTIVE_STREAMS] && c.m[WORK_ACTIVE] + 1 == m[WORK_ACTIVE]
      && c.m[STREAMS_OPENED] == m[STREAMS_OPENED]
      && (m[STREAMS_CLOSED] < U64_MAX ==> c.m[STREAMS_CLOSED] == m[STREAMS_CLOSED] + 1)
      && c.m[PENDING_STREAMS] == m[PENDING_STREAMS] && c.m[WORK_IDLE] == m[WORK_IDLE]
  {
    SyncCovers(r, m);
  }

  /** How one call of ct_relay_process moves the gauges. */
  ghost predicate Balanced(r: State, m: Counters, q: State, n: Counters)
  {
    && Others(q, n) == Others(r, m)
    && n[BUFFER_CURRENT] <= n[BUFFER_PEAK]
    && n[STREAMS_OPENED] == m[STREAMS_OPENED]
    && n[PENDING_STREAMS] == m[PENDING_STREAMS] && n[WORK_IDLE] == m[WORK_IDLE]
    && (q.closed ==>
          && q.accounted == 0 && Buffered(q) == 0
          && At(n, ACTIVE_STREAMS) + 1 == m[ACTIVE_STREAMS] && At(n, WORK_ACTIVE) + 1 == m[WORK_ACTIVE]
          && (m[STREAMS_CLOSED] < U64_MAX ==> n[STREAMS_CLOSED] == m[STREAMS_CLOSED] + 1))
    && (!q.closed ==>
          && q.accounted == Buffered(q)
          && n[ACTIVE_STREAMS] == m[ACTIVE_STREAMS] && n[WORK_ACTIVE] == m[WORK_ACTIVE]
          && n[STREAMS_CLOSED] == m[STREAMS_CLOSED])
  }

  lemma FailBalanced(r: State, m: Counters)
    requires Covers(r, m) && !r.closed && m[ACTIVE_STREAMS] >= 1 && m[WORK_ACTIVE] >= 1
    ensures Balanced(r, m, Fail(r, m).st, Fail(r, m).m)
  {
    CloseCovers(r, Inc(m, STREAMS_FAILED));
  }

  lemma SettleBalanced(r: State, m: Counters)
    requires Covers(r, m) && !r.closed && m[ACTIVE_STREAMS] >= 1 && m[WORK_ACTIVE] >= 1
    requires r.accounted == Buffered(r)
    ensures Balanced(r, m, Settle(r, m).st, Settle(r, m).m)
  {
    if Finished(r) { CloseCovers(HalfClosed(r), m); }
  }

  lemma BalancedAfterSync(r: State, m: Counters, q: State, n: Counters)
    requires Covers(r, m) && Balanced(Sync(r, m).st, Sync(r, m).m, q, n)
    ensures Balanced(r, m, q, n)
  {
    SyncCovers(r, m);
  }

  lemma FromReadBalanced(r: State, m: Counters, fd: Fd, ev: Ready, io: Io, log: seq<Sealed>)
    requires Covers(r, m) && !r.closed && RecvFits(r.cap, fd, io)
    requires m[ACTIVE_STREAMS] >= 1 && m[WORK_ACTIVE] >= 1
    ensures var p := FromRead(r, m, fd, ev, io, log); Balanced(r, m, p.st, p.m)
  {
    var x := Stage3(r, fd, ev, io, log);
    if !x.ok { FailBalanced(x.st, m); }
    else {
      SyncCovers(x.st, m);
      var s3 := Sync(x.st, m);
      SettleBalanced(s3.st, s3.m);
      BalancedAfterSync(x.st, m, Settle(s3.st, s3.m).st, Settle(s3.st, s3.m).m);
    }
  }

  lemma FromDrainBalanced(r: State, m: Counters, fd: Fd, ev: Ready, io: Io, log: seq<Sealed>)
    requires Covers(r, m) && !r.closed && RecvFits(r.cap, fd, io)
    requires m[ACTIVE_STREAMS] >= 1 && m[WORK_ACTIVE] >= 1
    ensures var p := FromDrain(r, m, fd, ev, io, log); Balanced(r, m, p.st, p.m)
  {
    var d := Stage2(r, fd, log);
    if !d.ok { FailBalanced(d.st, m); }
    else {
      SyncCovers(d.st, m);
      var s2 := Sync(d.st, m);
      FromReadBalanced(s2.st, s2.m, fd, ev, io, log);
      var p := FromRead(s2.st, s2.m, fd, ev, io, log);
      BalancedAfterSync(d.st, m, p.st, p.m);
    }
  }

  /** After every ct_relay_process on an open relay the accounted bytes are the bytes in
      its rings, the gauge has moved by exactly the difference, and a close settles the
      stream gauges by one. */
  lemma ProcessBalanced(r: State, m: Counters, fd: Fd, ev: Ready, io: Io, log: seq<Sealed>)
    requires Covers(r, m) && !r.closed && Plausible(r, fd, io)
    requires m[ACTIVE_STREAMS] >= 1 && m[WORK_ACTIVE] >= 1
    ensures var p := Process(r, m, fd, ev, io, log); Balanced(r, m, p.st, p.m)
  {
    var f := Stage1(r, fd, ev, io);
    if !f.ok { FailBalanced(f.st, m); }
    else {
      SyncCovers(f.st, m);
      var s1 := Sync(f.st, m);
      FromDrainBalanced(s1.st, s1.m, fd, ev, io, log);
      var p := FromDrain(s1.st, s1.m, fd, ev, io, log);
      BalancedAfterSync(f.st, m, p.st, p.m);
    }
  }

  // ----- a table of relays sharing one set of counters -----

  datatype Table = Table(relays: seq<State>, m: Counters)
  datatype TableEvent =
    | Start(slot: nat, cap: nat, header: seq<byte>)
    | Serve(slot: nat, fd: Fd, ev: Ready, io: Io, log: seq<Sealed>)
    | Drop(slot: nat)

  /** ct_relay_init into a closed slot, ct_relay_process, or ct_relay_close. */
  ghost function TableStep(t: Table, e: TableEvent): Table
  {
    if e.slot >= |t.relays| then t
    else
      var r := t.relays[e.slot];
      match e
      case Start(i, cap, header) =>
        if r.closed && CapOk(cap) && |header| <= cap
        then Table(t.relays[i := Init(cap, header)], Opened(t.m)) else t
      case Serve(i, fd, ev, io, log) =>
        if Sized(r) && Plausible(r, fd, io) then
          var p := Process(r, t.m, fd, ev, io, log); Table(t.relays[i := p.st], p.m)
        else t
      case Drop(i) =>
        if Sized(r) then var c := Close(r, t.m); Table(t.relays[i := c.st], c.m) else t
  }

  ghost function TableRun(t: Table, events: seq<TableEvent>): Table
    decreases |events|
  {
    if events == [] then t
    else TableStep(TableRun(t, events[..|events| - 1]), events[|events| - 1])
  }

  function Accounted(r: State): nat { r.accounted }
  function Counted(r: State): nat { if r.closed then 0 else 1 }
  function SumAccounted(rs: seq<State>): nat { Bags.Sum(rs, Accounted) }
  function CountOpen(rs: seq<State>): nat { Bags.Sum(rs, Counted) }

  lemma SumUpdate(rs: seq<State>, i: nat, r: State)
    requires i < |rs|
    ensures SumAccounted(rs[i := r]) == SumAccounted(rs) - rs[i].accounted + r.accounted
    ensures CountOpen(rs[i := r]) ==
            CountOpen(rs) - (if rs[i].closed then 0 else 1) + (if r.closed then 0 else 1)
  {
    Bags.SumUpdate(rs, i, r, Accounted);
    Bags.SumUpdate(rs, i, r, Counted);
  }

  lemma SumBound(rs: seq<State>)
    requires forall i :: 0 <= i < |rs| ==> Sized(rs[i])
    ensures SumAccounted(rs) <= |rs| * (3 * MAX_CAP) && CountOpen(rs) <= |rs|
  {
    Bags.SumBound(rs, Accounted, 3 * MAX_CAP);
    Bags.SumBound(rs, Counted, 1);
  }

  lemma SumHasEach(rs: seq<State>, i: nat)
    requires i < |rs|
    ensures rs[i].accounted <= SumAccounted(rs)
    ensures !rs[i].closed ==> CountOpen(rs) >= 1
  {
    Bags.SumUpdate(rs, i, rs[i], Accounted);
    Bags.SumUpdate(rs, i, rs[i], Counted);
  }

  /** The PROXY header of a relay that has not been served since ct_relay_init, which
      queues it without accounting for it. */
  function Unserved(r: State): nat
  {
    if !r.closed && r == Init(r.cap, r.rx.header) then |r.rx.header| else 0
  }

  /** The accounted bytes are the bytes in the rings, but for such a header. */
  ghost predicate Settled(r: State) { r.accounted + Unserved(r) == Buffered(r) }

  lemma {:induction false} SumSettled(rs: seq<State>)
    requires forall i :: 0 <= i < |rs| ==> Settled(rs[i])
    ensures SumAccounted(rs) + Bags.Sum(rs, Unserved) == Bags.Sum(rs, Buffered)
    decreases |rs|
  {
    if rs != [] { SumSettled(rs[..|rs| - 1]); }
  }

  /** Every server with 64 clients of 4096 streams each, the largest that can be
      configured (src/Kconfig), is within this bound. */
  const MAX_SLOTS: nat := 262144

  ghost predicate Agrees(t: Table)
  {
    && |t.relays| <= MAX_SLOTS
    && (forall i :: 0 <= i < |t.relays| ==> Sized(t.relays[i]))
    && (forall i :: 0 <= i < |t.relays| && t.relays[i].closed ==> t.relays[i].accounted == 0)
    && (forall i :: 0 <= i < |t.relays| ==> Settled(t.relays[i]))
    && t.m[BUFFER_CURRENT] == SumAccounted(t.relays)
    && t.m[BUFFER_CURRENT] <= t.m[BUFFER_PEAK]
    && t.m[ACTIVE_STREAMS] == t.m[WORK_ACTIVE] == CountOpen(t.relays)
    && (t.m[STREAMS_OPENED] < U64_MAX ==>
          t.m[STREAMS_OPENED] == At(t.m, STREAMS_CLOSED) + t.m[ACTIVE_STREAMS])
  }

  lemma AgreesCovers(t: Table, i: nat)
    requires Agrees(t) && i < |t.relays|
    ensures Covers(t.relays[i], t.m)
    ensures !t.relays[i].closed ==> t.m[ACTIVE_STREAMS] >= 1 && t.m[WORK_ACTIVE] >= 1
  {
    SumHasEach(t.relays, i);
    SumBound(t.relays);
    assert |t.relays| * (3 * MAX_CAP) <= MAX_SLOTS * (3 * MAX_CAP);
  }

  /** Replacing one relay, with counters that moved by that relay's share. */
  lemma ReplaceAgrees(t: Table, i: nat, q: State, n: Counters)
    requires Agrees(t) && i < |t.relays| && !t.relays[i].closed && Sized(q)
    requires Balanced(t.relays[i], t.m, q, n)
    ensures Agrees(Table(t.relays[i := q], n))
  {
    SumUpdate(t.relays, i, q);
    SumHasEach(t.relays, i);
  }

  lemma StartAgrees(t: Table, i: nat, cap: nat, header: seq<byte>)
    requires Agrees(t) && i < |t.relays| && t.relays[i].closed
    requires CapOk(cap) && |header| <= cap
    ensures Agrees(Table(t.relays[i := Init(cap, header)], Opened(t.m)))
  {
    SumUpdate(t.relays, i, Init(cap, header));
    SumBound(t.relays);
  }

  lemma CloseBalanced(r: State, m: Counters)
    requires Covers(r, m) && !r.closed && m[ACTIVE_STREAMS] >= 1 && m[WORK_ACTIVE] >= 1
    ensures Balanced(r, m, Close(r, m).st, Close(r, m).m)
  {
    CloseCovers(r, m);
  }

  lemma TableStepAgrees(t: Table, e: TableEvent)
    requires Agrees(t)
    ensures Agrees(TableStep(t, e))
  {
    var i := e.slot;
    if i < |t.relays| {
      var r := t.relays[i];
      AgreesCovers(t, i);
      match e
      case Start(_, cap, header) =>
        if r.closed && CapOk(cap) && |header| <= cap { StartAgrees(t, i, cap, header); }
      case Serve(_, fd, ev, io, log) =>
        if Plausible(r, fd, io) && !r.closed {
          ProcessBalanced(r, t.m, fd, ev, io, log);
          var p := Process(r, t.m, fd, ev, io, log);
          ReplaceAgrees(t, i, p.st, p.m);
        } else { assert t.relays[i := r] == t.relays; }
      case Drop(_) =>
        if !r.closed {
          CloseBalanced(r, t.m);
          ReplaceAgrees(t, i, Close(r, t.m).st, Close(r, t.m).m);
        } else { assert t.relays[i := r] == t.relays; }
    }
  }

  /** Over any run of opens, events and closes of any number of relays the buffer gauge
      is the sum of the accounted bytes, each relay's accounted bytes are those in its rings
      (an unserved header apart), the stream gauges are the number of open relays,
      streams opened are streams closed plus active, and no peak is missed. */
  lemma {:induction false} GaugesAgree(t: Table, events: seq<TableEvent>)
    requires Agrees(t)
    ensures Agrees(TableRun(t, events))
    decreases |events|
  {
    if events != [] {
      GaugesAgree(t, events[..|events| - 1]);
      TableStepAgrees(TableRun(t, events[..|events| - 1]), events[|events| - 1]);
    }
  }

  /** The table a process starts with: every slot closed, every counter zero. */
  function FreshTable(n: nat): Table
  {
    Table(seq(n, _ => Emptied(Init(MIN_CAP, []))), Zeros(COUNT))
  }

  /** From process start the buffer gauge is what all rings hold, except for the headers of
      relays that have not been served yet. */
  lemma FreshRunAgrees(n: nat, events: seq<TableEvent>)
    requires n <= MAX_SLOTS
    ensures var t := TableRun(FreshTable(n), events);
      Agrees(t) && t.m[BUFFER_CURRENT] + Bags.Sum(t.relays, Unserved) == Bags.Sum(t.relays, Buffered)
  {
    Bags.SumZero(FreshTable(n).relays, Accounted);
    Bags.SumZero(FreshTable(n).relays, Counted);
    GaugesAgree(FreshTable(n), events);
    SumSettled(TableRun(FreshTable(n), events).relays);
  }

  /** So the gauge is the bytes in all rings exactly when no open relay still waits with
      its header for its first event. */
  lemma GaugeIsContentsIff(n: nat, events: seq<TableEvent>)
    requires n <= MAX_SLOTS
    ensures var t := TableRun(FreshTable(n), events);
      t.m[BUFFER_CURRENT] == Bags.Sum(t.relays, Buffered) <==> forall r :: r in t.relays ==> Unserved(r) == 0
  {
    FreshRunAgrees(n, events);
    var rs := TableRun(FreshTable(n), events).relays;
    if forall r :: r in rs ==> Unserved(r) == 0 { Bags.SumZero(rs, Unserved); }
    forall i | 0 <= i < |rs| ensures Unserved(rs[i]) <= Bags.Sum(rs, Unserved) {
      Bags.SumUpdate(rs, i, rs[i], Unserved);
    }
  }
}

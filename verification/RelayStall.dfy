/** When a relay half-closes, and exactly when it can stall itself
    (src/net/relay.c:13-17, 137-157, 206-233, 295-312). */
module RelayStall {
  import opened Bytes
  import opened Rings
  import opened Records
  import opened RelaySpec
  import opened RelaySafety
  import opened RelayProgress
  import opened RelayPair
  import opened RelayClose

  // ----- half-close, whatever bytes arrive -----

  lemma IncompleteHead(x: Rx, cap: nat)
    requires CapOk(cap) && Drained(x, cap) && x.ring == []
    ensures Whole(x.input) == 0
  {
  }

  lemma AllWholeOpened(x: Rx, cap: nat, log: seq<Sealed>, chunk: nat)
    requires CapOk(cap) && InSequence(log, chunk)
    requires Receives(x, cap, log) && Drained(x, cap) && x.ring == []
    ensures Whole(x.taken) == x.seqno
    ensures x.sent == x.header + Plain(log[..x.seqno])
  {
    var part := log[..x.seqno];
    forall e | e in part ensures Framed(e, e.seqno, chunk) {
      var k :| 0 <= k < |part| && part[k] == e;
      assert log[k] == e;
    }
    IncompleteHead(x, cap);
    WholeRecords(part, chunk, x.input);
    assert x.sent + [] == x.sent;
  }

  /** A half-close towards direct happens only when every whole record ever read from
      work has been opened and its plaintext sent; a half-close towards work only when
      every byte read from direct has been sealed and sent. The bytes from work may be anything; under the
      peer's key, records are sealed in sequence, as every relay does. */
  lemma HalfCloseComesLast(r: State, fd: Fd, ev: Ready, io: Io, log: seq<Sealed>, chunk: nat)
    requires InSequence(log, chunk) && Holds(r, log) && Plausible(r, fd, io) && !r.closed
    requires Drained(r.rx, r.cap)
    ensures var q := After(r, fd, ev, io, log);
      && (q.rx.shut && !r.rx.shut ==>
            && Whole(q.rx.taken) == q.rx.seqno <= |log|
            && q.rx.sent == q.rx.header + Plain(log[..q.rx.seqno]))
      && (q.tx.shut && !r.tx.shut ==> AllSent(q.tx))
  {
    AdvanceMidway(r, fd, ev, io, log, chunk);
    AdvanceDrains(r, fd, ev, io, log);
    ShutOfAdvance(r, fd, ev, io, log);
    EndedShut(Advance(r, fd, ev, io, log), log, chunk);
  }

  lemma ShutOfAdvance(r: State, fd: Fd, ev: Ready, io: Io, log: seq<Sealed>)
    requires Sized(r) && Plausible(r, fd, io)
    ensures var a := Advance(r, fd, ev, io, log).st;
      a.rx.shut == r.rx.shut && a.tx.shut == r.tx.shut
  {
    RxOfAdvance(r, fd, ev, io, log);
    TxOfAdvance(r, fd, ev, io, log);
  }

  lemma EndedShut(o: Outcome, log: seq<Sealed>, chunk: nat)
    requires InSequence(log, chunk) && Midway(o, log)
    requires o.ok ==> Drained(o.st.rx, o.st.cap)
    ensures var q := Ended(o).1;
      && (q.rx.shut && !o.st.rx.shut ==>
            && Whole(q.rx.taken) == q.rx.seqno <= |log|
            && q.rx.sent == q.rx.header + Plain(log[..q.rx.seqno]))
      && (q.tx.shut && !o.st.tx.shut ==> AllSent(q.tx))
  {
    var r := o.st;
    if o.ok && r.rx.eof && r.rx.ring == [] { AllWholeOpened(r.rx, r.cap, log, chunk); }
    assert r.tx.sent + [] == r.tx.sent;
  }

  // ----- no stall, for every run, when the rings are roomy -----

  lemma {:induction false} RunDrained(p: Pair, events: seq<Event>)
    requires Start(p)
    ensures var q := Run(p, events);
      && (!q.client.closed ==> Drained(q.client.rx, q.client.cap))
      && (!q.server.closed ==> Drained(q.server.rx, q.server.cap))
    decreases |events|
  {
    if events != [] {
      var before, e := events[..|events| - 1], events[|events| - 1];
      RunDrained(p, before);
      var q := Run(p, before);
      var r := Me(q, e);
      if Sized(r) && Plausible(r, e.fd, e.io) {
        AfterDrained(r, e.fd, e.ev, e.io, Other(q, e).tx.sealed);
      }
    }
  }

  lemma {:induction false} CapsStay(p: Pair, events: seq<Event>)
    requires Start(p)
    ensures Run(p, events).client.cap == p.client.cap && Run(p, events).server.cap == p.server.cap
    decreases |events|
  {
    if events != [] {
      var before, e := events[..|events| - 1], events[|events| - 1];
      CapsStay(p, before);
      var q := Run(p, before);
      var r := Me(q, e);
      if Sized(r) && Plausible(r, e.fd, e.io) {
        AfterFixed(r, e.fd, e.ev, e.io, Other(q, e).tx.sealed);
      }
    }
  }

  ghost predicate NeverStalls(p: Pair, events: seq<Event>)
  {
    NoStall(Run(p, events).client) && NoStall(Run(p, events).server)
  }

  lemma RoomyNeverStalls(p: Pair, events: seq<Event>)
    requires Start(p) && Roomy(p.client.cap) && Roomy(p.server.cap)
    ensures NeverStalls(p, events)
  {
    RunDrained(p, events);
    RunHolds(p, events);
    CapsStay(p, events);
    var q := Run(p, events);
    if !q.client.closed { DrainedNeverStalls(q.client); }
    if !q.server.closed { DrainedNeverStalls(q.server); }
  }

  // ----- a stall, for every smaller ring -----

  /** The client reads one full chunk and sends its record; the server's first read ends
      just where its gate closes, inside that record. */
  function StallingRun(cap: nat): seq<Event>
    requires CapOk(cap) && !Roomy(cap)
  {
    var c := Chunk(cap);
    var record := Header(c + TAG, 1) + Pad(c + TAG);
    [ Event(true, Direct, Ready(true, false), Io(SendBlocked, Data(Pad(c)), Pad(c + TAG))),
      Event(true, Work, Ready(false, true), Io(Sent(|record|), RecvBlocked, [])),
      Event(false, Work, Ready(true, false), Io(SendBlocked, Data(record[..cap - c - 32]), [])) ]
  }

  function Fresh(cap: nat): Pair { Pair(Init(cap, []), Init(cap, [])) }

  lemma ClientReads(cap: nat)
    requires CapOk(cap)
    ensures var c := Chunk(cap);
      var record := Header(c + TAG, 1) + Pad(c + TAG);
      var r := After(Init(cap, []), Direct, Ready(true, false),
                     Io(SendBlocked, Data(Pad(c)), Pad(c + TAG)), []);
      Sized(r) && !r.closed && r.tx.ring == record && r.tx.sent == [] && !r.tx.eof && r.tx.seqno == 1
  {
    var c := Chunk(cap);
    assert 1 <= c;
    AppendedWhole([], Header(c + TAG, 1) + Pad(c + TAG), cap);
  }

  lemma ServerWaits(cap: nat, log: seq<Sealed>, k: nat, n: nat, box: seq<byte>)
    requires CapOk(cap) && n <= Chunk(cap) && |box| == n + TAG
    requires HEADER <= k < HEADER + |box| && k <= Chunk(cap) + 32
    ensures var record := Header(n + TAG, 1) + box;
      var io := Io(SendBlocked, Data(record[..k]), []);
      var r := After(Init(cap, []), Work, Ready(true, false), io, log);
      !r.closed && r.rx.input == record[..k] && r.rx.ring == [] && !r.rx.eof
  {
    var record := Header(n + TAG, 1) + box;
    var x := Init(cap, []).rx;
    var y := x.(taken := x.taken + record[..k], input := Appended([], record[..k], cap));
    AppendedWhole([], record[..k], cap);
    assert y.input == record[..k];
    assert y.input[..HEADER] == Header(n + TAG, 1);
    DecodeAcceptsExactly(Header(n + TAG, 1), Chunk(cap), 0, n + TAG, 1);
    assert DecryptOne(y, cap, log) == Wait;
  }

  /** A relay whose work reads are switched off in the middle of a record, with nothing
      to write: no event it asks for can bring the rest of the record. */
  ghost predicate Stalled(r: State)
  {
    && Sized(r) && !r.closed && GatedOff(r, Work)
    && Drained(r.rx, r.cap) && r.rx.ring == []
  }

  /** It stays so for ever: every further call it takes, gated by the events it asks
      for, leaves it stalled unless the relay closes. */
  lemma StallIsForEver(r: State, fd: Fd, ev: Ready, io: Io, log: seq<Sealed>)
    requires Stalled(r) && Plausible(r, fd, io) && (ev.read ==> WantsRead(r, fd))
    ensures var q := After(r, fd, ev, io, log); q.closed || Stalled(q)
  {
    RxOfAdvance(r, fd, ev, io, log);
    if fd == Direct {
      var f := if ev.write then FlushRx(r.rx, io.send).rx else r.rx;
      IncompleteHead(r.rx, r.cap);
      HeadWaits(f, r.cap, log);
    }
    if Advance(r, fd, ev, io, log).ok { AdvanceDrains(r, fd, ev, io, log); }
  }

  lemma HeadWaits(x: Rx, cap: nat, log: seq<Sealed>)
    requires RxSized(x, cap) && x.ring == [] && Whole(x.input) == 0
    ensures Decrypt(x, cap, log).rx == x
  {
    if |x.input| >= HEADER { assert x.input[..HEADER][..4] == x.input[..4]; }
  }

  lemma RunNext(p: Pair, events: seq<Event>, e: Event)
    ensures Run(p, events + [e]) == Stepped(Run(p, events), e)
    ensures SmoothRun(p, events + [e]) <==> SmoothRun(p, events) && Smooth(Run(p, events), e)
  {
    assert (events + [e])[..|events + [e]| - 1] == events;
  }

  lemma ClientSends(r: State, record: seq<byte>, log: seq<Sealed>)
    requires Sized(r) && !r.closed && r.tx.ring == record != [] && r.tx.sent == [] && !r.tx.eof
    ensures var q := After(r, Work, Ready(false, true), Io(Sent(|record|), RecvBlocked, []), log);
      q.tx.sent == record
  {
    assert r.tx.ring[..|record|] == record;
  }

  lemma StallingSteps(cap: nat) returns (p1: Pair, p2: Pair, p3: Pair)
    requires CapOk(cap) && !Roomy(cap)
    ensures var p, es := Fresh(cap), StallingRun(cap);
      && p1 == Stepped(p, es[0]) && p2 == Stepped(p1, es[1]) && p3 == Stepped(p2, es[2])
      && Smooth(p, es[0]) && Smooth(p1, es[1]) && Smooth(p2, es[2])
      && !NoStall(p3.server)
  {
    var p, es := Fresh(cap), StallingRun(cap);
    var c := Chunk(cap);
    var record := Header(c + TAG, 1) + Pad(c + TAG);
    ClientReads(cap);
    p1 := Stepped(p, es[0]);
    ClientSends(p1.client, record, []);
    p2 := Stepped(p1, es[1]);
    ServerWaits(cap, p2.client.tx.sealed, cap - c - 32, c, Pad(c + TAG));
    p3 := Stepped(p2, es[2]);
  }

  /** The three events are ordinary: every read was asked for, nothing fails, the bytes
      are the ones sent; and they leave the server stalled. */
  lemma SmallRingStalls(cap: nat)
    requires CapOk(cap) && !Roomy(cap)
    ensures Start(Fresh(cap))
    ensures SmoothRun(Fresh(cap), StallingRun(cap))
    ensures Stalled(Run(Fresh(cap), StallingRun(cap)).server)
    ensures !NeverStalls(Fresh(cap), StallingRun(cap))
  {
    var p, es := Fresh(cap), StallingRun(cap);
    var p1, p2, p3 := StallingSteps(cap);
    RunOfThree(p, es[0], es[1], es[2]);
    assert [es[0], es[1], es[2]] == es;
    RunDrained(p, es);
    RunHolds(p, es);
  }

  lemma RunOfThree(p: Pair, a: Event, b: Event, c: Event)
    ensures Run(p, [a, b, c]) == Stepped(Stepped(Stepped(p, a), b), c)
    ensures SmoothRun(p, [a, b, c]) <==>
            Smooth(p, a) && Smooth(Stepped(p, a), b) && Smooth(Stepped(Stepped(p, a), b), c)
  {
    RunNext(p, [], a);
    RunNext(p, [a], b);
    RunNext(p, [a, b], c);
    assert [] + [a] == [a] && [a] + [b] == [a, b] && [a, b] + [c] == [a, b, c];
  }

  /** Main theorem: a build never stalls itself, in any run and whatever bytes arrive, exactly
      when its ring holds two chunks and 60 bytes. */
  lemma NoStallIffRoomy(cap: nat)
    requires CapOk(cap)
    ensures Roomy(cap) <==>
      forall p: Pair, events: seq<Event> ::
        Start(p) && p.client.cap == cap && p.server.cap == cap ==> NeverStalls(p, events)
  {
    if Roomy(cap) {
      forall p: Pair, events: seq<Event> | Start(p) && p.client.cap == cap && p.server.cap == cap
        ensures NeverStalls(p, events)
      {
        RoomyNeverStalls(p, events);
      }
    } else {
      SmallRingStalls(cap);
    }
  }
}

/** Loss-free close: on a faithful work connection, without socket errors, a relay
    closes only when every byte of both streams has arrived. */
module RelayClose {
  import opened Bytes
  import opened Rings
  import opened Seqs
  import opened Records
  import opened RelaySpec
  import opened RelaySafety
  import opened RelayProgress
  import opened RelayPair
  import opened RelayFaithful

  // ----- a run without errors -----

  /** Reads happen only when asked for, sockets do not fail, end of file on work means
      the other end has shut its side and everything it sent has been read, and the
      sequence numbers are not used up. */
  ghost predicate Smooth(p: Pair, e: Event)
  {
    var r, o := Me(p, e), Other(p, e);
    && (e.ev.read ==> WantsRead(r, e.fd))
    && !e.io.send.SendFailed? && !e.io.recv.RecvFailed?
    && FaithfulData(p, e)
    && (e.fd == Work && e.ev.read && e.io.recv.Eof? ==> o.tx.shut && r.rx.taken == o.tx.sent)
    && r.tx.seqno < U64_MAX
  }

  ghost predicate SmoothRun(p: Pair, events: seq<Event>)
    decreases |events|
  {
    events == [] ||
    var before := events[..|events| - 1];
    SmoothRun(p, before) && Smooth(Run(p, before), events[|events| - 1])
  }

  /** Both builds cut streams into chunks of the same size. */
  ghost predicate SameChunk(p: Pair) { Chunk(p.client.cap) == Chunk(p.server.cap) }

  // ----- the invariant -----

  /** Everything read has been sealed and everything sealed has been sent. */
  ghost predicate AllSent(t: Tx)
  {
    t.eof && t.ring == [] && t.sent == Wire(t.sealed) && Plain(t.sealed) == t.taken
  }

  /** Everything the sender took in has been delivered, header first. */
  ghost predicate AllDelivered(t: Tx, x: Rx)
  {
    x.eof && x.ring == [] && x.input == [] && !x.pending && x.sent == x.header + t.taken
  }

  ghost predicate SenderOk(s: State)
  {
    (s.tx.shut ==> AllSent(s.tx)) && (s.closed ==> s.tx.shut)
  }

  ghost predicate ReceiverOk(s: State, r: State)
  {
    && r.rx.taken <= s.tx.sent
    && (r.rx.eof ==> s.tx.shut && r.rx.taken == s.tx.sent)
    && (r.rx.shut ==> AllDelivered(s.tx, r.rx))
    && (r.closed ==> r.rx.shut && r.rx.eof)
    && (!r.closed ==> Drained(r.rx, r.cap))
  }

  ghost predicate PairOk(p: Pair)
  {
    && PairHolds(p) && SameChunk(p)
    && SenderOk(p.client) && SenderOk(p.server)
    && ReceiverOk(p.client, p.server) && ReceiverOk(p.server, p.client)
  }

  // ----- nothing fails -----

  lemma SentIsWired(o: State, taken: seq<byte>)
    requires Sealing(o.tx, o.cap) && taken <= o.tx.sent
    ensures taken <= Wire(o.tx.sealed)
  {
  }

  lemma Stage2Succeeds(f: State, fd: Fd, o: State)
    requires Midway(Outcome(true, f), o.tx.sealed) && Sealing(o.tx, o.cap)
    requires Chunk(o.cap) == Chunk(f.cap) && f.rx.taken <= o.tx.sent
    ensures Stage2(f, fd, o.tx.sealed).ok
  {
    SentIsWired(o, f.rx.taken);
    TakenIsExpected(f.rx, f.cap, o.tx.sealed);
    DecryptExpected(f.rx, f.cap, o.tx.sealed, Chunk(o.cap));
  }

  lemma ReadWorkSucceeds(x: Rx, cap: nat, recv: RecvResult, o: State)
    requires CapOk(cap) && Receives(x, cap, o.tx.sealed) && Sealing(o.tx, o.cap)
    requires Chunk(o.cap) == Chunk(cap) && !recv.RecvFailed?
    requires recv.Data? ==> |x.input| + |recv.bytes| <= cap && x.taken + recv.bytes <= o.tx.sent
    ensures ReadWork(x, cap, recv, o.tx.sealed).ok
  {
    if recv.Data? {
      var log := o.tx.sealed;
      var y := x.(taken := x.taken + recv.bytes, input := Appended(x.input, recv.bytes, cap));
      Assoc(Wire(log[..x.seqno]), x.input, recv.bytes);
      AppendedWhole(x.input, recv.bytes, cap);
      SentIsWired(o, y.taken);
      TakenIsExpected(y, cap, log);
      DecryptExpected(y, cap, log, Chunk(o.cap));
    }
  }

  /** A smooth step at an open relay never fails. */
  lemma AdvanceSucceeds(p: Pair, e: Event)
    requires PairOk(p) && Smooth(p, e)
    requires !Me(p, e).closed && Plausible(Me(p, e), e.fd, e.io)
    ensures Advance(Me(p, e), e.fd, e.ev, e.io, Other(p, e).tx.sealed).ok
  {
    var r, o := Me(p, e), Other(p, e);
    var log := o.tx.sealed;
    Stage1Keeps(r, e.fd, e.ev, e.io, log);
    var f := Stage1(r, e.fd, e.ev, e.io);
    assert f.ok;
    Stage2Succeeds(f.st, e.fd, o);
    Stage2Keeps(f.st, e.fd, log, Chunk(o.cap));
    var d := Stage2(f.st, e.fd, log);
    if e.ev.read && e.fd == Work {
      assert d.st.rx == r.rx;
      ReadWorkSucceeds(r.rx, r.cap, e.io.recv, o);
    }
  }

  // ----- the invariant is kept -----

  lemma TxDoneStays(r: State, fd: Fd, ev: Ready, io: Io, log: seq<Sealed>)
    requires Sized(r) && Plausible(r, fd, io) && (ev.read ==> WantsRead(r, fd))
    requires r.tx.eof && r.tx.ring == []
    ensures Advance(r, fd, ev, io, log).st.tx == r.tx
  {
    TxOfAdvance(r, fd, ev, io, log);
  }

  lemma EndedSenderOk(o: Outcome)
    requires o.ok && Sized(o.st) && Sends(o.st.tx, o.st.cap) && !o.st.closed
    requires o.st.tx.shut ==> AllSent(o.st.tx)
    ensures SenderOk(Ended(o).1)
    ensures o.st.tx.shut ==> Ended(o).1.tx == o.st.tx
  {
    assert o.st.tx.sent + [] == o.st.tx.sent;
  }

  /** The end that steps, as a sender: once shut, nothing more happens to its sending
      half; and it is shut only when everything has been sent. */
  lemma StepSenderOk(p: Pair, e: Event)
    requires PairOk(p) && Smooth(p, e)
    requires !Me(p, e).closed && Plausible(Me(p, e), e.fd, e.io)
    ensures var q := After(Me(p, e), e.fd, e.ev, e.io, Other(p, e).tx.sealed);
      && SenderOk(q)
      && (Me(p, e).tx.shut ==> q.tx == Me(p, e).tx)
  {
    var r, o := Me(p, e), Other(p, e);
    var log := o.tx.sealed;
    AdvanceSucceeds(p, e);
    AdvanceMidway(r, e.fd, e.ev, e.io, log, Chunk(o.cap));
    if r.tx.shut { TxDoneStays(r, e.fd, e.ev, e.io, log); }
    else { TxOfAdvance(r, e.fd, e.ev, e.io, log); }
    EndedSenderOk(Advance(r, e.fd, e.ev, e.io, log));
  }

  lemma AdvanceMidway(r: State, fd: Fd, ev: Ready, io: Io, log: seq<Sealed>, chunk: nat)
    requires InSequence(log, chunk) && Holds(r, log) && Plausible(r, fd, io) && !r.closed
    ensures Midway(Advance(r, fd, ev, io, log), log)
  {
    Stage1Keeps(r, fd, ev, io, log);
    var f := Stage1(r, fd, ev, io);
    if f.ok {
      Stage2Keeps(f.st, fd, log, chunk);
      var d := Stage2(f.st, fd, log);
      if d.ok { Stage3Keeps(d.st, fd, ev, io, log, chunk); }
    }
  }

  /** A drained receiver with an empty output ring that has taken the whole wire has
      opened every record. */
  lemma DrainedMeansAll(x: Rx, cap: nat, log: seq<Sealed>, chunk: nat)
    requires CapOk(cap) && InSequence(log, chunk) && chunk <= Chunk(cap)
    requires Receives(x, cap, log) && x.taken == Wire(log)
    requires Drained(x, cap) && x.ring == []
    ensures x.seqno == |log| && x.input == []
  {
    var k := x.seqno;
    WireCut(log, k);
    Cancel(Wire(log[..k]), Wire(log[k..]), x.input);
    if k < |log| { WholeHead(log, k, chunk); }
    assert log[|log|..] == [];
  }

  lemma WholeHead(log: seq<Sealed>, k: nat, chunk: nat)
    requires InSequence(log, chunk) && k < |log|
    ensures var w := Wire(log[k..]);
      |w| >= HEADER && GetU32(w[..4]) <= chunk + TAG && |w| >= HEADER + GetU32(w[..4])
  {
    var e := log[k];
    WireAt(log, k);
    assert Framed(e, k + 1, chunk);
    assert Wire(log[k..])[..4] == U32(|e.box|);
    Got32(|e.box|);
  }

  lemma DeliveredAtEnd(x: Rx, cap: nat, s: State)
    requires CapOk(cap) && Sealing(s.tx, s.cap) && Chunk(s.cap) == Chunk(cap)
    requires Receives(x, cap, s.tx.sealed) && Drained(x, cap) && x.ring == [] && x.eof
    requires AllSent(s.tx) && x.taken == s.tx.sent
    ensures AllDelivered(s.tx, x)
  {
    var log := s.tx.sealed;
    DrainedMeansAll(x, cap, log, Chunk(s.cap));
    assert log[..|log|] == log;
    assert x.sent + [] == x.sent;
  }

  lemma RxDoneStays(r: State, fd: Fd, ev: Ready, io: Io, log: seq<Sealed>)
    requires Sized(r) && Plausible(r, fd, io) && (ev.read ==> WantsRead(r, fd))
    requires r.rx.eof && r.rx.ring == [] && r.rx.input == [] && !r.rx.pending
    ensures Advance(r, fd, ev, io, log).st.rx == r.rx
  {
  }

  /** At most the end-of-file mark and the bytes read change what a receiver has seen. */
  lemma EofOfAdvance(r: State, fd: Fd, ev: Ready, io: Io, log: seq<Sealed>)
    requires Sized(r) && Plausible(r, fd, io)
    ensures var x := Advance(r, fd, ev, io, log).st.rx;
      x.shut == r.rx.shut &&
      (x.eof ==> r.rx.eof || (fd == Work && ev.read && io.recv.Eof? && x.taken == r.rx.taken))
  {
    RxOfAdvance(r, fd, ev, io, log);
  }

  /** The end that steps, as a receiver. */
  lemma StepReceiverOk(p: Pair, e: Event)
    requires PairOk(p) && Smooth(p, e)
    requires !Me(p, e).closed && Plausible(Me(p, e), e.fd, e.io)
    ensures ReceiverOk(Other(p, e), After(Me(p, e), e.fd, e.ev, e.io, Other(p, e).tx.sealed))
  {
    var r, o := Me(p, e), Other(p, e);
    var log := o.tx.sealed;
    AdvanceSucceeds(p, e);
    AdvanceMidway(r, e.fd, e.ev, e.io, log, Chunk(o.cap));
    AdvanceDrains(r, e.fd, e.ev, e.io, log);
    EofOfAdvance(r, e.fd, e.ev, e.io, log);
    var a := Advance(r, e.fd, e.ev, e.io, log).st;
    assert a.rx.eof ==> o.tx.shut && a.rx.taken == o.tx.sent;
    if r.rx.shut { RxDoneStays(r, e.fd, e.ev, e.io, log); }
    else if a.rx.eof && a.rx.ring == [] { DeliveredAtEnd(a.rx, r.cap, o); }
  }

  lemma StepOk(p: Pair, e: Event)
    requires PairOk(p) && Smooth(p, e)
    ensures PairOk(Stepped(p, e))
  {
    var r, o := Me(p, e), Other(p, e);
    StepHolds(p, e);
    if Plausible(r, e.fd, e.io) && !r.closed {
      var q := After(r, e.fd, e.ev, e.io, o.tx.sealed);
      StepSenderOk(p, e);
      StepReceiverOk(p, e);
      AfterGrows(r, e.fd, e.ev, e.io, o.tx.sealed);
      AfterFixed(r, e.fd, e.ev, e.io, o.tx.sealed);
      assert ReceiverOk(q, o);
    }
  }

  lemma {:induction false} RunOk(p: Pair, events: seq<Event>)
    requires Start(p) && SameChunk(p) && SmoothRun(p, events)
    ensures PairOk(Run(p, events))
    decreases |events|
  {
    RunHolds(p, events);
    if events != [] {
      var before := events[..|events| - 1];
      RunOk(p, before);
      StepOk(Run(p, before), events[|events| - 1]);
    }
  }

  /** Main theorem: in a smooth run a half-close towards the direct socket, and a fortiori
      a close, comes only after every byte the other end read has been delivered behind
      the PROXY header, and a half-close towards work only after every byte read has been
      sent; no relay closes for any other reason. */
  lemma CloseLosesNothing(p: Pair, events: seq<Event>)
    requires Start(p) && SameChunk(p) && SmoothRun(p, events)
    ensures var q := Run(p, events);
      && (q.client.rx.shut || q.client.closed ==> q.client.rx.sent == p.client.rx.header + q.server.tx.taken)
      && (q.server.rx.shut || q.server.closed ==> q.server.rx.sent == q.client.tx.taken)
      && (q.client.tx.shut || q.client.closed ==> AllSent(q.client.tx))
      && (q.server.tx.shut || q.server.closed ==> AllSent(q.server.tx))
  {
    RunOk(p, events);
    HeadersStay(p, events);
    var q := Run(p, events);
    assert [] + q.client.tx.taken == q.client.tx.taken;
  }

  lemma {:induction false} HeadersStay(p: Pair, events: seq<Event>)
    requires Start(p)
    ensures Run(p, events).client.rx.header == p.client.rx.header
    ensures Run(p, events).server.rx.header == []
    decreases |events|
  {
    if events != [] {
      var before, e := events[..|events| - 1], events[|events| - 1];
      HeadersStay(p, before);
      var q := Run(p, before);
      var r := Me(q, e);
      if Sized(r) && Plausible(r, e.fd, e.io) {
        AfterFixed(r, e.fd, e.ev, e.io, Other(q, e).tx.sealed);
      }
    }
  }
}

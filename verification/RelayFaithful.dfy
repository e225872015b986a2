/** The same pair over a work connection that delivers every byte once and in order:
    conservation of the stream, absence of failures, and loss-free close. */
module RelayFaithful {
  import opened Bytes
  import opened Seqs
  import opened Records
  import opened RelaySpec
  import opened RelaySafety
  import opened RelayPair

  // ----- a faithful channel -----

  /** A read from work returns the next bytes the other end sent. */
  ghost predicate FaithfulData(p: Pair, e: Event)
  {
    e.fd == Work && e.ev.read && e.io.recv.Data? ==>
      Me(p, e).rx.taken + e.io.recv.bytes <= Other(p, e).tx.sent
  }

  ghost predicate FaithfulRun(p: Pair, events: seq<Event>)
    decreases |events|
  {
    events == [] ||
    var before := events[..|events| - 1];
    FaithfulRun(p, before) && FaithfulData(Run(p, before), events[|events| - 1])
  }

  ghost predicate TakenWasSent(p: Pair)
  {
    p.client.rx.taken <= p.server.tx.sent && p.server.rx.taken <= p.client.tx.sent
  }

  lemma StepTakenWasSent(p: Pair, e: Event)
    requires PairHolds(p) && TakenWasSent(p) && FaithfulData(p, e)
    ensures TakenWasSent(Stepped(p, e))
  {
    var r, o := Me(p, e), Other(p, e);
    if Plausible(r, e.fd, e.io) && !r.closed {
      AfterGrows(r, e.fd, e.ev, e.io, o.tx.sealed);
      var q := After(r, e.fd, e.ev, e.io, o.tx.sealed);
      assert q.rx.taken == Advance(r, e.fd, e.ev, e.io, o.tx.sealed).st.rx.taken;
    }
  }

  lemma {:induction false} RunTakenWasSent(p: Pair, events: seq<Event>)
    requires Start(p) && FaithfulRun(p, events)
    ensures TakenWasSent(Run(p, events))
    decreases |events|
  {
    if events != [] {
      var before := events[..|events| - 1];
      RunTakenWasSent(p, before);
      RunHolds(p, before);
      StepTakenWasSent(Run(p, before), events[|events| - 1]);
    }
  }

  /** The bytes between the two ends. */
  function InFlight(t: Tx, x: Rx): seq<byte>
    requires |x.taken| <= |t.sent|
  {
    t.sent[|x.taken|..]
  }

  /** How much of a header of this length has not been sent. */
  function Unsent(header: seq<byte>, sent: seq<byte>): nat
  {
    if |sent| >= |header| then 0 else |header| - |sent|
  }

  /** Every byte read at one end is delivered, waits in to_direct, or is the plaintext
      of a sealed record that has not been opened; and those records are exactly the
      bytes in work_input, in flight and in to_work, in that order. proxy_header_remaining
      counts exactly the header bytes not sent, and proxy_header_pending says if there are
      any. */
  ghost predicate Conserved(t: Tx, x: Rx)
  {
    && x.seqno <= |t.sealed| && |x.taken| <= |t.sent|
    && x.header + t.taken == x.sent + x.ring + Plain(t.sealed[x.seqno..])
    && Wire(t.sealed[x.seqno..]) == x.input + InFlight(t, x) + t.ring
    && x.remaining == Unsent(x.header, x.sent) && (x.pending <==> |x.sent| < |x.header|)
  }

  lemma Cancel(a: seq<byte>, b: seq<byte>, c: seq<byte>)
    requires a + b == a + c
    ensures b == c
  {
    assert b == (a + b)[|a|..] && c == (a + c)[|a|..];
  }

  lemma HeldIsConserved(t: Tx, x: Rx, tcap: nat, xcap: nat)
    requires Sends(t, tcap) && Receives(x, xcap, t.sealed) && x.taken <= t.sent
    ensures Conserved(t, x)
  {
    var k := x.seqno;
    var done, left := t.sealed[..k], t.sealed[k..];
    WireCut(t.sealed, k);
    Assoc(x.header, Plain(done), Plain(left));
    var way := InFlight(t, x);
    assert t.sent == x.taken + way;
    Assoc(x.taken, way, t.ring);
    Assoc(Wire(done), x.input, way + t.ring);
    Assoc(x.input, way, t.ring);
    Cancel(Wire(done), Wire(left), x.input + way + t.ring);
  }

  /** Main theorem, faithful channel: while both ends are open, both directions are
      conserved, whatever the interleaving and fragmentation. */
  lemma StreamsAreConserved(p: Pair, events: seq<Event>)
    requires Start(p) && FaithfulRun(p, events)
    ensures var q := Run(p, events);
      !q.client.closed && !q.server.closed ==>
        Conserved(q.client.tx, q.server.rx) && Conserved(q.server.tx, q.client.rx)
  {
    RunHolds(p, events);
    RunTakenWasSent(p, events);
    var q := Run(p, events);
    if !q.client.closed && !q.server.closed {
      HeldIsConserved(q.client.tx, q.server.rx, q.client.cap, q.server.cap);
      HeldIsConserved(q.server.tx, q.client.rx, q.server.cap, q.client.cap);
    }
  }

  // ----- on a faithful channel nothing fails to decrypt -----

  /** The input of a receiver on a faithful channel starts the records it has not opened. */
  ghost predicate Expects(x: Rx, log: seq<Sealed>)
  {
    x.seqno <= |log| && x.input <= Wire(log[x.seqno..])
  }

  lemma TakenIsExpected(x: Rx, cap: nat, log: seq<Sealed>)
    requires Receives(x, cap, log) && x.taken <= Wire(log)
    ensures Expects(x, log)
  {
    var k := x.seqno;
    WireCut(log, k);
    var w := Wire(log[..k]);
    assert Wire(log)[|w|..] == Wire(log[k..]);
    assert x.input == x.taken[|w|..];
    assert x.taken[|w|..] <= Wire(log)[|w|..];
  }

  lemma PrefixSlice(a: seq<byte>, b: seq<byte>, i: nat, j: nat)
    requires a <= b && i <= j <= |a|
    ensures a[i..j] == b[i..j] && a[j..] <= b[j..]
  {
  }

  /** The head of the expected input is the head of the next record. */
  lemma HeadExpected(x: Rx, log: seq<Sealed>, chunk: nat)
    requires InSequence(log, chunk) && Expects(x, log) && |x.input| >= HEADER
    ensures x.seqno < |log| && x.input[..HEADER] == log[x.seqno].ad
    ensures var n := |log[x.seqno].box|; HEADER + n <= |x.input| ==>
      && x.input[HEADER..HEADER + n] == log[x.seqno].box
      && x.input[HEADER + n..] <= Wire(log[x.seqno + 1..])
  {
    var k := x.seqno;
    assert log[k..] != [];
    var e, w := log[k], Wire(log[k..]);
    WireAt(log, k);
    assert Framed(e, k + 1, chunk);
    PrefixSlice(x.input, w, 0, HEADER);
    assert x.input[..HEADER] == x.input[0..HEADER] && w[0..HEADER] == e.ad;
    if HEADER + |e.box| <= |x.input| {
      PrefixSlice(x.input, w, HEADER, HEADER + |e.box|);
      assert w[HEADER..HEADER + |e.box|] == e.box;
      assert w[HEADER + |e.box|..] == Wire(log[k + 1..]);
    }
  }

  lemma OneExpected(x: Rx, cap: nat, log: seq<Sealed>, chunk: nat)
    requires CapOk(cap) && InSequence(log, chunk) && chunk <= Chunk(cap)
    requires RxSized(x, cap) && Expects(x, log)
    ensures var t := DecryptOne(x, cap, log); !t.Broken? && (t.Next? ==> Expects(t.rx, log))
  {
    if |x.input| >= HEADER {
      HeadExpected(x, log, chunk);
      var e := log[x.seqno];
      assert Framed(e, x.seqno + 1, chunk);
      DecodeAcceptsExactly(e.ad, Chunk(cap), x.seqno, |e.box|, x.seqno + 1);
      if HEADER + |e.box| <= |x.input| && |e.box| - TAG <= cap - |x.ring| {
        SealedOpens(log, x.seqno);
        OpenedIsNext(log, chunk, x.seqno, e.ad, e.box);
        OneOpens(x, cap, log, |e.box|, e.plain);
      }
    }
  }

  lemma {:induction false} DecryptExpected(x: Rx, cap: nat, log: seq<Sealed>, chunk: nat)
    requires CapOk(cap) && InSequence(log, chunk) && chunk <= Chunk(cap)
    requires RxSized(x, cap) && Expects(x, log)
    ensures Decrypt(x, cap, log).ok && Expects(Decrypt(x, cap, log).rx, log)
    decreases |x.input|
  {
    OneExpected(x, cap, log, chunk);
    var t := DecryptOne(x, cap, log);
    if t.Next? { DecryptExpected(t.rx, cap, log, chunk); }
  }
}

/** End-to-end correctness of two encrypted relays joined by a work connection
    (src/net/relay.c:85-97, 158-318). */
module RelaySafety {
  import opened Bytes
  import opened Rings
  import opened Seqs
  import opened Records
  import opened RelaySpec

  // ----- what a relay keeps about its sending half -----

  /** Everything read from the direct socket has been sealed, in order, under numbers
      1, 2, 3, ...; a relay that has closed keeps the prefix form. */
  ghost predicate Sealing(t: Tx, cap: nat)
  {
    && TxSized(t, cap)
    && InSequence(t.sealed, Chunk(cap))
    && Plain(t.sealed) <= t.taken
    && t.sent <= Wire(t.sealed)
  }

  /** While open, nothing sealed is lost either: it is on the wire or in to_work. */
  ghost predicate Sends(t: Tx, cap: nat)
  {
    && Sealing(t, cap)
    && |t.sealed| == t.seqno
    && Plain(t.sealed) == t.taken
    && Wire(t.sealed) == t.sent + t.ring
  }

  // ----- what a relay keeps about its receiving half -----

  /** Against the log the peer has sealed: what was delivered, and what waits in
      to_direct, is the PROXY header followed by the plaintext of records
      1..recv_seq. */
  ghost predicate Delivers(x: Rx, cap: nat, log: seq<Sealed>)
  {
    && RxSized(x, cap)
    && x.seqno <= |log|
    && x.sent + x.ring == x.header + Plain(log[..x.seqno])
  }

  /** Moreover the bytes read from work are those records and work_input, and
      proxy_header_remaining counts exactly the unsent bytes of the header. */
  ghost predicate Receives(x: Rx, cap: nat, log: seq<Sealed>)
  {
    && Delivers(x, cap, log)
    && x.taken == Wire(log[..x.seqno]) + x.input
    && x.remaining == (if |x.sent| >= |x.header| then 0 else |x.header| - |x.sent|)
    && (x.pending <==> x.remaining > 0)
  }

  // ----- the sending half, step by step -----

  lemma FlushTxKeeps(t: Tx, cap: nat, send: SendResult)
    requires Sends(t, cap) && SendFits(send, t.ring)
    ensures Sends(FlushTx(t, send).tx, cap)
  {
    if t.ring != [] && send.Sent? {
      Moved(t.sent, t.ring, send.n);
      Leads(t.sent + t.ring[..send.n], t.ring[send.n..]);
    }
  }

  lemma EncryptKeeps(t: Tx, cap: nat, p: seq<byte>, box: seq<byte>)
    requires CapOk(cap) && Sends(t, cap) && |box| == |p| + TAG && |p| <= Chunk(cap)
    ensures var o := Encrypt(t.(taken := t.taken + p), cap, p, box);
      Sealing(o.tx, cap) && (o.ok ==> Sends(o.tx, cap))
  {
    LeadsOn(Plain(t.sealed), t.taken, p);
    if t.seqno < U64_MAX {
      var e := Sealed(t.seqno + 1, Header(|p| + TAG, t.seqno + 1), p, box);
      SealedKeeps(t, cap, e, Encrypt(t.(taken := t.taken + p), cap, p, box));
    }
  }

  lemma SealedKeeps(t: Tx, cap: nat, e: Sealed, o: TxOutcome)
    requires Sends(t, cap) && Framed(e, t.seqno + 1, Chunk(cap)) && TxSized(o.tx, cap)
    requires o.tx == t.(taken := t.taken + e.plain, seqno := t.seqno + 1, sealed := t.sealed + [e],
                        ring := Appended(t.ring, e.ad + e.box, cap))
    requires o.ok <==> |t.ring| + HEADER + |e.box| <= cap
    ensures Sealing(o.tx, cap) && (o.ok ==> Sends(o.tx, cap))
  {
    var record := e.ad + e.box;
    SealedInSequence(t.sealed, Chunk(cap), e);
    WireNext(t.sealed, e);
    LeadsOn(t.sent, Wire(t.sealed), record);
    Assoc(t.sent, t.ring, record);
    AppendedWhole(t.ring, record, cap);
  }

  lemma ReadDirectKeeps(t: Tx, cap: nat, io: Io)
    requires CapOk(cap) && Sends(t, cap) && RecvFits(cap, Direct, io)
    ensures var o := ReadDirect(t, cap, io);
      Sealing(o.tx, cap) && (o.ok ==> Sends(o.tx, cap))
  {
    if io.recv.Data? { EncryptKeeps(t, cap, io.recv.bytes, io.box); }
  }

  // ----- the receiving half, step by step -----

  lemma FlushRxKeeps(x: Rx, cap: nat, send: SendResult, log: seq<Sealed>)
    requires Receives(x, cap, log) && SendFits(send, x.ring)
    ensures Receives(FlushRx(x, send).rx, cap, log)
  {
    if x.ring != [] && send.Sent? { Moved(x.sent, x.ring, send.n); }
  }

  /** A box that opens is the next record of the log, byte for byte. */
  lemma OpenedIsNext(log: seq<Sealed>, chunk: nat, seqno: nat, h: seq<byte>, box: seq<byte>)
    requires InSequence(log, chunk)
    requires Open(log, seqno + 1, h, box).Some?
    ensures var p := Open(log, seqno + 1, h, box).value;
      seqno < |log| && log[seqno] == Sealed(seqno + 1, h, p, box) && |p| + TAG == |box|
  {
    var k := OpenedWasSealed(log, seqno + 1, h, box);
    assert Framed(log[k], k + 1, chunk);
  }

  /** Taking record x.seqno + 1 off the input and its plaintext onto the output. */
  lemma TakenKeeps(x: Rx, y: Rx, cap: nat, log: seq<Sealed>, n: nat)
    requires Receives(x, cap, log) && x.seqno < |log| && RxSized(y, cap)
    requires HEADER + n <= |x.input|
    requires log[x.seqno].ad == x.input[..HEADER]
    requires log[x.seqno].box == x.input[HEADER..HEADER + n]
    requires y == x.(input := x.input[HEADER + n..], ring := x.ring + log[x.seqno].plain,
                     seqno := x.seqno + 1)
    ensures Receives(y, cap, log)
  {
    var e := log[x.seqno];
    WireAt(log, x.seqno);
    Assoc(x.sent, x.ring, e.plain);
    Assoc(x.header, Plain(log[..x.seqno]), e.plain);
    Cut(x.input, HEADER, HEADER + n);
    Regroup(Wire(log[..x.seqno]), e.ad, e.box, y.input);
  }

  lemma Regroup(a: seq<byte>, b: seq<byte>, c: seq<byte>, d: seq<byte>)
    ensures a + (b + c + d) == a + b + c + d
  {
  }

  /** When the head record is complete, fits and opens, its plaintext moves on whole. */
  lemma OneOpens(x: Rx, cap: nat, log: seq<Sealed>, n: nat, p: seq<byte>)
    requires RxSized(x, cap) && HEADER + n <= |x.input|
    requires DecodeHeader(x.input[..HEADER], Chunk(cap), x.seqno) == Some((n, x.seqno + 1))
    requires |p| + TAG == n && |p| <= cap - |x.ring|
    requires Open(log, x.seqno + 1, x.input[..HEADER], x.input[HEADER..HEADER + n]) == Some(p)
    ensures DecryptOne(x, cap, log)
         == Next(x.(input := x.input[HEADER + n..], ring := x.ring + p, seqno := x.seqno + 1))
  {
    AppendedWhole(x.ring, p, cap);
  }

  lemma DecryptOneKeeps(x: Rx, cap: nat, log: seq<Sealed>, chunk: nat)
    requires InSequence(log, chunk) && Receives(x, cap, log)
    ensures var t := DecryptOne(x, cap, log);
      && (t.Next? ==> Receives(t.rx, cap, log) && t.rx.seqno == x.seqno + 1)
      && (t.Broken? ==> Delivers(t.rx, cap, log))
  {
    if |x.input| >= HEADER {
      var h := x.input[..HEADER];
      var d := DecodeHeader(h, Chunk(cap), x.seqno);
      if d.Some? && |x.input| >= HEADER + d.value.0 && cap - |x.ring| >= d.value.0 - TAG {
        var n := d.value.0;
        var box := x.input[HEADER..HEADER + n];
        if Open(log, x.seqno + 1, h, box).Some? {
          OpenedIsNext(log, chunk, x.seqno, h, box);
          OneOpens(x, cap, log, n, log[x.seqno].plain);
          TakenKeeps(x, DecryptOne(x, cap, log).rx, cap, log, n);
        }
      }
    }
  }

  lemma {:induction false} DecryptKeeps(x: Rx, cap: nat, log: seq<Sealed>, chunk: nat)
    requires InSequence(log, chunk) && Receives(x, cap, log)
    ensures var o := Decrypt(x, cap, log);
      Delivers(o.rx, cap, log) && (o.ok ==> Receives(o.rx, cap, log))
    decreases |x.input|
  {
    DecryptOneKeeps(x, cap, log, chunk);
    var t := DecryptOne(x, cap, log);
    if t.Next? { DecryptKeeps(t.rx, cap, log, chunk); }
  }

  lemma ReadWorkKeeps(x: Rx, cap: nat, recv: RecvResult, log: seq<Sealed>, chunk: nat)
    requires InSequence(log, chunk) && Receives(x, cap, log)
    ensures var o := ReadWork(x, cap, recv, log);
      Delivers(o.rx, cap, log) && (o.ok ==> Receives(o.rx, cap, log))
  {
    if recv.Data? && |x.input| + |recv.bytes| <= cap {
      var y := x.(taken := x.taken + recv.bytes, input := Appended(x.input, recv.bytes, cap));
      Assoc(Wire(log[..x.seqno]), x.input, recv.bytes);
      AppendedWhole(x.input, recv.bytes, cap);
      DecryptKeeps(y, cap, log, chunk);
    }
  }

  // ----- ct_relay_process -----

  /** The relay's invariant against what its peer has sealed so far. A closed relay
      keeps what can still be said of the bytes that left it. */
  ghost predicate Holds(r: State, log: seq<Sealed>)
  {
    && Sized(r)
    && Sealing(r.tx, r.cap)
    && r.rx.seqno <= |log|
    && r.rx.sent <= r.rx.header + Plain(log[..r.rx.seqno])
    && (!r.closed ==> Sends(r.tx, r.cap) && Receives(r.rx, r.cap, log))
  }

  /** The same between the stages of one call, where a failed stage is about to close. */
  ghost predicate Midway(o: Outcome, log: seq<Sealed>)
  {
    && Sized(o.st) && !o.st.closed
    && Sealing(o.st.tx, o.st.cap) && Delivers(o.st.rx, o.st.cap, log)
    && (o.ok ==> Sends(o.st.tx, o.st.cap) && Receives(o.st.rx, o.st.cap, log))
  }

  lemma InitHolds(cap: nat, header: seq<byte>, log: seq<Sealed>)
    requires CapOk(cap) && |header| <= cap
    ensures Holds(Init(cap, header), log)
  {
    assert log[..0] == [];
    assert header + [] == header;
  }

  lemma Stage1Keeps(r: State, fd: Fd, ev: Ready, io: Io, log: seq<Sealed>)
    requires !r.closed && Holds(r, log) && Plausible(r, fd, io)
    ensures Midway(Stage1(r, fd, ev, io), log)
  {
    if ev.write {
      match fd
      case Direct => FlushRxKeeps(r.rx, r.cap, io.send, log);
      case Work => FlushTxKeeps(r.tx, r.cap, io.send);
    }
  }

  lemma Stage2Keeps(r: State, fd: Fd, log: seq<Sealed>, chunk: nat)
    requires InSequence(log, chunk) && Midway(Outcome(true, r), log)
    ensures Midway(Stage2(r, fd, log), log)
  {
    DecryptKeeps(r.rx, r.cap, log, chunk);
  }

  lemma Stage3Keeps(r: State, fd: Fd, ev: Ready, io: Io, log: seq<Sealed>, chunk: nat)
    requires InSequence(log, chunk) && Midway(Outcome(true, r), log) && RecvFits(r.cap, fd, io)
    ensures Midway(Stage3(r, fd, ev, io, log), log)
  {
    match fd
    case Direct => ReadDirectKeeps(r.tx, r.cap, io);
    case Work => ReadWorkKeeps(r.rx, r.cap, io.recv, log, chunk);
  }

  lemma EndedKeeps(o: Outcome, log: seq<Sealed>)
    requires Midway(o, log)
    ensures Holds(Ended(o).1, log)
  {
    var r := o.st;
    Leads(r.rx.sent, r.rx.ring);
    assert Sealing(Ended(o).1.tx, r.cap);
    if o.ok {
      assert Sends(HalfClosed(r).tx, r.cap);
      assert Receives(HalfClosed(r).rx, r.cap, log);
    }
  }

  /** Whatever bytes the work connection presents, one call keeps the invariant. */
  lemma AfterHolds(r: State, fd: Fd, ev: Ready, io: Io, log: seq<Sealed>, chunk: nat)
    requires InSequence(log, chunk) && Holds(r, log) && Plausible(r, fd, io)
    ensures Holds(After(r, fd, ev, io, log), log)
  {
    if !r.closed {
      Stage1Keeps(r, fd, ev, io, log);
      var f := Stage1(r, fd, ev, io);
      if f.ok {
        Stage2Keeps(f.st, fd, log, chunk);
        var d := Stage2(f.st, fd, log);
        if d.ok { Stage3Keeps(d.st, fd, ev, io, log, chunk); }
      }
      EndedKeeps(Advance(r, fd, ev, io, log), log);
    }
  }

  /** The sending half takes at most one of its two steps in a call. */
  lemma TxOfAdvance(r: State, fd: Fd, ev: Ready, io: Io, log: seq<Sealed>)
    requires Sized(r) && Plausible(r, fd, io)
    ensures var t := Advance(r, fd, ev, io, log).st.tx;
      || t == r.tx
      || (fd == Direct && ev.read && t == ReadDirect(r.tx, r.cap, io).tx)
      || (fd == Work && ev.write && t == FlushTx(r.tx, io.send).tx)
  {
  }

  /** The receiving half sends and then decrypts at the direct socket, and reads at work. */
  lemma RxOfAdvance(r: State, fd: Fd, ev: Ready, io: Io, log: seq<Sealed>)
    requires Sized(r) && Plausible(r, fd, io)
    ensures var x := Advance(r, fd, ev, io, log).st.rx;
      var f := if fd == Direct && ev.write then FlushRx(r.rx, io.send).rx else r.rx;
      match fd
      case Direct => x == f || x == Decrypt(f, r.cap, log).rx
      case Work => x == r.rx || (ev.read && x == ReadWork(r.rx, r.cap, io.recv, log).rx)
  {
  }

  ghost predicate TxGrew(t: Tx, u: Tx)
  {
    t.sealed <= u.sealed && t.taken <= u.taken && t.sent <= u.sent
  }

  lemma TxStepsGrow(t: Tx, cap: nat, io: Io)
    requires CapOk(cap) && TxSized(t, cap)
    ensures RecvFits(cap, Direct, io) ==> TxGrew(t, ReadDirect(t, cap, io).tx)
    ensures SendFits(io.send, t.ring) ==> TxGrew(t, FlushTx(t, io.send).tx)
  {
  }

  /** How the histories move in one call: they only grow. */
  lemma AfterGrows(r: State, fd: Fd, ev: Ready, io: Io, log: seq<Sealed>)
    requires Sized(r) && Plausible(r, fd, io)
    ensures TxGrew(r.tx, After(r, fd, ev, io, log).tx)
  {
    TxOfAdvance(r, fd, ev, io, log);
    TxStepsGrow(r.tx, r.cap, io);
  }

  /** The PROXY header and the capacity stay. */
  lemma AfterFixed(r: State, fd: Fd, ev: Ready, io: Io, log: seq<Sealed>)
    requires Sized(r) && Plausible(r, fd, io)
    ensures After(r, fd, ev, io, log).rx.header == r.rx.header
    ensures After(r, fd, ev, io, log).cap == r.cap
  {
  }
}
